/** Shared vocabulary: optional values, JavaScript truthiness of the few value
    shapes the portal inspects, ASCII string helpers, and the notifications
    (toasts) the components raise. */
module Common {

  datatype Option<+T> = None | Some(value: T)

  /** The settled form of an awaited call inside a try/catch: it either
      returned a value or threw. */
  datatype Call<+T> = Returned(value: T) | Threw

  /** A JSON scalar as the ticket fields `status` and `priority` carry it. */
  datatype Scalar = Num(n: int) | Str(s: string) | Null

  /** What a component renders for a value: a fixed text or the raw value. */
  datatype Shown = Text(text: string) | Raw(value: Scalar)

  datatype Severity = Success | Warning | Error | Info

  /** A toast. `RuntimeErrorToast(prefix)` is an error toast whose text is
      `prefix` followed by the message of a JavaScript TypeError raised by the
      engine (reading a property of undefined); that message is not modelled. */
  datatype Notice = Toast(severity: Severity, text: string) | RuntimeErrorToast(prefix: string)

  /** The neutral grey pill colour that the ticket list and the ticket dialog
      both fall back to. */
  const GreyColor := "bg-gray-100 text-gray-800"

  /** Adds `f: msg` to a form's error map when there is a message. */
  function Put<K(==,!new)>(errors: map<K, string>, f: K, msg: Option<string>): (r: map<K, string>)
    ensures msg.Some? ==> f in r && r[f] == msg.value
    ensures msg.None? ==> r == errors
    ensures forall k :: k != f ==> (k in r <==> k in errors) && (k in errors ==> r[k] == errors[k])
  {
    if msg.Some? then errors[f := msg.value] else errors
  }

  /** `!!s` for a string that may be null or undefined. */
  predicate Truthy(s: Option<string>)
  {
    s.Some? && s.value != ""
  }

  /** `!!n` for a number that may be null or undefined. */
  predicate TruthyNum(n: Option<int>)
  {
    n.Some? && n.value != 0
  }

  /** `s || null`. */
  function OrNull(s: Option<string>): Option<string>
  {
    if Truthy(s) then s else None
  }

  /** `s || fallback`. */
  function OrElse(s: Option<string>, fallback: string): string
  {
    if Truthy(s) then s.value else fallback
  }

  // ----- ASCII characters -----

  /** The ASCII members of JavaScript's white-space class (used by `trim` and `\s`). */
  predicate IsSpace(c: char)
  {
    c == ' ' || c == '\t' || c == '\n' || c == '\r' || c == '\U{B}' || c == '\U{C}'
  }

  predicate IsDigit(c: char)
  {
    '0' <= c <= '9'
  }

  function LowerChar(c: char): char
  {
    if 'A' <= c <= 'Z' then (c as int + 32) as char else c
  }

  function UpperChar(c: char): char
  {
    if 'a' <= c <= 'z' then (c as int - 32) as char else c
  }

  /** `s.toLowerCase()` restricted to ASCII letters. */
  function ToLower(s: string): (r: string)
    ensures |r| == |s|
  {
    seq(|s|, i requires 0 <= i < |s| => LowerChar(s[i]))
  }

  /** Lower-casing leaves digits alone and never produces one from a letter,
      so a string lower-cases to a single digit exactly when it is that digit. */
  lemma ToLowerSingleDigit(s: string, d: char)
    requires IsDigit(d)
    ensures ToLower(s) == [d] <==> s == [d]
  {
    if |s| == 1 {
      assert ToLower(s)[0] == LowerChar(s[0]);
    }
  }

  /** `s.toUpperCase()` restricted to ASCII letters. */
  function ToUpper(s: string): (r: string)
    ensures |r| == |s|
  {
    seq(|s|, i requires 0 <= i < |s| => UpperChar(s[i]))
  }

  // ----- trim -----

  predicate IsBlank(s: string)
  {
    forall i :: 0 <= i < |s| ==> IsSpace(s[i])
  }

  function TrimStart(s: string): string
  {
    if s != [] && IsSpace(s[0]) then TrimStart(s[1..]) else s
  }

  function TrimEnd(s: string): string
  {
    if s != [] && IsSpace(s[|s| - 1]) then TrimEnd(s[..|s| - 1]) else s
  }

  /** `s.trim()`. */
  function Trim(s: string): string
  {
    TrimEnd(TrimStart(s))
  }

  lemma {:induction false} TrimStartEmptyIffBlank(s: string)
    ensures TrimStart(s) == "" <==> IsBlank(s)
    ensures TrimStart(s) != "" ==> !IsSpace(TrimStart(s)[0])
    decreases |s|
  {
    if s != [] && IsSpace(s[0]) {
      TrimStartEmptyIffBlank(s[1..]);
      assert IsBlank(s) <==> IsBlank(s[1..]) by {
        if IsBlank(s[1..]) {
          forall i | 0 <= i < |s| ensures IsSpace(s[i]) {
            if i > 0 { assert s[i] == s[1..][i - 1]; }
          }
        }
        if IsBlank(s) {
          forall i | 0 <= i < |s[1..]| ensures IsSpace(s[1..][i]) {
            assert s[1..][i] == s[i + 1];
          }
        }
      }
    }
  }

  lemma {:induction false} TrimEndEmptyIffBlank(s: string)
    ensures TrimEnd(s) == "" <==> IsBlank(s)
    decreases |s|
  {
    if s != [] && IsSpace(s[|s| - 1]) {
      var p := s[..|s| - 1];
      TrimEndEmptyIffBlank(p);
      assert IsBlank(s) <==> IsBlank(p) by {
        if IsBlank(p) {
          forall i | 0 <= i < |s| ensures IsSpace(s[i]) {
            if i < |s| - 1 { assert s[i] == p[i]; }
          }
        }
      }
    }
  }

  /** A string trims to the empty string exactly when every character is white space. */
  lemma TrimEmptyIffBlank(s: string)
    ensures Trim(s) == "" <==> IsBlank(s)
  {
    TrimStartEmptyIffBlank(s);
    TrimEndEmptyIffBlank(TrimStart(s));
  }

  // ----- numbers and their text -----

  function DigitChar(d: nat): char
    requires d < 10
  {
    ('0' as int + d) as char
  }

  function NatToString(n: nat): (r: string)
    ensures |r| >= 1
    ensures n >= 10 ==> |r| >= 2
    ensures IsDigit(r[|r| - 1])
    decreases n
  {
    if n < 10 then [DigitChar(n)] else NatToString(n / 10) + [DigitChar(n % 10)]
  }

  /** `n.toString()` for an integer. */
  function IntToString(n: int): (r: string)
    ensures |r| >= 1 && IsDigit(r[|r| - 1])
  {
    if n < 0 then "-" + NatToString(-n) else NatToString(n)
  }

  /** The decimal text of an integer is a given single digit exactly when the
      integer is that digit. */
  lemma SingleDigitText(n: int, d: nat)
    requires d < 10
    ensures IntToString(n) == [DigitChar(d)] <==> n == d
  {
    if n < 0 {
      assert IntToString(n)[0] == '-';
    } else if n >= 10 {
      assert |IntToString(n)| >= 2;
    }
  }

  function DigitsValue(s: string): nat
    requires forall i :: 0 <= i < |s| ==> IsDigit(s[i])
  {
    if s == [] then 0
    else
      assert IsDigit(s[|s| - 1]);
      DigitsValue(s[..|s| - 1]) * 10 + (s[|s| - 1] as int - '0' as int)
  }

  /** JavaScript's ToNumber on a string, restricted to the forms the model
      recognises: white space around an optional run of decimal digits. Any
      other text is NaN (None). */
  function StringToNumber(s: string): Option<int>
  {
    var t := Trim(s);
    if forall i :: 0 <= i < |t| ==> IsDigit(t[i]) then Some(DigitsValue(t)) else None
  }

  /** Loose equality `v == k` of a scalar with a number. */
  predicate LooselyEquals(v: Scalar, k: int)
  {
    match v
    case Num(n) => n == k
    case Str(s) => StringToNumber(s) == Some(k)
    case Null => false
  }

  // ----- substrings -----

  /** `s.includes(p)`. */
  predicate Includes(s: string, p: string)
    decreases |s|
  {
    |p| <= |s| && (s[..|p|] == p || Includes(s[1..], p))
  }

  ghost predicate OccursAt(s: string, p: string, i: int)
  {
    0 <= i && i + |p| <= |s| && s[i..i + |p|] == p
  }

  /** `Includes` holds exactly when the pattern occurs at some position. */
  lemma {:induction false} IncludesIffOccurs(s: string, p: string)
    ensures Includes(s, p) <==> exists i :: OccursAt(s, p, i)
    decreases |s|
  {
    if |p| <= |s| {
      if s[..|p|] == p {
        assert OccursAt(s, p, 0);
      } else {
        IncludesIffOccurs(s[1..], p);
        if Includes(s[1..], p) {
          var i :| OccursAt(s[1..], p, i);
          assert s[1..][i..i + |p|] == s[i + 1..i + 1 + |p|];
          assert OccursAt(s, p, i + 1);
        }
        if exists i :: OccursAt(s, p, i) {
          var i :| OccursAt(s, p, i);
          assert i != 0;
          assert s[1..][i - 1..i - 1 + |p|] == s[i..i + |p|];
          assert OccursAt(s[1..], p, i - 1);
        }
      }
    } else {
      forall i ensures !OccursAt(s, p, i) { }
    }
  }
}
