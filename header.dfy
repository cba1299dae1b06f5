/** The page header: the signed-in user's initials and when the user block
    (initials, name, logout button) is rendered. */
module Header {
  import opened Common
  import opened Entities

  function CountSpaces(s: string): nat
  {
    if s == [] then 0 else (if s[0] == ' ' then 1 else 0) + CountSpaces(s[1..])
  }

  /** `s.split(" ")`: the pieces between single spaces, empty ones included. */
  function SplitOnSpace(s: string): (pieces: seq<string>)
    ensures |pieces| == CountSpaces(s) + 1
  {
    if s == [] then [""]
    else
      var rest := SplitOnSpace(s[1..]);
      if s[0] == ' ' then [""] + rest else [[s[0]] + rest[0]] + rest[1..]
  }

  /** `pieces.join(" ")`. */
  function JoinWithSpaces(pieces: seq<string>): string
  {
    if pieces == [] then ""
    else if |pieces| == 1 then pieces[0]
    else pieces[0] + " " + JoinWithSpaces(pieces[1..])
  }

  /** Splitting loses nothing: the pieces contain no space and joining them
      with single spaces gives the name back. */
  lemma {:induction false} SplitJoinRoundTrip(s: string)
    ensures JoinWithSpaces(SplitOnSpace(s)) == s
    ensures forall p :: p in SplitOnSpace(s) ==> ' ' !in p
    decreases |s|
  {
    if s != [] {
      var rest := SplitOnSpace(s[1..]);
      SplitJoinRoundTrip(s[1..]);
      if s[0] != ' ' {
        var head := [s[0]] + rest[0];
        if |rest| == 1 {
          assert JoinWithSpaces(SplitOnSpace(s)) == head;
        } else {
          assert JoinWithSpaces(SplitOnSpace(s)) == head + " " + JoinWithSpaces(rest[1..]);
          assert JoinWithSpaces(rest) == rest[0] + " " + JoinWithSpaces(rest[1..]);
        }
        assert s == [s[0]] + s[1..];
        forall p | p in SplitOnSpace(s) ensures ' ' !in p {
          if p != head { assert p in rest; } else { assert rest[0] in rest; }
        }
      } else {
        assert s == " " + s[1..];
      }
    }
  }

  /** `.map((n) => n[0]).join("")`: the first character of each piece; an
      empty piece gives `undefined`, which joins as "". */
  function FirstChars(pieces: seq<string>): (r: string)
    ensures |r| <= |pieces|
  {
    if pieces == [] then ""
    else (if pieces[0] == "" then "" else [pieces[0][0]]) + FirstChars(pieces[1..])
  }

  /** The avatar text: the upper-cased first characters of the name's pieces. */
  function Initials(name: string): string
  {
    ToUpper(FirstChars(SplitOnSpace(name)))
  }

  /** An independent reading of the initials: every non-space character that
      starts the name or follows a space, in order. */
  function WordStarts(s: string, afterSpace: bool): string
  {
    if s == [] then ""
    else (if s[0] != ' ' && afterSpace then [s[0]] else "") + WordStarts(s[1..], s[0] == ' ')
  }

  lemma {:induction false} FirstCharsAreWordStarts(s: string)
    ensures FirstChars(SplitOnSpace(s)) == WordStarts(s, true)
    ensures FirstChars(SplitOnSpace(s)[1..]) == WordStarts(s, false)
    decreases |s|
  {
    if s != [] {
      FirstCharsAreWordStarts(s[1..]);
      var rest := SplitOnSpace(s[1..]);
      if s[0] == ' ' {
        assert SplitOnSpace(s)[1..] == rest;
      } else {
        assert SplitOnSpace(s)[1..] == rest[1..];
      }
    }
  }

  /** The initials are exactly the upper-cased word starts of the name, so
      leading, trailing and repeated spaces contribute nothing. */
  lemma InitialsAreWordStarts(name: string)
    ensures Initials(name) == ToUpper(WordStarts(name, true))
  {
    FirstCharsAreWordStarts(name);
  }

  /** There are at most as many initials as pieces: spaces plus one. */
  lemma InitialsLength(name: string)
    ensures |Initials(name)| <= CountSpaces(name) + 1
  {
  }

  /** The user block and logout button are rendered iff signed in with a user. */
  predicate ShowsUserBlock(isLoggedIn: bool, user: Option<User>)
    ensures !isLoggedIn ==> !ShowsUserBlock(isLoggedIn, user)
    ensures user.None? ==> !ShowsUserBlock(isLoggedIn, user)
  {
    isLoggedIn && user.Some?
  }
}
