/** The newsletter sign-up box: the e-mail check it applies before
    subscribing, and the idle / loading / success cycle of its button. */
module Newsletter {
  import Text

  /** A character of the class `[^\s@]`. */
  predicate Plain(c: char) {
    !Text.IsSpace(c) && c != '@'
  }

  predicate AllPlain(s: string) {
    forall i :: 0 <= i < |s| ==> Plain(s[i])
  }

  /** A run `[^\s@]+`. */
  predicate Segment(s: string) {
    |s| > 0 && AllPlain(s)
  }

  /** What the component's e-mail pattern matches: a run, an at sign, a run,
      a dot and a run, where a run is one or more characters that are neither
      white space nor an at sign. */
  ghost predicate MatchesPattern(s: string) {
    exists a, b, c :: Segment(a) && Segment(b) && Segment(c) && s == a + "@" + b + "." + c
  }

  /** The position of the first '@', or |s| when there is none. */
  function FirstAt(s: string): (r: nat)
    ensures r <= |s|
    ensures r < |s| ==> s[r] == '@'
    ensures forall j :: 0 <= j < r ==> s[j] != '@'
  {
    if s == [] then 0 else if s[0] == '@' then 0 else 1 + FirstAt(s[1..])
  }

  /** The part after the '@': plain characters with a '.' that is neither
      first nor last. */
  predicate DomainOk(d: string) {
    |d| >= 3 && AllPlain(d) && '.' in d[1..|d| - 1]
  }

  /** The check run by `submit`, one scan at a time. */
  predicate Accepts(s: string) {
    var i := FirstAt(s);
    0 < i < |s| && AllPlain(s[..i]) && DomainOk(s[i + 1..])
  }

  lemma AcceptsSplit(s: string) returns (a: string, b: string, c: string)
    requires Accepts(s)
    ensures Segment(a) && Segment(b) && Segment(c) && s == a + "@" + b + "." + c
  {
    var i := FirstAt(s);
    var d := s[i + 1..];
    var k :| 0 <= k < |d| - 2 && d[1..|d| - 1][k] == '.';
    var j := k + 1;
    a, b, c := s[..i], d[..j], d[j + 1..];
    assert d == b + "." + c;
    assert s == a + "@" + d;
  }

  lemma PatternAccepted(s: string, a: string, b: string, c: string)
    requires Segment(a) && Segment(b) && Segment(c) && s == a + "@" + b + "." + c
    ensures Accepts(s)
  {
    var d := b + "." + c;
    assert s == a + "@" + d;
    assert forall j :: 0 <= j < |a| ==> s[j] == a[j];
    assert s[|a|] == '@';
    FirstAtIs(s, |a|);
    assert s[..|a|] == a;
    assert s[|a| + 1..] == d;
    assert d[1..|d| - 1][|b| - 1] == '.';
  }

  lemma FirstAtIs(s: string, i: nat)
    requires i < |s| && s[i] == '@'
    requires forall j :: 0 <= j < i ==> s[j] != '@'
    ensures FirstAt(s) == i
  {
  }

  /** The scan accepts exactly the strings the pattern matches. */
  lemma AcceptsIffPattern(s: string)
    ensures Accepts(s) <==> MatchesPattern(s)
  {
    if Accepts(s) {
      var a, b, c := AcceptsSplit(s);
    }
    if MatchesPattern(s) {
      var a, b, c :| Segment(a) && Segment(b) && Segment(c) && s == a + "@" + b + "." + c;
      PatternAccepted(s, a, b, c);
    }
  }

  /** An empty address, or one with a space, is refused. */
  lemma Refused(s: string)
    ensures s == "" ==> !Accepts(s)
    ensures (exists i :: 0 <= i < |s| && Text.IsSpace(s[i])) ==> !Accepts(s)
  {
    if Accepts(s) {
      var i := FirstAt(s);
      forall j | 0 <= j < |s| ensures !Text.IsSpace(s[j]) {
        if j < i {
          assert s[j] == s[..i][j];
        } else if j > i {
          assert s[j] == s[i + 1..][j - i - 1];
        }
      }
    }
  }

  /** An accepted address holds exactly one '@'. */
  lemma SingleAt(s: string)
    requires Accepts(s)
    ensures '@' in s
    ensures forall j :: 0 <= j < |s| && s[j] == '@' ==> j == FirstAt(s)
  {
    var i := FirstAt(s);
    forall j | i < j < |s| ensures s[j] != '@' {
      assert s[j] == s[i + 1..][j - i - 1];
    }
  }

  datatype Status = Idle | Loading | Subscribed

  class Signup {
    var email: string
    var status: Status

    constructor ()
      ensures email == "" && status == Idle
    {
      email := "";
      status := Idle;
    }

    /** The input's `onChange`. */
    method Typed(s: string)
      modifies this
      ensures email == s && status == old(status)
    {
      email := s;
    }

    /** `submit`: an address the pattern refuses changes nothing; otherwise
        the box starts loading and the delivery timer is scheduled. */
    method Submit() returns (scheduled: bool)
      modifies this
      ensures scheduled <==> MatchesPattern(old(email))
      ensures scheduled ==> status == Loading && email == old(email)
      ensures !scheduled ==> status == old(status) && email == old(email)
    {
      AcceptsIffPattern(email);
      scheduled := email != "" && Accepts(email);
      if scheduled {
        status := Loading;
      }
    }

    /** The first timer: subscribed, and the input is cleared. */
    method Delivered()
      modifies this
      ensures status == Subscribed && email == ""
    {
      status := Subscribed;
      email := "";
    }

    /** The second timer: back to idle. */
    method Cleared()
      modifies this
      ensures status == Idle && email == old(email)
    {
      status := Idle;
    }

    /** The subscribe button is disabled while the request is loading. */
    predicate ButtonDisabled()
      reads this
    {
      status == Loading
    }
  }
}
