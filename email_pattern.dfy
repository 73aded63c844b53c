/**
 * The address syntax check shared by the server and the form client: both
 * test the regular expression /^[^\s@]+@[^\s@]+\.[^\s@]+$/.
 *
 * `MatchesPattern` is the language of that expression read off its four
 * parts; `ValidateEmail` recognises the same language with a deterministic
 * automaton (JavaScript matches by backtracking; only the language is the
 * same), and is proved equal to it;
 * `WellFormedAddress` is the characterisation "local part, one '@', domain
 * with an inner dot", proved equivalent as well.
 */
module EmailPattern {
  import opened Js

  /** A character of the class `[^\s@]`. */
  predicate PlainChar(c: char) {
    !IsJsWhitespace(c) && c != '@'
  }

  /** Every character of `s` is in `[^\s@]`. */
  predicate AllPlain(s: string) {
    forall k :: 0 <= k < |s| ==> PlainChar(s[k])
  }

  /**
   * `s` splits as `[^\s@]+` `@` `[^\s@]+` `\.` `[^\s@]+` with the '@' at
   * index `at` and the literal '.' at index `dot`.
   */
  predicate PatternAt(s: string, at: int, dot: int) {
    && 0 < at && at + 1 < dot && dot + 1 < |s|
    && s[at] == '@' && s[dot] == '.'
    && AllPlain(s[..at]) && AllPlain(s[at + 1..dot]) && AllPlain(s[dot + 1..])
  }

  /** `s` is in the language of /^[^\s@]+@[^\s@]+\.[^\s@]+$/. */
  ghost predicate MatchesPattern(s: string) {
    exists at, dot :: PatternAt(s, at, dot)
  }

  /** `d` has a '.' that is neither its first nor its last character. */
  predicate HasInnerDot(d: string) {
    exists i :: 1 <= i <= |d| - 2 && d[i] == '.'
  }

  /** `s` is `local + "@" + domain` with the '@' at index `at`, and the parts are as an address needs. */
  predicate AddressAt(s: string, at: int) {
    && 0 <= at < |s| && s[at] == '@'
    && s[..at] != [] && AllPlain(s[..at])
    && AllPlain(s[at + 1..]) && HasInnerDot(s[at + 1..])
  }

  /**
   * The characterisation of accepted addresses: a non-empty local part free
   * of whitespace and '@', one '@', and a domain free of whitespace and '@'
   * with an inner '.'.
   */
  ghost predicate WellFormedAddress(s: string) {
    exists at :: AddressAt(s, at)
  }

  /** The states of the automaton that recognises the pattern. */
  datatype Phase =
    | Start       // nothing read
    | Local       // one or more characters of the local part
    | AtSign      // the '@' was just read
    | Domain      // domain characters, no '.' yet with a character before it
    | DomainDot   // the last domain character is such a '.'
    | Accepted    // a '.' with characters on both sides has been read
    | Rejected    // no continuation can match

  /** One transition of the automaton. */
  function Step(q: Phase, c: char): Phase {
    match q
    case Start => if PlainChar(c) then Local else Rejected
    case Local => if c == '@' then AtSign else if PlainChar(c) then Local else Rejected
    case AtSign => if PlainChar(c) then Domain else Rejected
    case Domain => if c == '.' then DomainDot else if PlainChar(c) then Domain else Rejected
    case DomainDot => if PlainChar(c) then Accepted else Rejected
    case Accepted => if PlainChar(c) then Accepted else Rejected
    case Rejected => Rejected
  }

  /** The state after reading all of `s` from `Start`. */
  function Run(s: string): Phase
    decreases |s|
  {
    if s == [] then Start else Step(Run(s[..|s| - 1]), s[|s| - 1])
  }

  /** `validateEmail`: the regular-expression test, on both server and client. */
  function ValidateEmail(s: string): (r: bool)
    ensures r <==> MatchesPattern(s)
    ensures r <==> WellFormedAddress(s)
  {
    RunIsExpected(s);
    ExpectedAcceptedIff(s);
    PatternIffWellFormed(s);
    Run(s) == Accepted
  }

  // ---------------------------------------------------------------------
  // What each state means, as a property of the prefix read so far.
  // ---------------------------------------------------------------------

  /** The index of the first '@' in `p`, or `|p|` when there is none. */
  function FirstAt(p: string): (i: nat)
    ensures i <= |p|
    ensures i < |p| ==> p[i] == '@'
    ensures forall j :: 0 <= j < i ==> p[j] != '@'
  {
    if p == [] then 0
    else if p[0] == '@' then 0
    else 1 + FirstAt(p[1..])
  }

  /** The state reached once a plain domain `d` has been read after the '@'. */
  function DomainPhase(d: string): Phase {
    if d == [] then AtSign
    else if HasInnerDot(d) then Accepted
    else if |d| >= 2 && d[|d| - 1] == '.' then DomainDot
    else Domain
  }

  /** The state the automaton should be in after reading `p`. */
  function Expected(p: string): Phase {
    if p == [] then Start
    else
      var i := FirstAt(p);
      if i == |p| then (if AllPlain(p) then Local else Rejected)
      else if 0 < i && AllPlain(p[..i]) && AllPlain(p[i + 1..]) then DomainPhase(p[i + 1..])
      else Rejected
  }

  lemma FirstAtSnoc(p: string, c: char)
    ensures FirstAt(p + [c]) == if FirstAt(p) < |p| then FirstAt(p) else if c == '@' then |p| else |p| + 1
  {
    var p' := p + [c];
    var i := FirstAt(p);
    assert forall j :: 0 <= j < |p| ==> p'[j] == p[j];
    if i < |p| {
      assert p'[i] == '@';
    } else if c == '@' {
      assert p'[|p|] == '@';
    }
  }

  lemma AllPlainSnoc(p: string, c: char)
    ensures AllPlain(p + [c]) <==> AllPlain(p) && PlainChar(c)
  {
    var p' := p + [c];
    assert forall j :: 0 <= j < |p| ==> p'[j] == p[j];
    assert p'[|p|] == c;
  }

  lemma InnerDotSnoc(d: string, c: char)
    ensures HasInnerDot(d + [c]) <==> HasInnerDot(d) || (|d| >= 2 && d[|d| - 1] == '.')
  {
    var d' := d + [c];
    if HasInnerDot(d') {
      var i :| 1 <= i <= |d'| - 2 && d'[i] == '.';
      assert d'[i] == d[i];
    }
    if HasInnerDot(d) {
      var i :| 1 <= i <= |d| - 2 && d[i] == '.';
      assert d'[i] == '.';
    }
    if |d| >= 2 && d[|d| - 1] == '.' {
      assert d'[|d| - 1] == '.';
    }
  }

  /** Reading one more domain character moves the domain state by `Step`. */
  lemma DomainStep(d: string, c: char)
    requires PlainChar(c)
    ensures DomainPhase(d + [c]) == Step(DomainPhase(d), c)
  {
    InnerDotSnoc(d, c);
  }

  /** One step of the automaton preserves the meaning of its state. */
  lemma ExpectedStep(p: string, c: char)
    ensures Expected(p + [c]) == Step(Expected(p), c)
  {
    var p' := p + [c];
    FirstAtSnoc(p, c);
    AllPlainSnoc(p, c);
    var i := FirstAt(p);
    if p != [] && i < |p| {
      assert p'[..i] == p[..i];
      assert p'[i + 1..] == p[i + 1..] + [c];
      AllPlainSnoc(p[i + 1..], c);
      if PlainChar(c) {
        DomainStep(p[i + 1..], c);
      }
    } else if p != [] && c == '@' {
      assert p'[..|p|] == p;
      assert p'[|p| + 1..] == [];
    }
  }

  lemma RunSnoc(p: string, c: char)
    ensures Run(p + [c]) == Step(Run(p), c)
  {
    assert (p + [c])[..|p|] == p;
  }

  /** The automaton's state after `s` is the expected one. */
  lemma {:induction false} RunIsExpected(s: string)
    ensures Run(s) == Expected(s)
    decreases |s|
  {
    if s != [] {
      var p := s[..|s| - 1];
      RunIsExpected(p);
      assert s == p + [s[|s| - 1]];
      ExpectedStep(p, s[|s| - 1]);
    }
  }

  /** A plain domain with an inner '.' splits into the pattern's last three parts. */
  lemma DomainSplits(s: string, at: int, i: int)
    requires 0 <= at < |s| && AllPlain(s[at + 1..])
    requires 1 <= i <= |s[at + 1..]| - 2 && s[at + 1..][i] == '.'
    ensures AllPlain(s[at + 1..at + 1 + i]) && AllPlain(s[at + 2 + i..])
    ensures s[at + 1 + i] == '.'
  {
    var d := s[at + 1..];
    assert s[at + 1..at + 1 + i] == d[..i];
    assert s[at + 2 + i..] == d[i + 1..];
  }

  /** The pattern's last three parts make a plain domain with an inner '.'. */
  lemma DomainJoins(s: string, at: int, dot: int)
    requires PatternAt(s, at, dot)
    ensures AllPlain(s[at + 1..]) && HasInnerDot(s[at + 1..])
  {
    var d := s[at + 1..];
    var b, e := s[at + 1..dot], s[dot + 1..];
    assert d == b + [s[dot]] + e;
    forall k | 0 <= k < |d| ensures PlainChar(d[k]) {
      if k < |b| { assert d[k] == b[k]; }
      else if k > |b| { assert d[k] == e[k - |b| - 1]; }
    }
    assert d[dot - at - 1] == '.';
  }

  /** No '@' occurs in a plain prefix. */
  lemma PlainPrefixHasNoAt(s: string, at: int)
    requires 0 <= at <= |s| && AllPlain(s[..at])
    ensures forall j :: 0 <= j < at ==> s[j] != '@'
  {
    forall j | 0 <= j < at ensures s[j] != '@' {
      assert s[..at][j] == s[j];
    }
  }

  /** The accepting state means exactly that the whole pattern was read. */
  lemma ExpectedAcceptedIff(s: string)
    ensures Expected(s) == Accepted <==> MatchesPattern(s)
  {
    var i := FirstAt(s);
    if Expected(s) == Accepted {
      var d := s[i + 1..];
      var k :| 1 <= k <= |d| - 2 && d[k] == '.';
      DomainSplits(s, i, k);
      assert PatternAt(s, i, i + 1 + k);
    }
    if MatchesPattern(s) {
      var at, dot :| PatternAt(s, at, dot);
      PlainPrefixHasNoAt(s, at);
      assert FirstAt(s) == at;
      DomainJoins(s, at, dot);
    }
  }

  /** The pattern's language and the characterisation are the same set of strings. */
  lemma PatternIffWellFormed(s: string)
    ensures MatchesPattern(s) <==> WellFormedAddress(s)
  {
    if MatchesPattern(s) {
      var at, dot :| PatternAt(s, at, dot);
      DomainJoins(s, at, dot);
      assert AddressAt(s, at);
    }
    if WellFormedAddress(s) {
      var at :| AddressAt(s, at);
      var k :| 1 <= k <= |s[at + 1..]| - 2 && s[at + 1..][k] == '.';
      DomainSplits(s, at, k);
      assert PatternAt(s, at, at + 1 + k);
    }
  }

  /** An accepted address has exactly one '@' and no whitespace anywhere. */
  lemma AcceptedShape(s: string)
    requires ValidateEmail(s)
    ensures multiset(s)['@'] == 1
    ensures forall k :: 0 <= k < |s| ==> !IsJsWhitespace(s[k])
  {
    var at :| AddressAt(s, at);
    var l, d := s[..at], s[at + 1..];
    assert s == l + ['@'] + d;
    assert '@' !in l by { forall k | 0 <= k < |l| ensures l[k] != '@' { assert PlainChar(l[k]); } }
    assert '@' !in d by { forall k | 0 <= k < |d| ensures d[k] != '@' { assert PlainChar(d[k]); } }
    assert multiset(s) == multiset(l) + multiset{'@'} + multiset(d);
    forall k | 0 <= k < |s| ensures !IsJsWhitespace(s[k]) {
      if k < at { assert s[k] == l[k]; }
      else if k > at { assert s[k] == d[k - at - 1]; }
    }
  }

  /** The state after reading `s`, one character at a time. */
  lemma RunChars(s: string)
    ensures Run(s) == RunFrom(Start, s)
  {
    RunFromIsRun(s, []);
    assert [] + s == s;
  }

  /** The automaton run from state `q` over `s`, left to right. */
  function RunFrom(q: Phase, s: string): Phase
    decreases |s|
  {
    if s == [] then q else RunFrom(Step(q, s[0]), s[1..])
  }

  lemma {:induction false} RunFromIsRun(s: string, p: string)
    ensures Run(p + s) == RunFrom(Run(p), s)
    decreases |s|
  {
    if s != [] {
      RunSnoc(p, s[0]);
      assert p + s == (p + [s[0]]) + s[1..];
      RunFromIsRun(s[1..], p + [s[0]]);
    } else {
      assert p + s == p;
    }
  }

  /** Two addresses the pattern accepts, one with consecutive dots in the domain. */
  lemma AcceptedExamples()
    ensures ValidateEmail("a@b.c")
    ensures ValidateEmail("a@b..c")
  {
    RunChars("a@b.c");
    RunChars("a@b..c");
  }

  /** Addresses the pattern rejects: empty local part, dot first or last in the domain, a space. */
  lemma RejectedExamples()
    ensures !ValidateEmail("@b.c")
    ensures !ValidateEmail("a@.c")
    ensures !ValidateEmail("a@b.")
    ensures !ValidateEmail("a b@c.d")
  {
    RunChars("@b.c");
    RunChars("a@.c");
    RunChars("a@b.");
    RunChars("a b@c.d");
  }
}
