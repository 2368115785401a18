/**
 * The repository-name check of the project form (src/pages/CreateProject.tsx:25):
 * the regular expression `^[a-zA-Z0-9-_]+\/[a-zA-Z0-9-_]+$`, run as the finite
 * automaton it denotes, and its meaning: an owner and a name, both non-empty
 * over letters, digits, '-' and '_', around a single '/'.
 */
module RepositoryName {
  import opened Text

  /** The character class `[a-zA-Z0-9-_]`: the '-' after the range 0-9 is literal. */
  predicate RepoChar(c: char) {
    ('a' <= c <= 'z') || ('A' <= c <= 'Z') || ('0' <= c <= '9') || c == '-' || c == '_'
  }

  predicate Segment(t: string) {
    forall i :: 0 <= i < |t| ==> RepoChar(t[i])
  }

  /** Where the automaton is: before/inside the owner, before/inside the name, or failed. */
  datatype ScanState = OwnerStart | InOwner | NameStart | InName | Dead

  function Step(st: ScanState, c: char): ScanState {
    match st
    case OwnerStart => if RepoChar(c) then InOwner else Dead
    case InOwner => if RepoChar(c) then InOwner else if c == '/' then NameStart else Dead
    case NameStart => if RepoChar(c) then InName else Dead
    case InName => if RepoChar(c) then InName else Dead
    case Dead => Dead
  }

  function Scan(st: ScanState, s: string): ScanState
    decreases |s|
  {
    if s == [] then st else Scan(Step(st, s[0]), s[1..])
  }

  /** `repository.match(/^[a-zA-Z0-9-_]+\/[a-zA-Z0-9-_]+$/)` is non-null. */
  predicate MatchesPattern(s: string) {
    Scan(OwnerStart, s) == InName
  }

  /** The language of the pattern, stated directly: owner '/' name. */
  predicate OwnerSlashName(s: string) {
    exists k :: 0 < k < |s| - 1 && s[k] == '/' && Segment(s[..k]) && Segment(s[k + 1..])
  }

  lemma {:induction false} ScanAppend(st: ScanState, a: string, b: string)
    ensures Scan(st, a + b) == Scan(Scan(st, a), b)
    decreases |a|
  {
    if a != [] {
      assert (a + b)[0] == a[0] && (a + b)[1..] == a[1..] + b;
      ScanAppend(Step(st, a[0]), a[1..], b);
    } else {
      assert a + b == b;
    }
  }

  /** Inside a segment, more segment characters keep the automaton where it is. */
  lemma {:induction false} ScanStays(st: ScanState, t: string)
    requires st == InOwner || st == InName
    requires Segment(t)
    ensures Scan(st, t) == st
    decreases |t|
  {
    if t != [] {
      ScanStays(st, t[1..]);
    }
  }

  lemma {:induction false} ScanDead(t: string)
    ensures Scan(Dead, t) == Dead
    decreases |t|
  {
    if t != [] {
      ScanDead(t[1..]);
    }
  }

  /** From the start of the name, acceptance means a non-empty segment. */
  lemma {:induction false} NameAccepted(st: ScanState, t: string)
    requires st == NameStart || st == InName
    requires Scan(st, t) == InName
    ensures Segment(t)
    ensures st == NameStart ==> t != []
    decreases |t|
  {
    if t != [] {
      if !RepoChar(t[0]) {
        ScanDead(t[1..]);
      } else {
        NameAccepted(InName, t[1..]);
      }
    }
  }

  /** Inside the owner, acceptance means: more owner, one '/', then a non-empty name. */
  lemma {:induction false} OwnerAccepted(t: string)
    requires Scan(InOwner, t) == InName
    ensures exists k :: 0 <= k < |t| - 1 && t[k] == '/' && Segment(t[..k]) && Segment(t[k + 1..])
    decreases |t|
  {
    assert t != [];
    var rest := t[1..];
    if RepoChar(t[0]) {
      OwnerAccepted(rest);
      var k :| 0 <= k < |rest| - 1 && rest[k] == '/' && Segment(rest[..k]) && Segment(rest[k + 1..]);
      assert t[..k + 1] == [t[0]] + rest[..k];
      assert t[k + 2..] == rest[k + 1..];
    } else if t[0] == '/' {
      NameAccepted(NameStart, rest);
      assert t[..0] == [];
    } else {
      ScanDead(rest);
    }
  }

  /** Every string the automaton accepts is owner '/' name. */
  lemma {:induction false} AcceptedIsOwnerSlashName(s: string)
    requires MatchesPattern(s)
    ensures OwnerSlashName(s)
  {
    assert s != [];
    if !RepoChar(s[0]) {
      ScanDead(s[1..]);
    }
    var rest := s[1..];
    OwnerAccepted(rest);
    var k :| 0 <= k < |rest| - 1 && rest[k] == '/' && Segment(rest[..k]) && Segment(rest[k + 1..]);
    assert s[..k + 1] == [s[0]] + rest[..k];
    assert s[k + 2..] == rest[k + 1..];
    assert 0 < k + 1 < |s| - 1 && s[k + 1] == '/';
  }

  /** Every owner '/' name string is accepted. */
  lemma {:induction false} OwnerSlashNameIsAccepted(s: string)
    requires OwnerSlashName(s)
    ensures MatchesPattern(s)
  {
    var k :| 0 < k < |s| - 1 && s[k] == '/' && Segment(s[..k]) && Segment(s[k + 1..]);
    var owner, tail := s[..k], s[k..];
    assert s == owner + tail;
    ScanAppend(OwnerStart, owner, tail);
    ScanSegment(OwnerStart, owner);
    assert tail[0] == '/' && tail[1..] == s[k + 1..];
    ScanSegment(NameStart, tail[1..]);
  }

  /** A non-empty segment read from the start of a segment ends inside it. */
  lemma ScanSegment(st: ScanState, t: string)
    requires st == OwnerStart || st == NameStart
    requires t != [] && Segment(t)
    ensures Scan(st, t) == if st == OwnerStart then InOwner else InName
  {
    assert RepoChar(t[0]);
    ScanStays(Step(st, t[0]), t[1..]);
  }

  /** The automaton accepts exactly the owner/name strings. */
  lemma PatternMeaning(s: string)
    ensures MatchesPattern(s) <==> OwnerSlashName(s)
  {
    if MatchesPattern(s) { AcceptedIsOwnerSlashName(s); }
    if OwnerSlashName(s) { OwnerSlashNameIsAccepted(s); }
  }

  /**
   * An accepted repository holds exactly one '/', and splitting on it gives
   * exactly the two non-empty segments, which join back to the repository.
   */
  lemma {:induction false} AcceptedSplitsInTwo(s: string)
    requires MatchesPattern(s)
    ensures |Split(s, '/')| == 2
    ensures Split(s, '/')[0] != "" && Split(s, '/')[1] != ""
    ensures Segment(Split(s, '/')[0]) && Segment(Split(s, '/')[1])
    ensures s == Split(s, '/')[0] + "/" + Split(s, '/')[1]
    ensures forall i, j :: 0 <= i < j < |s| && s[i] == '/' ==> s[j] != '/'
  {
    PatternMeaning(s);
    var k :| 0 < k < |s| - 1 && s[k] == '/' && Segment(s[..k]) && Segment(s[k + 1..]);
    var owner, name := s[..k], s[k + 1..];
    SlashOnlyAt(s, k);
    SegmentHasNoSlash(owner);
    SegmentHasNoSlash(name);
    assert s == owner + ['/'] + name;
    SplitAtFirst(owner, '/', name);
    assert Split(s, '/') == [owner] + [name];
  }

  /** In owner '/' name, the '/' between the two segments is the only one. */
  lemma SlashOnlyAt(s: string, k: int)
    requires 0 < k < |s| - 1 && Segment(s[..k]) && Segment(s[k + 1..])
    ensures forall i :: 0 <= i < |s| && i != k ==> s[i] != '/'
  {
    forall i | 0 <= i < |s| && i != k
      ensures s[i] != '/'
    {
      if i < k { assert s[i] == s[..k][i]; } else { assert s[i] == s[k + 1..][i - k - 1]; }
    }
  }

  lemma SegmentHasNoSlash(t: string)
    requires Segment(t)
    ensures '/' !in t
  {
    forall i | 0 <= i < |t|
      ensures t[i] != '/'
    {
      assert RepoChar(t[i]);
    }
  }

}
