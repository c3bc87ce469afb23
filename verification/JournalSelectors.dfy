/** The four selectors that pick one recovery candidate out of the directory of mutation journals. */
module JournalSelectors {
  import opened Wrappers

  datatype Phase =
    | Baseline | AbortedBeforeStart | StartIntent | Active | ContinueIntent | CancelIntent | CancelRequested
    | TerminalWitness | TerminalIdentity | TerminalFailure | Persisting | PersistenceReady
    | Reconciled | AdditionVerified | AdditionRolledBack | PostRebootVerified | OutcomeUnknown

  datatype Bindings = Bindings(
    version: int, bootUuid: string, callerUid: int, targetUid: int,
    appleUid: int, accountUuid: string, bagUuid: string, mappingGeneration: string)

  datatype History = History(
    operationId: string, phase: Phase, baseline: Bindings,
    terminalIdentity: Option<string>, unknownStage: Option<string>,
    reconciledSnapshot: Option<string>, postRebootBoot: Option<string>)

  /** An enrollment journal that does not validate has no history; another kind's says whether it blocks. */
  datatype Journal =
    | Unreadable
    | Empty
    | Enroll(history: Option<History>)
    | OtherKind(blocks: Option<bool>)

  /** `private`: owned, single-linked and closed to others. */
  datatype Entry = Entry(name: string, regular: bool, private: bool, journal: Journal)

  datatype Context = Context(
    linuxUid: int, appleUid: int, accountUuid: string, bagUuid: string,
    mappingGeneration: string, bootUuid: string, expectedOperation: string)

  datatype Refusal =
    | NotCanonical | JournalInvalid | NeedsReconciliation | Unfinished | NotACandidate | Ambiguous
    | AnotherJournal | BindingChanged

  const SUFFIX := ".jsonl"

  predicate EndsWithSuffix(name: string) {
    |name| >= |SUFFIX| && name[|name| - |SUFFIX|..] == SUFFIX
  }

  predicate HexDigit(c: char) {
    '0' <= c <= '9' || 'a' <= c <= 'f'
  }

  /** A lower-case UUID followed by the suffix. */
  predicate CanonicalName(name: string) {
    && |name| == 42 && name[36..] == SUFFIX
    && forall i :: 0 <= i < 36 ==> if i in {8, 13, 18, 23} then name[i] == '-' else HexDigit(name[i])
  }

  predicate Hexes(s: string, n: nat) {
    |s| == n && forall i :: 0 <= i < n ==> s[i] in "0123456789abcdef"
  }

  lemma HexDigits(c: char)
    ensures HexDigit(c) <==> c in "0123456789abcdef"
  {
    var digits := "0123456789abcdef";
    if '0' <= c <= '9' {
      assert digits[c as int - '0' as int] == c;
    } else if 'a' <= c <= 'f' {
      assert digits[10 + c as int - 'a' as int] == c;
    }
  }

  /** Exactly the names of the form 8-4-4-4-12 are canonical, and all of them carry the suffix. */
  lemma CanonicalNamesAre(name: string, a: string, b: string, c: string, d: string, e: string)
    requires name == a + "-" + b + "-" + c + "-" + d + "-" + e + ".jsonl"
    requires |a| == 8 && |b| == 4 && |c| == 4 && |d| == 4 && |e| == 12
    ensures CanonicalName(name) <==> Hexes(a, 8) && Hexes(b, 4) && Hexes(c, 4) && Hexes(d, 4) && Hexes(e, 12)
  {
    forall x ensures HexDigit(x) <==> x in "0123456789abcdef" { HexDigits(x); }
    assert name[36..] == ".jsonl";
    assert name[..8] == a && name[9..13] == b && name[14..18] == c && name[19..23] == d && name[24..36] == e;
    assert name[8] == name[13] == name[18] == name[23] == '-';
  }

  lemma CanonicalHasParts(name: string)
    requires CanonicalName(name)
    ensures name == name[..8] + "-" + name[9..13] + "-" + name[14..18] + "-" + name[19..23] + "-" + name[24..36]
                    + ".jsonl"
  {
  }

  lemma SuffixedNamesAre(stem: string)
    ensures EndsWithSuffix(stem + ".jsonl")
  {
    assert (stem + ".jsonl")[|stem|..] == ".jsonl";
  }

  predicate Validated(e: Entry) {
    e.journal.Enroll? && e.journal.history.Some?
  }

  /** _enrollment_history_is_complete */
  predicate Complete(h: History) {
    || h.phase.Baseline? || h.phase.AbortedBeforeStart? || h.phase.AdditionVerified? || h.phase.AdditionRolledBack?
    || h.phase.PostRebootVerified?
    || (h.phase.Reconciled? && h.terminalIdentity.None?)
  }

  // ---------------------------------------------------------------- the registry

  /** The phases after which the registry lets another mutation begin. */
  const NONBLOCKING: set<Phase> :=
    {Baseline, AbortedBeforeStart, AdditionVerified, AdditionRolledBack, PostRebootVerified}

  predicate RegistryComplete(h: History) {
    h.phase in NONBLOCKING || (h.phase == Reconciled && h.terminalIdentity == None)
  }

  /** The selectors' own notion of a complete enrollment is the registry's. */
  lemma CompleteMatchesRegistry(h: History)
    ensures Complete(h) <==> RegistryComplete(h)
  {
  }

  /** An enrollment that has begun and not settled blocks, in every other phase. */
  lemma UnsettledBlocks(h: History)
    requires h.phase in {StartIntent, Active, ContinueIntent, CancelIntent, CancelRequested, TerminalWitness,
                         TerminalIdentity, TerminalFailure, Persisting, PersistenceReady, OutcomeUnknown}
             || (h.phase == Reconciled && h.terminalIdentity.Some?)
    ensures !RegistryComplete(h) && !Complete(h)
  {
  }

  predicate Registered(e: Entry) {
    && CanonicalName(e.name) && e.regular && e.private
    && (Validated(e) || (e.journal.OtherKind? && e.journal.blocks.Some?))
  }

  /** Every safe entry whose journal validates is routed, whatever its kind. */
  lemma RegisteredByKind(e: Entry)
    requires CanonicalName(e.name) && e.regular && e.private
    ensures Registered(e) <==> match e.journal
                               case Enroll(history) => history.Some?
                               case OtherKind(blocks) => blocks.Some?
                               case _ => false
  {
  }

  predicate Blocks(e: Entry)
    requires Registered(e)
  {
    if e.journal.Enroll? then !RegistryComplete(e.journal.history.value) else e.journal.blocks.value
  }

  ghost predicate AllRegistered(dir: seq<Entry>) {
    forall e :: e in dir ==> Registered(e)
  }

  /** The shared scan: every journal is routed or the scan raises. */
  method Scan(dir: seq<Entry>) returns (ok: bool, blocks: bool)
    ensures ok <==> AllRegistered(dir)
    ensures ok ==> (blocks <==> exists e :: e in dir && Registered(e) && Blocks(e))
  {
    ok, blocks := true, false;
    var i := 0;
    while i < |dir|
      invariant i <= |dir| && AllRegistered(dir[..i])
      invariant blocks <==> exists e :: e in dir[..i] && Registered(e) && Blocks(e)
    {
      if !Registered(dir[i]) { return false, false; }
      assert dir[..i + 1] == dir[..i] + [dir[i]];
      blocks := blocks || Blocks(dir[i]);
      i := i + 1;
    }
    assert dir[..i] == dir;
  }

  // ------------------------------------------------------------- what each accepts

  predicate Bound(b: Bindings, c: Context) {
    && b.callerUid == c.linuxUid && b.targetUid == c.linuxUid && b.appleUid == c.appleUid
    && b.accountUuid == c.accountUuid && b.bagUuid == c.bagUuid && b.mappingGeneration == c.mappingGeneration
  }

  /** Bound leaves no binding but the version and the boot open. */
  lemma BoundFixesBindings(b: Bindings, c: Context)
    ensures Bound(b, c) <==>
              b == Bindings(b.version, b.bootUuid, c.linuxUid, c.linuxUid, c.appleUid, c.accountUuid, c.bagUuid,
                            c.mappingGeneration)
  {
  }

  ghost predicate Only(dir: seq<Entry>, e: Entry) {
    multiset(dir)[e] == 1
  }

  /** Post-reboot verification: the directory is this one reconciled, bound, version-2 enrollment. */
  ghost predicate AcceptsPostReboot(dir: seq<Entry>, c: Context, e: Entry) {
    && multiset(dir) == multiset{e} && e.regular && e.private && EndsWithSuffix(e.name) && Validated(e)
    && var h := e.journal.history.value;
       h.phase.Reconciled? && h.baseline.version == 2 && Bound(h.baseline, c)
  }

  /** What may lie beside the journal that is to become authority. */
  predicate HarmlessToPublication(e: Entry) {
    && Validated(e) && e.journal.history.value.baseline.version == 2
    && (e.journal.history.value.phase.Baseline? || e.journal.history.value.phase.AbortedBeforeStart?)
  }

  ghost predicate AcceptsPublication(dir: seq<Entry>, c: Context, e: Entry) {
    && Only(dir, e) && AllRegistered(dir) && Validated(e)
    && (forall x :: x in dir && x != e ==> HarmlessToPublication(x))
    && var h := e.journal.history.value;
       && h.phase.PostRebootVerified? && h.baseline.version == 2 && Bound(h.baseline, c)
       && h.operationId == c.expectedOperation && e.name == h.operationId + SUFFIX
       && h.reconciledSnapshot.Some? && h.postRebootBoot.Some? && h.terminalIdentity.Some?
  }

  ghost predicate OthersComplete(dir: seq<Entry>, e: Entry) {
    forall x :: x in dir && x != e ==> x.journal.OtherKind? || (Validated(x) && Complete(x.journal.history.value))
  }

  ghost predicate AcceptsOutcomeUnknown(dir: seq<Entry>, c: Context, e: Entry) {
    && Only(dir, e) && AllRegistered(dir) && Validated(e) && OthersComplete(dir, e)
    && var h := e.journal.history.value;
       h.phase.OutcomeUnknown? && h.baseline.version in {1, 2} && Bound(h.baseline, c)
  }

  ghost predicate AcceptsObserved(dir: seq<Entry>, c: Context, e: Entry) {
    && Only(dir, e) && AllRegistered(dir) && Validated(e) && OthersComplete(dir, e)
    && var h := e.journal.history.value;
       && h.phase.OutcomeUnknown? && h.unknownStage == Some("terminal")
       && h.baseline.version in {1, 2} && h.baseline.bootUuid == c.bootUuid && Bound(h.baseline, c)
  }

  // ---------------------------------------------------------- laws over directories

  lemma SingletonDirectory(dir: seq<Entry>, e: Entry)
    ensures multiset(dir) == multiset{e} <==> dir == [e]
  {
    if multiset(dir) == multiset{e} {
      assert |dir| == |multiset(dir)| == 1;
      assert dir[0] in multiset(dir);
    }
  }

  lemma OnlyIsMember(dir: seq<Entry>, e: Entry)
    requires Only(dir, e)
    ensures e in dir
  {
    assert e in multiset(dir);
  }

  lemma PostRebootStandsAlone(dir: seq<Entry>, c: Context, d: Context, x: Entry, e: Entry)
    requires AcceptsPostReboot(dir, c, x) && Only(dir, e)
    ensures e == x && !AcceptsPublication(dir, d, e) && !AcceptsOutcomeUnknown(dir, d, e)
  {
    SingletonDirectory(dir, x);
    OnlyIsMember(dir, e);
  }

  lemma PublicationFindsNoAmbiguity(dir: seq<Entry>, c: Context, d: Context, y: Entry, z: Entry)
    requires AcceptsPublication(dir, c, y) && Only(dir, z)
    ensures !AcceptsOutcomeUnknown(dir, d, z)
  {
    OnlyIsMember(dir, z);
    assert z == y || HarmlessToPublication(z);
  }

  /** On any directory at most one of the three recoveries accepts anything. */
  lemma RecoveriesExclude(dir: seq<Entry>, c: Context, d: Context, x: Entry, y: Entry, z: Entry)
    ensures !(AcceptsPostReboot(dir, c, x) && AcceptsPublication(dir, d, y))
    ensures !(AcceptsPostReboot(dir, c, x) && AcceptsOutcomeUnknown(dir, d, z))
    ensures !(AcceptsPublication(dir, c, y) && AcceptsOutcomeUnknown(dir, d, z))
  {
    if AcceptsPostReboot(dir, c, x) && Only(dir, y) { PostRebootStandsAlone(dir, c, d, x, y); }
    if AcceptsPostReboot(dir, c, x) && Only(dir, z) { PostRebootStandsAlone(dir, c, d, x, z); }
    if AcceptsPublication(dir, c, y) && Only(dir, z) { PublicationFindsNoAmbiguity(dir, c, d, y, z); }
  }

  /** The observed-identity recovery is the outcome-unknown one narrowed to this boot's terminal stage. */
  lemma ObservedNarrowsUnknown(dir: seq<Entry>, c: Context, e: Entry)
    ensures AcceptsObserved(dir, c, e) <==>
              AcceptsOutcomeUnknown(dir, c, e)
              && e.journal.history.value.unknownStage == Some("terminal")
              && e.journal.history.value.baseline.bootUuid == c.bootUuid
  {
  }

  /** Each selector accepts at most one journal. */
  lemma AcceptanceIsUnique(dir: seq<Entry>, c: Context, x: Entry, y: Entry)
    ensures AcceptsPostReboot(dir, c, x) && AcceptsPostReboot(dir, c, y) ==> x == y
    ensures AcceptsPublication(dir, c, x) && AcceptsPublication(dir, c, y) ==> x == y
    ensures AcceptsOutcomeUnknown(dir, c, x) && AcceptsOutcomeUnknown(dir, c, y) ==> x == y
  {
    assert x in multiset(dir) <==> x in dir;
    assert y in multiset(dir) <==> y in dir;
    if AcceptsPostReboot(dir, c, x) && AcceptsPostReboot(dir, c, y) {
      assert y in multiset{y};
    }
  }

  lemma SameEntries(dir: seq<Entry>, other: seq<Entry>)
    requires multiset(dir) == multiset(other)
    ensures forall e :: e in dir <==> e in other
  {
    assert forall e :: e in dir <==> e in multiset(dir);
    assert forall e :: e in other <==> e in multiset(other);
  }

  /** The order in which the directory is listed does not matter. */
  lemma ScanOrderIrrelevant(dir: seq<Entry>, other: seq<Entry>, c: Context, e: Entry)
    requires multiset(dir) == multiset(other)
    ensures AcceptsPostReboot(dir, c, e) <==> AcceptsPostReboot(other, c, e)
    ensures AcceptsPublication(dir, c, e) <==> AcceptsPublication(other, c, e)
    ensures AcceptsOutcomeUnknown(dir, c, e) <==> AcceptsOutcomeUnknown(other, c, e)
    ensures AcceptsObserved(dir, c, e) <==> AcceptsObserved(other, c, e)
  {
    SameEntries(dir, other);
  }

  // ------------------------------------------------------------- collected candidates

  function Candidates(dir: seq<Entry>, chosen: Entry -> bool): seq<Entry> {
    if dir == [] then []
    else
      var n := |dir| - 1;
      var rest := Candidates(dir[..n], chosen);
      if chosen(dir[n]) then rest + [dir[n]] else rest
  }

  lemma CandidatesNext(dir: seq<Entry>, i: nat, chosen: Entry -> bool)
    requires i < |dir|
    ensures Candidates(dir[..i + 1], chosen)
            == if chosen(dir[i]) then Candidates(dir[..i], chosen) + [dir[i]] else Candidates(dir[..i], chosen)
  {
    assert dir[..i + 1][..i] == dir[..i];
  }

  lemma {:induction false} CandidatesCount(dir: seq<Entry>, chosen: Entry -> bool, e: Entry)
    ensures multiset(Candidates(dir, chosen))[e] == if chosen(e) then multiset(dir)[e] else 0
  {
    if dir != [] {
      var n := |dir| - 1;
      assert dir == dir[..n] + [dir[n]];
      CandidatesCount(dir[..n], chosen, e);
    }
  }

  /** One candidate was collected exactly when one entry is chosen, once. */
  lemma OneCandidate(dir: seq<Entry>, chosen: Entry -> bool, e: Entry)
    ensures Candidates(dir, chosen) == [e] <==>
              chosen(e) && Only(dir, e) && forall x :: x in dir && chosen(x) ==> x == e
  {
    var r := Candidates(dir, chosen);
    CandidatesCount(dir, chosen, e);
    forall x ensures x in r <==> x in dir && chosen(x) {
      CandidatesCount(dir, chosen, x);
      assert x in r <==> x in multiset(r);
      assert x in dir <==> x in multiset(dir);
    }
    if r == [e] {
      assert e in r && multiset(r)[e] == 1;
      forall x | x in dir && chosen(x) ensures x == e {
        assert x in r;
      }
    }
    if chosen(e) && Only(dir, e) && forall x :: x in dir && chosen(x) ==> x == e {
      forall i | 0 <= i < |r| ensures r[i] == e {
        assert r[i] in r;
      }
      AllSame(r, e);
    }
  }

  lemma {:induction false} AllSame(r: seq<Entry>, e: Entry)
    requires forall i :: 0 <= i < |r| ==> r[i] == e
    ensures |r| == multiset(r)[e]
  {
    if r != [] {
      var n := |r| - 1;
      assert r == r[..n] + [r[n]];
      AllSame(r[..n], e);
    }
  }

  // --------------------------------------------------------------------- the loops

  predicate HasPhase(e: Entry, phase: Phase) {
    Validated(e) && e.journal.history.value.phase == phase
  }

  predicate CandidateUnknown(e: Entry) {
    HasPhase(e, OutcomeUnknown)
  }

  predicate CandidateTerminal(e: Entry) {
    HasPhase(e, OutcomeUnknown) && e.journal.history.value.unknownStage == Some("terminal")
  }

  predicate Plain(e: Entry) {
    e.regular && EndsWithSuffix(e.name)
  }

  /** A file that the journal reader accepts, holding a reconciled enrollment. */
  predicate Awaiting(e: Entry) {
    Plain(e) && e.private && HasPhase(e, Reconciled)
  }

  lemma CanonicalEnds(e: Entry)
    requires CanonicalName(e.name)
    ensures EndsWithSuffix(e.name)
  {
  }

  /** Post-reboot verification: anything but a reconciled enrollment stops the loop. */
  method PendingPostReboot(dir: seq<Entry>, c: Context) returns (r: Result<Entry, Refusal>)
    ensures r.Ok? ==> AcceptsPostReboot(dir, c, r.value)
    ensures forall e :: AcceptsPostReboot(dir, c, e) ==> r == Ok(e)
    ensures r == Err(NotCanonical) ==> exists e :: e in dir && !Plain(e)
    ensures r == Err(JournalInvalid) ==> exists e :: e in dir && Plain(e) && !(e.private && Validated(e))
    ensures r == Err(NeedsReconciliation) ==> exists e :: e in dir && Validated(e) && !HasPhase(e, Reconciled)
    ensures r == Err(Ambiguous) ==> |dir| != 1
  {
    var candidates: seq<Entry> := [];
    var i := 0;
    while i < |dir|
      invariant i <= |dir| && candidates == dir[..i]
      invariant forall j :: 0 <= j < i ==> Awaiting(dir[j])
    {
      var e := dir[i];
      if !Awaiting(e) {
        NoPostReboot(dir, c, i);
        return Err(if !Plain(e) then NotCanonical
                   else if !e.private || !Validated(e) then JournalInvalid
                   else NeedsReconciliation);
      }
      candidates := candidates + [e];
      i := i + 1;
    }
    forall e { SingletonDirectory(dir, e); }
    if |candidates| != 1 { return Err(Ambiguous); }
    var e := candidates[0];
    assert dir == [e];
    var b := e.journal.history.value.baseline;
    r := if b.version == 2 && Bound(b, c) then Ok(e) else Err(BindingChanged);
  }

  lemma NoPostReboot(dir: seq<Entry>, c: Context, i: nat)
    requires i < |dir| && !Awaiting(dir[i])
    ensures forall e :: !AcceptsPostReboot(dir, c, e)
  {
    forall e ensures !AcceptsPostReboot(dir, c, e) {
      assert dir[i] in multiset(dir);
    }
  }

  /**
   * The two ambiguity selectors share their loop: candidates are collected, complete enrollments
   * and other kinds are passed over, and any other enrollment refuses.
   */
  method CollectUnknown(dir: seq<Entry>, chosen: Entry -> bool) returns (r: Result<seq<Entry>, Refusal>)
    requires forall e :: chosen(e) ==> CandidateUnknown(e)
    ensures r.Ok? <==> AllRegistered(dir) && forall e :: e in dir ==> Passes(e, chosen)
    ensures r.Ok? ==> r.value == Candidates(dir, chosen)
  {
    var ok, _ := Scan(dir);
    if !ok { return Err(JournalInvalid); }
    var candidates := [];
    var i := 0;
    while i < |dir|
      invariant i <= |dir| && candidates == Candidates(dir[..i], chosen)
      invariant forall j :: 0 <= j < i ==> Passes(dir[j], chosen)
    {
      var e := dir[i];
      assert Registered(e);
      // The loop's own test of file kind and suffix cannot fail after the scan.
      CanonicalEnds(e);
      assert Plain(e);
      CandidatesNext(dir, i, chosen);
      if e.journal.Enroll? {
        if chosen(e) {
          candidates := candidates + [e];
        } else if !Complete(e.journal.history.value) {
          assert !Passes(e, chosen) && e in dir;
          return Err(NotACandidate);
        }
      }
      i := i + 1;
    }
    assert dir[..i] == dir;
    r := Ok(candidates);
  }

  ghost predicate Passes(e: Entry, chosen: Entry -> bool) {
    chosen(e) || e.journal.OtherKind? || (Validated(e) && Complete(e.journal.history.value))
  }

  lemma UnknownCandidates(dir: seq<Entry>, e: Entry)
    ensures AllRegistered(dir) && (forall x :: x in dir ==> Passes(x, CandidateUnknown))
              && Candidates(dir, CandidateUnknown) == [e]
            <==> AllRegistered(dir) && Only(dir, e) && CandidateUnknown(e) && OthersComplete(dir, e)
  {
    OneCandidate(dir, CandidateUnknown, e);
  }

  lemma TerminalCandidates(dir: seq<Entry>, e: Entry)
    ensures AllRegistered(dir) && (forall x :: x in dir ==> Passes(x, CandidateTerminal))
              && Candidates(dir, CandidateTerminal) == [e]
            <==> AllRegistered(dir) && Only(dir, e) && CandidateTerminal(e) && OthersComplete(dir, e)
  {
    OneCandidate(dir, CandidateTerminal, e);
  }

  method PendingOutcomeUnknown(dir: seq<Entry>, c: Context) returns (r: Result<Entry, Refusal>)
    ensures r.Ok? ==> AcceptsOutcomeUnknown(dir, c, r.value)
    ensures forall e :: AcceptsOutcomeUnknown(dir, c, e) ==> r == Ok(e)
  {
    forall e { UnknownCandidates(dir, e); }
    var candidates :- CollectUnknown(dir, CandidateUnknown);
    if |candidates| != 1 { return Err(Ambiguous); }
    assert candidates == [candidates[0]];
    var b := candidates[0].journal.history.value.baseline;
    r := if b.version in {1, 2} && Bound(b, c) then Ok(candidates[0]) else Err(BindingChanged);
  }

  method PendingObserved(dir: seq<Entry>, c: Context) returns (r: Result<Entry, Refusal>)
    ensures r.Ok? ==> AcceptsObserved(dir, c, r.value)
    ensures forall e :: AcceptsObserved(dir, c, e) ==> r == Ok(e)
  {
    forall e { TerminalCandidates(dir, e); }
    var candidates :- CollectUnknown(dir, CandidateTerminal);
    if |candidates| != 1 { return Err(Ambiguous); }
    assert candidates == [candidates[0]];
    var b := candidates[0].journal.history.value.baseline;
    var bound := b.version in {1, 2} && b.bootUuid == c.bootUuid && Bound(b, c);
    r := if bound then Ok(candidates[0]) else Err(BindingChanged);
  }

  predicate Verified(e: Entry) {
    HasPhase(e, PostRebootVerified)
  }

  /** Beside the journal that is to become authority, this one means that things went on. */
  predicate Later(e: Entry) {
    !Verified(e) && !HarmlessToPublication(e)
  }

  /** Authority publication: any other kind, or an enrollment that went further, counts as a later mutation. */
  method CollectVerified(dir: seq<Entry>) returns (candidates: seq<Entry>, later: bool)
    requires AllRegistered(dir)
    ensures candidates == Candidates(dir, Verified)
    ensures later <==> exists j :: 0 <= j < |dir| && Later(dir[j])
  {
    candidates, later := [], false;
    var i := 0;
    while i < |dir|
      invariant i <= |dir| && candidates == Candidates(dir[..i], Verified)
      invariant later <==> exists j :: 0 <= j < i && Later(dir[j])
    {
      var e := dir[i];
      assert Registered(e);
      CandidatesNext(dir, i, Verified);
      i := i + 1;
      if !e.journal.Enroll? {
        later := true;
        continue;
      }
      var h := e.journal.history.value;
      if h.phase.PostRebootVerified? {
        candidates := candidates + [e];
      } else if h.baseline.version != 2 || !(h.phase.Baseline? || h.phase.AbortedBeforeStart?) {
        later := true;
      }
    }
    assert dir[..i] == dir;
  }

  method PendingPublication(dir: seq<Entry>, c: Context) returns (r: Result<Entry, Refusal>)
    ensures r.Ok? ==> AcceptsPublication(dir, c, r.value)
    ensures forall e :: AcceptsPublication(dir, c, e) ==> r == Ok(e)
  {
    var ok, blocks := Scan(dir);
    if !ok { return Err(JournalInvalid); }
    if blocks {
      forall e ensures !AcceptsPublication(dir, c, e) { PublicationUnblocked(dir, c, e); }
      return Err(Unfinished);
    }
    var candidates, later := CollectVerified(dir);
    forall e { OneCandidate(dir, Verified, e); }
    forall e ensures AcceptsPublication(dir, c, e) ==> !later && candidates == [e] {
      if AcceptsPublication(dir, c, e) { PublicationCandidates(dir, c, e); }
    }
    if later || |candidates| != 1 { return Err(Ambiguous); }
    var e := candidates[0];
    assert candidates == [e] && Verified(e);
    var h := e.journal.history.value;
    if h.operationId != c.expectedOperation || e.name != h.operationId + SUFFIX || h.baseline.version != 2 {
      return Err(AnotherJournal);
    }
    if h.reconciledSnapshot.None? || h.postRebootBoot.None? || h.terminalIdentity.None? || !Bound(h.baseline, c) {
      return Err(BindingChanged);
    }
    r := Ok(e);
  }

  lemma PublicationUnblocked(dir: seq<Entry>, c: Context, e: Entry)
    ensures AcceptsPublication(dir, c, e) ==> forall x :: x in dir ==> Registered(x) && !Blocks(x)
  {
  }

  lemma PublicationCandidates(dir: seq<Entry>, c: Context, e: Entry)
    requires AcceptsPublication(dir, c, e)
    ensures Candidates(dir, Verified) == [e]
    ensures forall x :: x in dir ==> !Later(x)
  {
    OneCandidate(dir, Verified, e);
  }
}
