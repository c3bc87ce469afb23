/**
 * First-run setup: a restartable dispatcher of one-shot owners. Each invocation reads the durable
 * files, runs the owners they call for, and may stop anywhere.
 */
module FirstRun {
  import opened Wrappers

  datatype File<T> = Absent | Broken | Holds(value: T)

  datatype Schema = Legacy | Current

  datatype Mapping = Mapping(schema: Schema, users: seq<int>)

  /** The phases first-run tells apart; `Early` is any before the mapping is committed. */
  datatype ProvisioningPhase = Early | MappingCommitted | RebootVerified | MappingEnabled | OutcomeUnknown

  datatype ReplacementPhase = Underway | BundleMapped | Replaced

  datatype ActivationPhase = Attempting | Activated

  datatype World = World(
    mapping: File<Mapping>,
    provisioning: File<ProvisioningPhase>,
    replacement: File<ReplacementPhase>,
    activation: File<ActivationPhase>)

  datatype Action = Create | Verify | ReplaceStart | ReplaceResume | ActivateStart | ActivateResume

  /** An owner's exit: what it left behind, and whether its document claims what first-run requires. */
  datatype Outcome = Outcome(after: World, accepted: bool)

  datatype Dispatch = Dispatch(action: Action, before: World, after: World, accepted: bool)

  datatype Mode = ControlOracle | LinuxNative | OtherMode

  /** What the invocation finds around it: its mode, its privilege, the credential and the native validators. */
  datatype Setting = Setting(mode: Mode, root: bool, credential: bool, blankEnrollment: bool, authorityValid: bool)

  datatype Ready = CompatibilityAuthority | MappingReady

  datatype Failure =
    | ModeInvalid | NotRoot | CredentialUnavailable | OwnerStopped | StateIncomplete | HistoryInvalid
    | NeedsReconciliation | MappingInvalid | NotSingleUser | NotBlank | ActivationTooEarly | BundleDisagrees
    | SchemaUnsupported | BundleIncomplete | AuthorityChanged | AuthorityInvalid

  /** One run's owners, numbered by call. */
  type Owners = (nat, Action, World) -> Outcome

  // ------------------------------------------------------------------ one-shot owners

  /** The condition on the durable files under which first-run dispatches each owner. */
  predicate Guarded(d: Dispatch) {
    match d.action
    case Create => d.before.mapping.Absent? && d.before.provisioning.Absent?
    case Verify => d.before.provisioning == Holds(MappingCommitted) || d.before.provisioning == Holds(RebootVerified)
    case ReplaceStart =>
      && d.before.replacement.Absent? && d.before.activation.Absent?
      && SingleUser(d.before.mapping, Legacy) && d.before.provisioning == Holds(MappingEnabled)
    case ReplaceResume =>
      && d.before.replacement.Holds? && !d.before.replacement.value.Replaced?
      && ((SingleUser(d.before.mapping, Legacy) && d.before.activation.Absent?)
          || (MappingIs(d.before.mapping, Current) && d.before.replacement.value.BundleMapped?))
    case ActivateStart =>
      d.before.activation.Absent? && MappingIs(d.before.mapping, Current) && d.before.replacement == Holds(Replaced)
    case ActivateResume =>
      && d.before.activation.Holds? && d.before.activation.value.Attempting?
      && MappingIs(d.before.mapping, Current) && d.before.replacement == Holds(Replaced)
  }

  predicate MappingIs(f: File<Mapping>, schema: Schema) {
    f.Holds? && f.value.schema == schema
  }

  predicate OneShot(a: Action) {
    a.Create? || a.ReplaceStart? || a.ActivateStart?
  }

  /** Whether the journal that a one-shot owner opens is there. */
  predicate Journaled(a: Action, w: World)
    requires OneShot(a)
  {
    match a
    case Create => !w.provisioning.Absent?
    case ReplaceStart => !w.replacement.Absent?
    case ActivateStart => !w.activation.Absent?
  }

  /** Journals are append-only files: none disappears. */
  predicate Persists(w: World, v: World) {
    forall a | OneShot(a) :: Journaled(a, w) ==> Journaled(a, v)
  }

  /** The dispatches follow one another from w to v. */
  ghost predicate Chained(w: World, log: seq<Dispatch>, v: World) {
    if log == [] then w == v
    else log[|log| - 1].after == v && Chained(w, log[..|log| - 1], log[|log| - 1].before)
  }

  /** Dispatch i+1 starts where dispatch i ended, give or take changes that keep the journals. */
  predicate Follows(log: seq<Dispatch>, i: nat)
    requires i + 1 < |log|
  {
    Persists(log[i].after, log[i + 1].before)
  }

  /**
   * Any number of invocations, crashed or not, end to end: during and between dispatches anything
   * may happen to the files, except that journals stay.
   */
  ghost predicate Trace(log: seq<Dispatch>) {
    && (forall i :: 0 <= i < |log| ==> Guarded(log[i]) && Persists(log[i].before, log[i].after))
    && forall i: nat :: i + 1 < |log| ==> Follows(log, i)
  }

  /** An owner journals first: without its journal it has done nothing. */
  predicate JournalsFirst(d: Dispatch) {
    OneShot(d.action) && !Journaled(d.action, d.after) ==> d.after == d.before
  }

  lemma {:induction false} JournalStays(log: seq<Dispatch>, i: nat, j: nat)
    requires Trace(log) && i < j < |log|
    ensures Persists(log[i].after, log[j].before)
  {
    assert Follows(log, j - 1);
    if i < j - 1 {
      JournalStays(log, i, j - 1);
      assert Persists(log[j - 1].before, log[j - 1].after);
    }
  }

  /** Create, replacement start and activation start each take effect at most once, over all invocations. */
  lemma OneShotsHappenOnce(log: seq<Dispatch>, i: nat, j: nat)
    requires Trace(log) && i < j < |log|
    requires OneShot(log[i].action) && log[i].action == log[j].action && JournalsFirst(log[i])
    ensures log[i].after == log[i].before && !Journaled(log[i].action, log[i].after)
  {
    JournalStays(log, i, j);
    assert Guarded(log[j]);
  }

  lemma {:induction false} ChainedEnds(w: World, log: seq<Dispatch>, v: World)
    requires Chained(w, log, v) && log != []
    ensures log[0].before == w && log[|log| - 1].after == v
    ensures forall i: nat :: i + 1 < |log| ==> log[i].after == log[i + 1].before
  {
    var n := |log| - 1;
    if n > 0 {
      ChainedEnds(w, log[..n], log[n].before);
      forall i: nat | i + 1 < |log| ensures log[i].after == log[i + 1].before {
        if i + 1 < n {
          assert log[..n][i].after == log[..n][i + 1].before;
        }
      }
    }
  }

  /** One more invocation, from files that kept the journals, extends the trace. */
  lemma InvocationExtendsTrace(trace: seq<Dispatch>, w: World, log: seq<Dispatch>, v: World)
    requires Trace(trace) && Chained(w, log, v)
    requires forall i :: 0 <= i < |log| ==> Guarded(log[i]) && Persists(log[i].before, log[i].after)
    requires trace != [] ==> Persists(trace[|trace| - 1].after, w)
    ensures Trace(trace + log)
  {
    var all, n := trace + log, |trace|;
    if log != [] {
      ChainedEnds(w, log, v);
    }
    forall i: nat | i + 1 < |all| ensures Follows(all, i) {
      if i + 1 < n {
        assert Follows(trace, i);
      } else if i >= n {
        assert log[i - n].after == log[i - n + 1].before;
      }
    }
  }

  // -------------------------------------------------------------------- progress

  function ProvisioningRank(f: File<ProvisioningPhase>): nat {
    match f
    case Absent => 0
    case Broken => 0
    case Holds(Early) => 1
    case Holds(OutcomeUnknown) => 1
    case Holds(MappingCommitted) => 2
    case Holds(RebootVerified) => 3
    case Holds(MappingEnabled) => 4
  }

  function ReplacementRank(f: File<ReplacementPhase>): nat {
    match f
    case Absent => 0
    case Broken => 0
    case Holds(Underway) => 1
    case Holds(BundleMapped) => 2
    case Holds(Replaced) => 3
  }

  function ActivationRank(f: File<ActivationPhase>): nat {
    match f
    case Absent => 0
    case Broken => 0
    case Holds(Attempting) => 1
    case Holds(Activated) => 2
  }

  /** How far the durable phases have come. */
  function Rank(w: World): nat {
    ProvisioningRank(w.provisioning) + ReplacementRank(w.replacement) + ActivationRank(w.activation)
  }

  predicate SingleUser(f: File<Mapping>, schema: Schema) {
    MappingIs(f, schema) && |f.value.users| == 1
  }

  /** What an owner that succeeds has done, and left alone. */
  predicate Achieves(d: Dispatch) {
    var w, v := d.before, d.after;
    d.accepted
    && match d.action
       case Create =>
         SingleUser(v.mapping, Legacy) && v == w.(mapping := v.mapping, provisioning := Holds(MappingCommitted))
       case Verify => v == w.(provisioning := Holds(MappingEnabled))
       case ReplaceStart | ReplaceResume =>
         (w.mapping.Holds? ==> v.mapping == Holds(Mapping(Current, w.mapping.value.users)))
         && v == w.(mapping := v.mapping, replacement := Holds(Replaced))
       case ActivateStart | ActivateResume => v == w.(activation := Holds(Activated))
  }

  predicate AllAchieve(log: seq<Dispatch>) {
    forall i :: 0 <= i < |log| ==> Achieves(log[i])
  }

  predicate Provisioned(w: World) {
    w.provisioning in {Holds(MappingCommitted), Holds(RebootVerified), Holds(MappingEnabled)}
  }

  /** The files from which one invocation whose owners succeed ends ready. */
  predicate Recoverable(w: World) {
    || (w.mapping.Absent? && w.provisioning.Absent? && BundleOpen(w))
    || (SingleUser(w.mapping, Legacy) && Provisioned(w) && BundleOpen(w))
    || (SingleUser(w.mapping, Current) && Provisioned(w) && w.replacement == Holds(Replaced) && !w.activation.Broken?)
  }

  /** The new mapping is published and the bundle is one step short of complete. */
  predicate HalfCommitted(w: World) {
    SingleUser(w.mapping, Current) && Provisioned(w) && w.replacement == Holds(BundleMapped) && w.activation.Absent?
  }

  lemma AchievedAdvances(d: Dispatch)
    requires Guarded(d) && Achieves(d)
    ensures Rank(d.after) > Rank(d.before)
  {
  }

  /** Files left by completed owners, the half-committed bundle included. */
  predicate LeftByOwners(w: World) {
    Recoverable(w) || HalfCommitted(w)
  }

  /** From no files at all, every owner that first-run dispatches and that completes leaves such files. */
  lemma OwnersLeaveRecoverable(d: Dispatch)
    requires LeftByOwners(d.before) && Guarded(d) && Achieves(d)
    ensures LeftByOwners(World(Absent, Absent, Absent, Absent)) && LeftByOwners(d.after)
    ensures !d.action.Verify? ==> Recoverable(d.after)
  {
  }

  // ---------------------------------------------------------------- one invocation

  /** What an owner needs of the setting before it is dispatched. */
  predicate Permitted(d: Dispatch, s: Setting) {
    && s.mode.LinuxNative? && s.root
    && (d.action.Create? || d.action.ReplaceStart? ==> s.credential)
    && ((d.action.ReplaceStart? || d.action.ReplaceResume?) && MappingIs(d.before.mapping, Legacy) ==>
          s.blankEnrollment)
  }

  /** What every point of an invocation that began in w0 keeps. */
  ghost predicate Track(w0: World, log: seq<Dispatch>, w: World) {
    && Chained(w0, log, w)
    && (forall i :: 0 <= i < |log| ==> Guarded(log[i]))
    && (AllAchieve(log) ==> Rank(w) >= Rank(w0) + |log|)
  }

  lemma TrackStep(w0: World, log: seq<Dispatch>, d: Dispatch)
    requires Track(w0, log, d.before) && Guarded(d)
    ensures Track(w0, log + [d], d.after)
    ensures AllAchieve(log + [d]) <==> AllAchieve(log) && Achieves(d)
  {
    var longer := log + [d];
    assert longer[..|log|] == log && longer[|log|] == d;
    assert AllAchieve(longer) <==> AllAchieve(log) && Achieves(d) by {
      if AllAchieve(longer) {
        assert Achieves(longer[|log|]);
        forall i | 0 <= i < |log| ensures Achieves(log[i]) { assert Achieves(longer[i]); }
      }
    }
    if Achieves(d) {
      AchievedAdvances(d);
    }
  }

  class Invocation {
    const owners: Owners
    const setting: Setting
    var world: World
    var calls: nat
    ghost const start: World
    ghost var log: seq<Dispatch>

    ghost predicate Valid()
      reads this
    {
      Track(start, log, world) && calls == |log| && forall i :: 0 <= i < |log| ==> Permitted(log[i], setting)
    }

    constructor (owners: Owners, setting: Setting, world: World)
      ensures this.owners == owners && this.setting == setting && this.world == world && start == world
      ensures log == [] && Valid()
    {
      this.owners, this.setting, this.world, calls := owners, setting, world, 0;
      start, log := world, [];
    }

    /** Run one owner to its exit. */
    method Send(a: Action) returns (accepted: bool)
      requires Valid()
      requires Guarded(Dispatch(a, world, world, false)) && Permitted(Dispatch(a, world, world, false), setting)
      modifies this`world, this`calls, this`log
      ensures Valid() && log == old(log) + [Dispatch(a, old(world), world, accepted)]
      ensures AllAchieve(log) <==> AllAchieve(old(log)) && Achieves(Dispatch(a, old(world), world, accepted))
      ensures Outcome(world, accepted) == owners(old(calls), a, old(world)) && calls == old(calls) + 1
    {
      var o := owners(calls, a, world);
      ghost var d := Dispatch(a, world, o.after, o.accepted);
      TrackStep(start, log, d);
      log := log + [d];
      calls := calls + 1;
      world := o.after;
      accepted := o.accepted;
    }

    /** Create an identity where nothing exists, then have the committed mapping verified. */
    method ProvisionStage() returns (failed: Option<Failure>)
      requires setting.mode.LinuxNative? && setting.root
      requires Valid()
      modifies this`world, this`calls, this`log
      ensures Valid() && old(log) <= log && (failed.None? ==> world.provisioning == Holds(MappingEnabled))
      ensures AllAchieve(log) ==> AllAchieve(old(log)) && ProvisionedFrom(old(world), world)
      ensures AllAchieve(log) && setting.credential ==> (failed.None? <==> CanProvision(old(world)))
    {
      failed := CreateStage();
      if failed.Some? { return; }
      if !world.provisioning.Holds? { return Some(HistoryInvalid); }
      if world.provisioning.value in {MappingCommitted, RebootVerified} {
        var accepted := Send(Verify);
        if !accepted { return Some(OwnerStopped); }
        if !world.provisioning.Holds? { return Some(HistoryInvalid); }
      }
      if world.provisioning.value != MappingEnabled { return Some(NeedsReconciliation); }
    }

    method CreateStage() returns (failed: Option<Failure>)
      requires setting.mode.LinuxNative? && setting.root
      requires Valid()
      modifies this`world, this`calls, this`log
      ensures Valid() && old(log) <= log
      ensures AllAchieve(log) ==> AllAchieve(old(log)) && ProvisionedFrom(old(world), world)
      ensures AllAchieve(log) ==>
                (if old(world).mapping.Absent? && old(world).provisioning.Absent? then
                   setting.credential ==> failed.None? && world.provisioning == Holds(MappingCommitted)
                 else
                   world == old(world)
                   && (failed.None? <==> !old(world).mapping.Absent? && !old(world).provisioning.Absent?))
    {
      failed := None;
      if world.mapping.Absent? && world.provisioning.Absent? {
        if !setting.credential { return Some(CredentialUnavailable); }
        var accepted := Send(Create);
        if !accepted { return Some(OwnerStopped); }
      } else if world.mapping.Absent? || world.provisioning.Absent? {
        return Some(StateIncomplete);
      }
    }

    /** A legacy mapping is first replaced: a bundle in progress is resumed, an absent one started. */
    method ReplaceStage() returns (failed: Option<Failure>)
      requires setting.mode.LinuxNative? && setting.root
      requires Valid() && world.mapping.Holds? && |world.mapping.value.users| == 1
      requires world.provisioning == Holds(MappingEnabled)
      modifies this`world, this`calls, this`log
      ensures Valid() && old(log) <= log && (failed.None? ==> MappingIs(world.mapping, Current))
      ensures old(world).mapping.value.schema.Current? ==> world == old(world) && failed.None? && log == old(log)
      ensures AllAchieve(log) ==> AllAchieve(old(log)) && MappedFrom(old(world), world)
      ensures MappingIs(old(world).mapping, Legacy) && AllAchieve(log) && CanReplace(setting) ==>
                (failed.None? <==> BundleOpen(old(world))) && (failed.None? ==> world.replacement == Holds(Replaced))
    {
      failed := None;
      if world.mapping.value.schema.Legacy? {
        if !setting.blankEnrollment { return Some(NotBlank); }
        if !world.activation.Absent? { return Some(ActivationTooEarly); }
        var accepted;
        if world.replacement.Absent? {
          if !setting.credential { return Some(CredentialUnavailable); }
          accepted := Send(ReplaceStart);
        } else {
          if world.replacement.Broken? { return Some(HistoryInvalid); }
          if world.replacement.value.Replaced? { return Some(BundleDisagrees); }
          accepted := Send(ReplaceResume);
        }
        if !accepted { return Some(OwnerStopped); }
        if !world.mapping.Holds? { return Some(MappingInvalid); }
        if !world.mapping.value.schema.Current? { return Some(SchemaUnsupported); }
      }
    }

    /** The bundle must be complete; one short of it is resumed, but its phase is not read again. */
    method BundleStage() returns (failed: Option<Failure>)
      requires setting.mode.LinuxNative? && setting.root
      requires Valid() && MappingIs(world.mapping, Current)
      modifies this`world, this`calls, this`log
      ensures Valid() && old(log) <= log
      ensures failed.None? <==> old(world).replacement == Holds(Replaced)
      ensures failed.None? ==> world == old(world) && log == old(log)
      ensures failed == Some(OwnerStopped) <==>
                old(world).replacement == Holds(BundleMapped) && log != [] && !log[|log| - 1].accepted
      ensures AllAchieve(log) ==> AllAchieve(old(log)) && MappedFrom(old(world), world)
      ensures AllAchieve(log) && old(world).replacement == Holds(BundleMapped) ==>
                world.replacement == Holds(Replaced) && |log| > |old(log)|
    {
      failed := None;
      if !world.replacement.Holds? { return Some(HistoryInvalid); }
      var phase := world.replacement.value;
      if phase.BundleMapped? {
        var accepted := Send(ReplaceResume);
        if !accepted { return Some(OwnerStopped); }
      }
      if !phase.Replaced? { return Some(BundleIncomplete); }
    }

    method ActivateStage() returns (failed: Option<Failure>)
      requires setting.mode.LinuxNative? && setting.root
      requires Valid() && MappingIs(world.mapping, Current) && world.replacement == Holds(Replaced)
      modifies this`world, this`calls, this`log
      ensures Valid() && old(log) <= log
      ensures AllAchieve(log) ==> AllAchieve(old(log)) && world == old(world).(activation := world.activation)
      ensures AllAchieve(log) ==> (failed.None? <==> !old(world).activation.Broken?)
      ensures failed.None? ==> world.activation == Holds(Activated) || (log != [] && log[|log| - 1].accepted)
      ensures failed.None? && log == old(log) ==> world == old(world)
    {
      failed := None;
      if world.activation.Broken? { return Some(HistoryInvalid); }
      if world.activation.Absent? || world.activation.value.Attempting? {
        var accepted := Send(if world.activation.Absent? then ActivateStart else ActivateResume);
        if !accepted { return Some(OwnerStopped); }
      }
    }

    /** Everything after the provisioning history says the mapping is enabled. */
    method AuthorityStage() returns (failed: Option<Failure>)
      requires setting.mode.LinuxNative? && setting.root
      requires Valid() && world.provisioning == Holds(MappingEnabled)
      modifies this`world, this`calls, this`log
      ensures Valid() && old(log) <= log && (AllAchieve(log) ==> AllAchieve(old(log)))
      ensures failed.None? ==> setting.authorityValid && old(world).mapping.Holds? && SingleUser(world.mapping, Current)
                               && world.mapping.value.users == old(world).mapping.value.users
      ensures AllAchieve(log) && Able(setting) ==> (failed.None? <==> CanActivate(old(world)))
      ensures AllAchieve(log) && SingleUser(old(world).mapping, Current)
              && old(world).replacement == Holds(BundleMapped) ==>
                |log| > |old(log)| && world == old(world).(replacement := Holds(Replaced))
    {
      if !world.mapping.Holds? { return Some(MappingInvalid); }
      if |world.mapping.value.users| != 1 { return Some(NotSingleUser); }
      var trusted := world.mapping.value.users[0];
      failed := ReplaceStage();
      if failed.Some? { return; }
      failed := BundleStage();
      if failed.Some? { return; }
      failed := ActivateStage();
      if failed.Some? { return; }
      if !world.mapping.Holds? { return Some(MappingInvalid); }
      var m := world.mapping.value;
      if !m.schema.Current? || |m.users| != 1 || m.users[0] != trusted { return Some(AuthorityChanged); }
      if !setting.authorityValid { return Some(AuthorityInvalid); }
    }

    /**
     * One invocation. Whatever the owners do, every dispatch was guarded and readiness means a
     * current single-user mapping; when all owners succeed, readiness is exactly recoverability
     * of the files found, and every dispatch advanced the durable phases.
     */
    method Run() returns (r: Result<(Ready, bool), Failure>)
      requires Valid() && log == []
      modifies this`world, this`calls, this`log
      ensures Valid() && forall i :: 0 <= i < |log| ==> Guarded(log[i]) && Permitted(log[i], setting)
      ensures r.Ok? && !setting.mode.ControlOracle? ==> setting.mode.LinuxNative? && setting.root
      ensures r.Ok? ==> (r.value.0.CompatibilityAuthority? <==> setting.mode.ControlOracle?)
      ensures r.Ok? ==> (r.value.1 <==> log != [])
      ensures r.Ok? && setting.mode.LinuxNative? ==> SingleUser(world.mapping, Current) && setting.authorityValid
      ensures AllAchieve(log) ==> Rank(world) >= Rank(old(world)) + |log|
      ensures AllAchieve(log) && Able(setting) ==> (r.Ok? <==> Recoverable(old(world)))
      ensures AllAchieve(log) && Able(setting) && HalfCommitted(old(world)) ==> log != [] && Recoverable(world)
      ensures AllAchieve(log) && Able(setting) && LeftByOwners(old(world)) ==> r.Ok? || Rank(world) > Rank(old(world))
    {
      if setting.mode.ControlOracle? { return Ok((CompatibilityAuthority, false)); }
      if setting.mode.OtherMode? { return Err(ModeInvalid); }
      if !setting.root { return Err(NotRoot); }
      var failed := ProvisionStage();
      if failed.Some? { return Err(failed.value); }
      failed := AuthorityStage();
      if failed.Some? { return Err(failed.value); }
      r := Ok((MappingReady, calls != 0));
    }
  }

  predicate CanReplace(s: Setting) {
    s.credential && s.blankEnrollment
  }

  predicate Able(s: Setting) {
    s.mode.LinuxNative? && s.root && CanReplace(s) && s.authorityValid
  }

  predicate CanActivate(w: World) {
    || (SingleUser(w.mapping, Legacy) && BundleOpen(w))
    || (SingleUser(w.mapping, Current) && w.replacement == Holds(Replaced) && !w.activation.Broken?)
  }

  predicate BundleOpen(w: World) {
    w.activation.Absent? && !w.replacement.Broken? && w.replacement != Holds(Replaced)
  }

  predicate CanProvision(w: World) {
    || (w.mapping.Absent? && w.provisioning.Absent?)
    || (!w.mapping.Absent? && Provisioned(w))
  }

  /** Successful provisioning touches the provisioning history, and the mapping only to create it. */
  predicate ProvisionedFrom(w: World, v: World) {
    && v == w.(mapping := v.mapping, provisioning := v.provisioning)
    && (if w.mapping.Absent? && w.provisioning.Absent? then
          (v != w ==> SingleUser(v.mapping, Legacy))
        else v.mapping == w.mapping)
  }

  /** Successful replacement touches the bundle history and the mapping's schema. */
  predicate MappedFrom(w: World, v: World) {
    && v == w.(mapping := v.mapping, replacement := v.replacement)
    && (w.mapping.Holds? ==> v.mapping == w.mapping || v.mapping == Holds(Mapping(Current, w.mapping.value.users)))
  }
}
