/**
 * Service template sync: Catacomb states are read, the master and then the user component are
 * loaded where needed, and the live identity list must agree with the committed one.
 */
module TemplateSync {
  import opened Wrappers
  import opened Bytes

  datatype Component = Master | User(id: nat)

  datatype ComponentState = ComponentState(component: Component, state: nat)

  datatype Output = Data(data: bytes) | NilPlaceholder | OtherOutput

  /** A command reply as received: how many items it has, its status, its output, and its callbacks. */
  datatype Reply = Reply(items: nat, status: int, output: Output, callbacks: nat)

  datatype Command =
    | ReadUsers
    | ReadGroups
    | ListIdentities
    | Load(component: Component, payload: bytes)

  datatype Exchange = Exchange(command: Command, reply: Reply)

  datatype Failure =
    | UserStateInvalid | GroupStateInvalid | GroupComponents
    | InventoryInvalid | ComparisonInvalid | LiveDiffers | LoadedWhileAbsent
    | MasterNotLoadable | UserNotLoadable | LoadFailed | NotLoadedSecurely
    | TemplateListInvalid | ListChanged | NotManaged

  datatype Authority = NoAuthority | Native | Compatibility

  datatype Payloads = Payloads(master: bytes, user: bytes)

  // --------------------------------------------------------------- reply parsing

  function ReplyBytes(r: Reply): Option<bytes> {
    if r.items > 1 && r.status == 0 && r.output.Data? then Some(r.output.data) else None
  }

  function ComponentOf(id: nat): Component {
    if id == 0xFFFF_FFFF then Master else User(id)
  }

  function StatesIn(b: bytes): (s: seq<ComponentState>) {
    if |b| < 8 then [] else [ComponentState(ComponentOf(U32(b, 0)), U32(b, 4))] + StatesIn(b[8..])
  }

  predicate NoRepeat(s: seq<ComponentState>) {
    forall i, j :: 0 <= i < j < |s| ==> s[i].component != s[j].component
  }

  /** parse_user_states: whole (user, state) records, at least one, no component twice. */
  function ParseUsers(output: Option<bytes>): Option<seq<ComponentState>> {
    if output.None? || output.value == [] || |output.value| % 8 != 0 then None
    else if NoRepeat(StatesIn(output.value)) then Some(StatesIn(output.value)) else None
  }

  predicate GroupRecord(record: bytes)
    requires |record| == 28
  {
    U32(record, 4) != 0 && U32(record, 0) != 0xFFFF_FFFF
  }

  /** parse_group_states: the 24-byte descriptors of whole group records, none twice. */
  function ParseGroups(output: Option<bytes>): Option<seq<bytes>> {
    if output.None? || |output.value| % 28 != 0 then None
    else
      var records := Split(output.value, 28);
      var descriptors := seq(|records|, i requires 0 <= i < |records| => records[i][..24]);
      if (forall i :: 0 <= i < |records| ==> GroupRecord(records[i])) && Distinct(descriptors) then Some(descriptors)
      else None
  }

  function GroupOutput(r: Reply): Option<bytes> {
    if r.items > 1 && r.status == 0 && r.output.NilPlaceholder? then Some([]) else ReplyBytes(r)
  }

  predicate UserScoped(records: seq<bytes>, user: nat) {
    Distinct(records) && forall i :: 0 <= i < |records| ==> |records[i]| == 20 && U32(records[i], 0) == user
  }

  /** managed_user_identity_records over strict_identity_records. */
  function ManagedRecords(r: Reply, user: nat): Option<seq<bytes>> {
    if r.items != 2 || r.status != 0 || r.callbacks != 0 then None
    else if r.output.NilPlaceholder? then Some([])
    else if !r.output.Data? || |r.output.data| % 20 != 0 then None
    else
      var records := Split(r.output.data, 20);
      if UserScoped(records, user) then Some(records) else None
  }

  predicate SameSet(a: seq<bytes>, b: seq<bytes>) {
    |a| == |b| && (set r | r in a) == (set r | r in b)
  }

  /** The states read for one component. */
  function StatesFor(states: seq<ComponentState>, c: Component): seq<nat> {
    if states == [] then []
    else (if states[0].component == c then [states[0].state] else []) + StatesFor(states[1..], c)
  }

  predicate Loadable(states: seq<ComponentState>, c: Component) {
    |StatesFor(states, c)| == 1 && HasBit(StatesFor(states, c)[0], 1)
  }

  predicate Unloaded(states: seq<ComponentState>, c: Component) {
    Loadable(states, c) && !HasBit(StatesFor(states, c)[0], 2)
  }

  /** state & 3 == 3, exactly one record. */
  predicate Secure(states: seq<ComponentState>, c: Component) {
    |StatesFor(states, c)| == 1 && StatesFor(states, c)[0] % 4 == 3
  }

  predicate NothingLoaded(states: seq<ComponentState>) {
    forall i :: 0 <= i < |states| ==> !HasBit(states[i].state, 2)
  }

  // ------------------------------------------------------- what the replies say, told by their bytes

  /** Bit 0 says loadable and bit 1 loaded: the two low bits of the one state read. */
  lemma StateBits(states: seq<ComponentState>, c: Component)
    ensures Loadable(states, c) <==> |StatesFor(states, c)| == 1 && StatesFor(states, c)[0] % 2 == 1
    ensures Unloaded(states, c) <==> |StatesFor(states, c)| == 1 && StatesFor(states, c)[0] % 4 == 1
    ensures Secure(states, c) <==> |StatesFor(states, c)| == 1 && StatesFor(states, c)[0] % 4 == 3
  {
    if |StatesFor(states, c)| == 1 {
      LowBits(StatesFor(states, c)[0]);
    }
  }

  lemma LowBits(x: nat)
    ensures HasBit(x, 1) <==> x % 2 == 1
    ensures HasBit(x, 1) && !HasBit(x, 2) <==> x % 4 == 1
  {
    var q, r := x / 4, x % 4;
    assert x == 4 * q + r && x / 2 == 2 * q + r / 2;
  }

  /** The states read for a component are those listed for it: none where none is listed ... */
  lemma {:induction false} StatesForMissing(states: seq<ComponentState>, c: Component)
    ensures StatesFor(states, c) == [] <==> forall i :: 0 <= i < |states| ==> states[i].component != c
  {
    if states != [] {
      var rest := states[1..];
      StatesForMissing(rest, c);
      if StatesFor(rest, c) == [] && states[0].component != c {
        forall i | 0 <= i < |states| ensures states[i].component != c {
          assert i > 0 ==> states[i] == rest[i - 1];
        }
      }
      if i :| 0 <= i < |rest| && rest[i].component == c {
        assert states[i + 1] == rest[i];
      }
    }
  }

  /** ... and the one where it is listed once. */
  lemma {:induction false} StatesForListed(states: seq<ComponentState>, c: Component, k: nat)
    requires NoRepeat(states) && k < |states| && states[k].component == c
    ensures StatesFor(states, c) == [states[k].state]
  {
    var rest := states[1..];
    if k == 0 {
      assert forall i :: 0 <= i < |rest| ==> rest[i] == states[i + 1];
      StatesForMissing(rest, c);
    } else {
      assert forall i :: 0 <= i < |rest| ==> rest[i] == states[i + 1];
      StatesForListed(rest, c, k - 1);
      assert states[0].component != states[k].component;
    }
  }

  function ComponentId(c: Component): nat {
    if c.Master? then 0xFFFF_FFFF else c.id
  }

  /** States as the sensor can tell them: 32-bit ids and values, and the master under its own id. */
  predicate Tellable(states: seq<ComponentState>) {
    forall i :: 0 <= i < |states| ==>
      ComponentId(states[i].component) < 0x1_0000_0000 && states[i].state < 0x1_0000_0000
      && states[i].component != User(0xFFFF_FFFF)
  }

  /** The bytes of the user-state reply: id and state of each component. */
  function StateBytes(states: seq<ComponentState>): bytes
    requires Tellable(states)
  {
    if states == [] then []
    else LE32(ComponentId(states[0].component)) + LE32(states[0].state) + StateBytes(states[1..])
  }

  lemma {:induction false} StatesReadBack(states: seq<ComponentState>)
    requires Tellable(states)
    ensures |StateBytes(states)| == 8 * |states| && StatesIn(StateBytes(states)) == states
  {
    if states != [] {
      var id, v, rest := LE32(ComponentId(states[0].component)), LE32(states[0].state), StateBytes(states[1..]);
      var b := StateBytes(states);
      assert b == [] + id + (v + rest) && b == id + v + rest;
      ReadLE32([], ComponentId(states[0].component), v + rest);
      ReadLE32(id, states[0].state, rest);
      assert b[8..] == rest;
      StatesReadBack(states[1..]);
    }
  }

  /** A reply that lists components, none twice, is parsed to exactly them; a repetition is refused. */
  lemma UserStatesReadBack(states: seq<ComponentState>, items: nat, callbacks: nat)
    requires states != [] && items > 1 && Tellable(states)
    ensures ParseUsers(ReplyBytes(Reply(items, 0, Data(StateBytes(states)), callbacks)))
            == if NoRepeat(states) then Some(states) else None
  {
    var b := StateBytes(states);
    assert |b| == 8 * |states| && StatesIn(b) == states by { StatesReadBack(states); }
    assert |b| % 8 == 0;
    assert b != [];
  }

  /** A failed, short or shapeless reply has no states. */
  lemma NoStatesWithoutReply(r: Reply)
    requires r.items <= 1 || r.status != 0 || !r.output.Data? || r.output.data == [] || |r.output.data| % 8 != 0
    ensures ParseUsers(ReplyBytes(r)).None?
  {
  }

  /** A record belongs to the user whose id its first four bytes tell. */
  lemma RecordOfUser(record: bytes, user: nat)
    requires |record| == 20 && user < 0x1_0000_0000
    ensures U32(record, 0) == user <==> record[..4] == LE32(user)
  {
    var rest := record[4..];
    WriteU32(record, 0);
    assert record[0..4] == record[..4];
    if record[..4] == LE32(user) {
      assert record == [] + LE32(user) + rest;
      ReadLE32([], user, rest);
    }
  }

  /** Every record starts with the user's id. */
  predicate OfUser(records: seq<bytes>, user: nat)
    requires user < 0x1_0000_0000 && AllRecords(records)
  {
    forall i :: 0 <= i < |records| ==> records[i][..4] == LE32(user)
  }

  lemma ScopedByPrefix(records: seq<bytes>, user: nat)
    requires user < 0x1_0000_0000 && AllRecords(records)
    ensures UserScoped(records, user) <==> Distinct(records) && OfUser(records, user)
  {
    forall i | 0 <= i < |records| ensures U32(records[i], 0) == user <==> records[i][..4] == LE32(user) {
      RecordOfUser(records[i], user);
    }
  }

  lemma JoinedIsWhole(b: bytes, records: seq<bytes>)
    requires AllRecords(records)
    ensures b == Joined(records) <==> |b| % 20 == 0 && Split(b, 20) == records
  {
    if |b| % 20 == 0 {
      JoinedOfSplit(b);
    }
    JoinedLength(records);
    SplitOfJoined(records);
  }

  /** An identity list is told exactly by a clean two-item reply whose records are distinct and the user's. */
  lemma ListedRecordsAre(r: Reply, user: nat, records: seq<bytes>)
    requires user < 0x1_0000_0000 && AllRecords(records) && records != []
    ensures ManagedRecords(r, user) == Some(records) <==>
              && r.items == 2 && r.status == 0 && r.callbacks == 0 && r.output == Data(Joined(records))
              && Distinct(records) && OfUser(records, user)
  {
    ScopedByPrefix(records, user);
    if r.output.Data? {
      JoinedIsWhole(r.output.data, records);
    }
  }

  /** Mesa's nil output is an empty list, and so is no data at all. */
  lemma EmptyListsAre(r: Reply, user: nat)
    ensures ManagedRecords(r, user) == Some([]) <==>
              && r.items == 2 && r.status == 0 && r.callbacks == 0
              && (r.output.NilPlaceholder? || r.output == Data([]))
  {
    if r.output.Data? && |r.output.data| % 20 == 0 {
      assert |Split(r.output.data, 20)| == 0 <==> r.output.data == [];
    }
  }

  lemma NoGroupsIn(b: bytes)
    ensures ParseGroups(Some(b)) == Some([]) <==> b == []
  {
    var records := Split(b, 28);
    var descriptors := seq(|records|, i requires 0 <= i < |records| => records[i][..24]);
    assert |descriptors| == |records|;
    if b == [] {
      assert descriptors == [];
    } else if |b| % 28 == 0 {
      assert |records| > 0;
    }
  }

  /** No groups are told exactly by an empty or nil output. */
  lemma NoGroupsAre(r: Reply)
    ensures ParseGroups(GroupOutput(r)) == Some([]) <==>
              r.items > 1 && r.status == 0 && (r.output.NilPlaceholder? || r.output == Data([]))
  {
    if GroupOutput(r).Some? {
      NoGroupsIn(GroupOutput(r).value);
    }
  }

  // ----------------------------------------------------- what a trace of commands says

  function Loads(log: seq<Exchange>): seq<Component> {
    if log == [] then []
    else
      var e := log[|log| - 1];
      Loads(log[..|log| - 1]) + if e.command.Load? then [e.command.component] else []
  }

  /** The component states as last read. */
  function LastStates(log: seq<Exchange>): Option<seq<ComponentState>> {
    if log == [] then None
    else if log[|log| - 1].command.ReadUsers? then ParseUsers(ReplyBytes(log[|log| - 1].reply))
    else LastStates(log[..|log| - 1])
  }

  /** Every load is of a component whose last-read state was its only one, loadable and not loaded. */
  ghost predicate Lawful(log: seq<Exchange>) {
    log != [] ==>
      var before, e := log[..|log| - 1], log[|log| - 1];
      Lawful(before)
      && (e.command.Load? ==> LastStates(before).Some? && Unloaded(LastStates(before).value, e.command.component))
  }

  /** The master at most once, then the user at most once. */
  predicate MasterThenUser(loads: seq<Component>, user: nat) {
    loads == [] || loads == [Master] || loads == [User(user)] || loads == [Master, User(user)]
  }

  lemma AppendExchange(log: seq<Exchange>, e: Exchange)
    ensures Loads(log + [e]) == Loads(log) + (if e.command.Load? then [e.command.component] else [])
    ensures LastStates(log + [e]) == if e.command.ReadUsers? then ParseUsers(ReplyBytes(e.reply)) else LastStates(log)
    ensures Lawful(log + [e]) <==>
              Lawful(log)
              && (e.command.Load? ==> LastStates(log).Some? && Unloaded(LastStates(log).value, e.command.component))
  {
    assert (log + [e])[..|log|] == log;
  }

  /** `before` grew into `after` by exchanges that load nothing and keep the law. */
  ghost predicate Quietly(before: seq<Exchange>, after: seq<Exchange>) {
    && before <= after && Loads(after) == Loads(before) && (Lawful(before) ==> Lawful(after))
    && forall k :: |before| <= k < |after| ==> !after[k].command.Load?
  }

  /** The committed payload of a component. */
  function PayloadFor(payloads: Payloads, c: Component): bytes {
    if c.Master? then payloads.master else payloads.user
  }

  /** Every load carries the committed payload of the component it is for. */
  predicate Addressed(log: seq<Exchange>, source: Option<Payloads>) {
    forall k :: 0 <= k < |log| && log[k].command.Load? ==>
      source.Some? && log[k].command.payload == PayloadFor(source.value, log[k].command.component)
  }

  /** Committed records that can be compared at all. */
  predicate Comparable(managed: seq<bytes>) {
    (forall i :: 0 <= i < |managed| ==> |managed[i]| == 20) && Distinct(managed)
  }

  /** The last exchange, and the states last read, show why the sync had to stop like this. */
  predicate Explains(f: Failure, log: seq<Exchange>, user: nat, managed: seq<bytes>) {
    log != [] &&
    var e := log[|log| - 1];
    match f
    case UserStateInvalid => e.command.ReadUsers? && ParseUsers(ReplyBytes(e.reply)).None?
    case GroupStateInvalid => e.command.ReadGroups? && ParseGroups(GroupOutput(e.reply)).None?
    case GroupComponents => ShowsGroups(e)
    case InventoryInvalid => e.command.ListIdentities? && ManagedRecords(e.reply, user).None?
    case ComparisonInvalid => e.command.ListIdentities? && !Comparable(managed)
    case LiveDiffers =>
      Lists(e, user) && Listed(e, user) != [] && (set r | r in Listed(e, user)) != (set r | r in managed)
    case LoadedWhileAbsent =>
      EmptyOverManaged(e, user, managed) && LastStates(log).Some? && !NothingLoaded(LastStates(log).value)
    case MasterNotLoadable => LastStates(log).Some? && !Loadable(LastStates(log).value, Master)
    case UserNotLoadable => LastStates(log).Some? && !Loadable(LastStates(log).value, User(user))
    case LoadFailed => e.command.Load? && (e.reply.items == 0 || e.reply.status != 0)
    case NotLoadedSecurely =>
      ShowsGroups(e) || (LastStates(log).Some? && !(Secure(LastStates(log).value, Master)
                                                    && Secure(LastStates(log).value, User(user))))
    case TemplateListInvalid => e.command.ListIdentities? && ManagedRecords(e.reply, user).None?
    case ListChanged => Lists(e, user)
    case NotManaged => Lists(e, user) && !SameSet(Listed(e, user), managed)
  }

  predicate OfReading(f: Failure) {
    f.UserStateInvalid? || f.GroupStateInvalid?
  }

  predicate OfComparing(f: Failure) {
    f.InventoryInvalid? || f.ComparisonInvalid? || f.LiveDiffers? || f.LoadedWhileAbsent?
  }

  predicate OfListing(f: Failure) {
    f.TemplateListInvalid? || f.ListChanged? || f.NotManaged?
  }

  predicate ShowsGroups(e: Exchange) {
    e.command.ReadGroups? && ParseGroups(GroupOutput(e.reply)).Some? && ParseGroups(GroupOutput(e.reply)) != Some([])
  }

  predicate Lists(e: Exchange, user: nat) {
    e.command.ListIdentities? && ManagedRecords(e.reply, user).Some?
  }

  function Listed(e: Exchange, user: nat): seq<bytes>
    requires Lists(e, user)
  {
    ManagedRecords(e.reply, user).value
  }

  class Synchronizer {
    const protocol: int
    const user: nat
    const source: Option<Payloads>
    const authority: Authority
    /** The committed identity records. */
    const managed: seq<bytes>
    var replies: seq<Reply>
    ghost var log: seq<Exchange>

    constructor (protocol: int, user: nat, source: Option<Payloads>, authority: Authority, managed: seq<bytes>,
                 replies: seq<Reply>)
      ensures this.protocol == protocol && this.user == user && this.source == source
      ensures this.authority == authority && this.managed == managed && this.replies == replies && log == []
    {
      this.protocol, this.user, this.source := protocol, user, source;
      this.authority, this.managed, this.replies, log := authority, managed, replies, [];
    }

    /** One command; a channel that is gone gives a reply nothing accepts. */
    method Ask(c: Command) returns (r: Reply)
      requires c.Load? ==> LastStates(log).Some? && Unloaded(LastStates(log).value, c.component)
      modifies this`replies, this`log
      ensures log == old(log) + [Exchange(c, r)]
      ensures old(replies) != [] ==> r == old(replies)[0] && replies == old(replies)[1..]
      ensures Lawful(old(log)) ==> Lawful(log)
      ensures Loads(log) == Loads(old(log)) + if c.Load? then [c.component] else []
      ensures LastStates(log) == if c.ReadUsers? then ParseUsers(ReplyBytes(r)) else LastStates(old(log))
    {
      if replies == [] {
        r := Reply(0, 0, OtherOutput, 0);
      } else {
        r, replies := replies[0], replies[1..];
      }
      AppendExchange(log, Exchange(c, r));
      log := log + [Exchange(c, r)];
    }

    /** read_service_catacomb_state: user states always, group states from protocol 2. */
    method ReadState() returns (states: seq<ComponentState>, groups: bool, failed: Option<Failure>)
      modifies this`replies, this`log
      ensures Quietly(old(log), log) && |log| > |old(log)| && log[|old(log)|].command == ReadUsers
      ensures failed.None? ==> LastStates(log) == Some(states)
      ensures failed.None? ==> Some(states) == ParseUsers(ReplyBytes(log[|old(log)|].reply))
      ensures failed.None? && protocol < 2 ==> !groups
      ensures failed.None? && protocol >= 2 ==>
                log[|log| - 1].command == ReadGroups
                && ParseGroups(GroupOutput(log[|log| - 1].reply)).Some?
                && (groups <==> ParseGroups(GroupOutput(log[|log| - 1].reply)) != Some([]))
      ensures failed.Some? ==> Explains(failed.value, log, user, managed) && OfReading(failed.value)
    {
      states, groups, failed := [], false, None;
      var reply := Ask(ReadUsers);
      var parsed := ParseUsers(ReplyBytes(reply));
      if parsed.None? { failed := Some(UserStateInvalid); return; }
      states := parsed.value;
      if protocol >= 2 {
        reply := Ask(ReadGroups);
        var descriptors := ParseGroups(GroupOutput(reply));
        if descriptors.None? { failed := Some(GroupStateInvalid); return; }
        groups := descriptors.value != [];
      }
    }

    /**
     * Before a compatibility restore: the live list must be empty or equal the committed set, and
     * nothing may be loaded while a restore is needed. `matches` means that no restore is needed.
     */
    method CompareLive(states: seq<ComponentState>) returns (matches: bool, failed: Option<Failure>)
      modifies this`replies, this`log
      ensures Quietly(old(log), log) && LastStates(log) == LastStates(old(log))
      ensures |log| == |old(log)| + 1 && log[|old(log)|].command == ListIdentities
      ensures failed.None? ==> var live := ManagedRecords(log[|old(log)|].reply, user);
                && live.Some?
                && (matches <==> live.value != [] || managed == [])
                && (matches ==> (set r | r in live.value) == (set r | r in managed))
                && (!matches ==> NothingLoaded(states))
      ensures failed.Some? && LastStates(log) == Some(states) ==> Explains(failed.value, log, user, managed)
      ensures failed.Some? ==> OfComparing(failed.value)
    {
      matches, failed := false, None;
      var reply := Ask(ListIdentities);
      var live := ManagedRecords(reply, user);
      if live.None? { failed := Some(InventoryInvalid); return; }
      if !Comparable(managed) { failed := Some(ComparisonInvalid); return; }
      if live.value != [] && (set r | r in live.value) != (set r | r in managed) {
        failed := Some(LiveDiffers);
        return;
      }
      var required := live.value == [] && managed != [];
      if required && !NothingLoaded(states) { failed := Some(LoadedWhileAbsent); return; }
      matches := !required;
    }

    /** One component, from the states just read: it must be loadable, and is loaded unless it already is. */
    method LoadComponent(states: seq<ComponentState>, c: Component, payload: bytes, matches: bool, refusal: Failure)
      returns (sent: bool, failed: Option<Failure>)
      requires LastStates(log) == Some(states)
      modifies this`replies, this`log
      ensures old(log) <= log && (Lawful(old(log)) ==> Lawful(log))
      ensures forall k :: |old(log)| <= k < |log| && log[k].command.Load? ==>
                log[k].command.component == c && log[k].command.payload == payload
      ensures Loads(log) == Loads(old(log)) + if sent then [c] else []
      ensures sent <==> !matches && Unloaded(states, c)
      ensures LastStates(log) == LastStates(old(log)) && (!sent ==> log == old(log))
      ensures failed.None? ==> Loadable(states, c)
      ensures failed.None? && sent ==> log == old(log) + [Exchange(Load(c, payload), log[|log| - 1].reply)]
                                       && log[|log| - 1].reply.items > 0 && log[|log| - 1].reply.status == 0
      ensures failed.Some? ==>
                || (failed.value == refusal && !Loadable(states, c))
                || (failed.value == LoadFailed && Explains(LoadFailed, log, user, managed))
    {
      sent, failed := false, None;
      if !Loadable(states, c) { failed := Some(refusal); return; }
      if !matches && !HasBit(StatesFor(states, c)[0], 2) {
        sent := true;
        var reply := Ask(Load(c, payload));
        if reply.items == 0 || reply.status != 0 { failed := Some(LoadFailed); }
      }
    }

    /** The states after a user load: both components present, loadable and loaded. */
    method ConfirmLoaded() returns (failed: Option<Failure>)
      modifies this`replies, this`log
      ensures Quietly(old(log), log)
      ensures failed.None? ==> BothLoaded(log, user)
      ensures failed.Some? ==> Explains(failed.value, log, user, managed)
      ensures failed.Some? ==> !OfComparing(failed.value) && !OfListing(failed.value)
    {
      var states, groups, broken := ReadState();
      failed := broken;
      if failed.None? && (groups || !Secure(states, Master) || !Secure(states, User(user))) {
        failed := Some(NotLoadedSecurely);
      }
      if failed.None? { SecureIsLoadable(states, User(user)); }
    }

    /** The states once more, without groups. */
    method Refresh() returns (states: seq<ComponentState>, failed: Option<Failure>)
      modifies this`replies, this`log
      ensures Quietly(old(log), log)
      ensures failed.None? ==> LastStates(log) == Some(states)
      ensures failed.Some? ==> Explains(failed.value, log, user, managed)
      ensures failed.Some? ==> !OfComparing(failed.value) && !OfListing(failed.value)
    {
      var groups;
      states, groups, failed := ReadState();
      if failed.None? && groups { failed := Some(GroupComponents); }
    }

    /** The user component, from refreshed states, and the confirmation of what was loaded. */
    method RestoreUser(payload: bytes, matches: bool) returns (sent: bool, failed: Option<Failure>)
      requires Lawful(log)
      modifies this`replies, this`log
      ensures old(log) <= log && Lawful(log)
      ensures forall k :: |old(log)| <= k < |log| && log[k].command.Load? ==>
                log[k].command.component == User(user) && log[k].command.payload == payload
      ensures Loads(log) == Loads(old(log)) + (if sent then [User(user)] else []) && (matches ==> !sent)
      ensures failed.None? ==> LastStates(log).Some? && Loadable(LastStates(log).value, User(user))
      ensures failed.None? ==> !Unloaded(LastStates(log).value, User(user)) || matches
      ensures failed.None? && sent ==> BothLoaded(log, user)
      ensures failed.Some? ==> Explains(failed.value, log, user, managed)
      ensures failed.Some? ==> !OfComparing(failed.value) && !OfListing(failed.value)
    {
      sent := false;
      var refreshed;
      refreshed, failed := Refresh();
      if failed.Some? { return; }
      sent, failed := LoadComponent(refreshed, User(user), payload, matches, UserNotLoadable);
      if failed.None? && sent {
        failed := ConfirmLoaded();
      }
    }

    /** The restore: master, then user. */
    method Restore(payloads: Payloads, states: seq<ComponentState>, matches: bool) returns (failed: Option<Failure>)
      requires LastStates(log) == Some(states) && Lawful(log) && Loads(log) == []
      modifies this`replies, this`log
      ensures old(log) <= log && Lawful(log) && MasterThenUser(Loads(log), user)
      ensures Addressed(old(log), Some(payloads)) ==> Addressed(log, Some(payloads))
      ensures matches ==> Loads(log) == []
      ensures failed.None? ==> Loadable(states, Master)
      ensures failed.None? ==> (Master in Loads(log) <==> !matches && Unloaded(states, Master))
      ensures failed.None? ==> Restored(log, user, matches)
      ensures failed.Some? ==> Explains(failed.value, log, user, managed)
      ensures failed.Some? ==> !OfComparing(failed.value) && !OfListing(failed.value)
    {
      var sent;
      sent, failed := LoadComponent(states, Master, payloads.master, matches, MasterNotLoadable);
      if failed.Some? { return; }
      sent, failed := RestoreUser(payloads.user, matches);
    }

    /** The final list: unchanged from an earlier non-empty one, and the committed set where an authority demands it. */
    method FinalList(enrolled: seq<bytes>) returns (r: Result<seq<bytes>, Failure>)
      modifies this`replies, this`log
      ensures Quietly(old(log), log) && LastStates(log) == LastStates(old(log))
      ensures |log| == |old(log)| + 1 && log[|log| - 1].command == ListIdentities
      ensures r.Ok? ==> ManagedRecords(log[|log| - 1].reply, user) == Some(r.value)
      ensures r.Ok? ==> (enrolled == [] || r.value == enrolled)
      ensures r.Ok? && (authority.Native? || (authority.Compatibility? && managed != [])) ==> SameSet(r.value, managed)
      ensures r.Err? ==> Explains(r.error, log, user, managed) && OfListing(r.error)
      ensures r == Err(ListChanged) ==> enrolled != [] && Listed(log[|log| - 1], user) != enrolled
      ensures r == Err(NotManaged) ==> authority.Native? || (authority.Compatibility? && managed != [])
    {
      var reply := Ask(ListIdentities);
      var records := ManagedRecords(reply, user);
      if records.None? { return Err(TemplateListInvalid); }
      if enrolled != [] && records.value != enrolled { return Err(ListChanged); }
      if authority.Native? && !SameSet(records.value, managed) { return Err(NotManaged); }
      if authority.Compatibility? && managed != [] && !SameSet(records.value, managed) { return Err(NotManaged); }
      r := Ok(records.value);
    }

    /** With a Catacomb source: compare first under compatibility authority, then restore. */
    method SyncComponents(payloads: Payloads, states: seq<ComponentState>) returns (failed: Option<Failure>)
      requires LastStates(log) == Some(states) && Lawful(log) && Loads(log) == []
      modifies this`replies, this`log
      ensures old(log) <= log && LoadedInOrder(log, user, true)
      ensures Addressed(old(log), Some(payloads)) ==> Addressed(log, Some(payloads))
      ensures authority.Compatibility? ==> LoadedOnlyIfEmpty(log, user, managed)
      ensures authority.Compatibility? ==> (Loads(log) == [] || NothingLoaded(states))
      ensures failed.None? ==> Restored(log, user, authority.Compatibility? && Loads(log) == [])
      ensures failed.Some? ==> Explains(failed.value, log, user, managed)
      ensures failed.Some? ==> !OfListing(failed.value) && (OfComparing(failed.value) ==> authority.Compatibility?)
    {
      var matches := false;
      failed := None;
      if authority.Compatibility? {
        matches, failed := CompareLive(states);
        if failed.Some? { return; }
      }
      ghost var compared := log;
      failed := Restore(payloads, states, matches);
      assert old(log) <= compared <= log;
      if authority.Compatibility? && Loads(log) != [] {
        WasEmptyAt(old(log), compared, log, user, managed);
      }
    }

    /**
     * The whole sync against any sensor. Loads are lawful and in order; under compatibility
     * authority they happen only when the live list was empty, the committed one was not and no
     * component was loaded; normal return gives a live list that is the committed set.
     */
    method Sync(enrolled: seq<bytes>) returns (r: Result<seq<bytes>, Failure>)
      modifies this`replies, this`log
      ensures LoadedInOrder(log, user, source.Some?) && Addressed(log, source)
      ensures authority.Compatibility? ==> LoadedOnlyIfEmpty(log, user, managed)
      ensures r.Ok? ==> log != [] && log[|log| - 1].command == ListIdentities
                        && ManagedRecords(log[|log| - 1].reply, user) == Some(r.value)
      ensures r.Ok? && (authority.Native? || (authority.Compatibility? && managed != [])) ==> SameSet(r.value, managed)
      ensures r.Ok? && source.Some? ==> Restored(log, user, authority.Compatibility? && Loads(log) == [])
      ensures r.Ok? ==> (enrolled == [] || r.value == enrolled)
      ensures r.Err? ==> Explains(r.error, log, user, managed) && (OfComparing(r.error) ==> authority.Compatibility?)
      ensures r.Err? ==> OfReading(r.error) || OfListing(r.error) || source.Some?
      ensures r == Err(ListChanged) ==> enrolled != [] && Listed(log[|log| - 1], user) != enrolled
      ensures r == Err(NotManaged) ==> authority.Native? || (authority.Compatibility? && managed != [])
    {
      var failed := SyncSource();
      if failed.Some? { return Err(failed.value); }
      ghost var restored := log;
      r := FinalList(enrolled);
      OutcomeStays(restored, log, user, managed, source.Some?);
    }

    /** Everything before the final list. */
    method SyncSource() returns (failed: Option<Failure>)
      modifies this`replies, this`log
      ensures LoadedInOrder(log, user, source.Some?) && Addressed(log, source)
      ensures authority.Compatibility? ==> LoadedOnlyIfEmpty(log, user, managed)
      ensures failed.None? && source.Some? ==> Restored(log, user, authority.Compatibility? && Loads(log) == [])
      ensures failed.Some? ==> Explains(failed.value, log, user, managed)
      ensures failed.Some? ==> !OfListing(failed.value) && (OfComparing(failed.value) ==> authority.Compatibility?)
      ensures failed.Some? ==> OfReading(failed.value) || source.Some?
    {
      log := [];
      var states, groups;
      states, groups, failed := ReadState();
      if failed.None? && source.Some? {
        if groups { return Some(GroupComponents); }
        failed := SyncComponents(source.value, states);
      }
    }
  }

  ghost predicate LoadedInOrder(log: seq<Exchange>, user: nat, source: bool) {
    Lawful(log) && MasterThenUser(Loads(log), user) && (!source ==> Loads(log) == [])
  }

  ghost predicate LoadedOnlyIfEmpty(log: seq<Exchange>, user: nat, managed: seq<bytes>) {
    Loads(log) == [] || LiveWasEmpty(log, user, managed)
  }

  /** Exchanges that load nothing and read no state change none of the verdicts. */
  lemma OutcomeStays(before: seq<Exchange>, after: seq<Exchange>, user: nat, managed: seq<bytes>, source: bool)
    requires Quietly(before, after) && LastStates(after) == LastStates(before)
    ensures LoadedInOrder(before, user, source) ==> LoadedInOrder(after, user, source)
    ensures LoadedOnlyIfEmpty(before, user, managed) ==> LoadedOnlyIfEmpty(after, user, managed)
    ensures forall m :: Restored(before, user, m) ==> Restored(after, user, m)
  {
    if LiveWasEmpty(before, user, managed) {
      WasEmptyStays(before, after, user, managed);
    }
  }

  /** A live list reply that is empty while the committed list is not. */
  predicate EmptyOverManaged(e: Exchange, user: nat, managed: seq<bytes>) {
    e.command.ListIdentities? && ManagedRecords(e.reply, user) == Some([]) && managed != []
  }

  /** Before the first load a live list was read, and was empty while the committed one is not. */
  ghost predicate LiveWasEmpty(log: seq<Exchange>, user: nat, managed: seq<bytes>) {
    exists k :: 0 <= k < |log| && EmptyOverManaged(log[k], user, managed) && Loads(log[..k]) == []
  }

  lemma WasEmptyAt(before: seq<Exchange>, compared: seq<Exchange>, log: seq<Exchange>, user: nat, managed: seq<bytes>)
    requires before <= compared <= log && |compared| == |before| + 1
    requires Loads(before) == [] && EmptyOverManaged(compared[|before|], user, managed)
    ensures LiveWasEmpty(log, user, managed)
  {
    assert log[..|before|] == before && log[|before|] == compared[|before|];
  }

  lemma WasEmptyStays(log: seq<Exchange>, longer: seq<Exchange>, user: nat, managed: seq<bytes>)
    requires log <= longer && LiveWasEmpty(log, user, managed)
    ensures LiveWasEmpty(longer, user, managed)
  {
    var k :| 0 <= k < |log| && EmptyOverManaged(log[k], user, managed) && Loads(log[..k]) == [];
    assert longer[..k] == log[..k] && longer[k] == log[k];
  }

  /** The user component was last read as loadable and, unless the live list already matched, as loaded. */
  predicate Restored(log: seq<Exchange>, user: nat, matches: bool) {
    && LastStates(log).Some?
    && Loadable(LastStates(log).value, User(user))
    && (matches || !Unloaded(LastStates(log).value, User(user)))
    && (User(user) in Loads(log) ==> Secure(LastStates(log).value, Master) && Secure(LastStates(log).value, User(user)))
  }

  /** Both components were last read as loadable and loaded. */
  predicate BothLoaded(log: seq<Exchange>, user: nat) {
    && LastStates(log).Some?
    && Secure(LastStates(log).value, Master) && Secure(LastStates(log).value, User(user))
    && Loadable(LastStates(log).value, User(user)) && !Unloaded(LastStates(log).value, User(user))
  }

  lemma SecureIsLoadable(states: seq<ComponentState>, c: Component)
    requires Secure(states, c)
    ensures Loadable(states, c) && !Unloaded(states, c)
  {
  }
}
