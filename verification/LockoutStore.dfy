/**
 * The append-only bio-lockout store, its native seed, and loading its head into the sensor with
 * recovery when the sensor's own state is ahead.
 */
module LockoutStore {
  import opened Wrappers
  import opened Bytes

  /** A digest is an opaque injective token of what it digests. */
  datatype Digest = Digest(of: bytes)

  datatype Record = Record(length: nat, digest: Digest)

  /** One retained file name of the state directory; a manifest that fails strict validation has no record. */
  datatype Artifact =
    | Blob(sequence: nat, payload: bytes)
    | Manifest(sequence: nat, record: Option<Record>)

  datatype Generation = Generation(sequence: nat, payload: bytes)

  datatype Failure =
    | ManifestInvalid | BlobMissing | PayloadInvalid | ManifestMismatch | SpaceExhausted | WriteFailed
    | ExportInvalid | LoadRejected | ExportIdentical | RecoveredRejected

  /** Where a commit is cut short, by an I/O error or by a crash. */
  datatype Fault = NoFault | BeforeBlob | BeforeManifest | AfterManifest

  const MAGIC: bytes := [0x48, 0x52, 0x4C, 0x42]
  const LAST_SEQUENCE: nat := 99999999999999999999

  predicate ValidPayload(p: bytes) {
    16 <= |p| <= 4096 && MAGIC <= p
  }

  // ------------------------------------------------------ reading the directory

  /** The highest sequence of any file, 0 without one. */
  function HighestArtifact(listing: seq<Artifact>): nat {
    if listing == [] then 0
    else
      var before, a := HighestArtifact(listing[..|listing| - 1]), listing[|listing| - 1];
      if a.sequence > before then a.sequence else before
  }

  function HighestManifest(listing: seq<Artifact>): Option<nat> {
    if listing == [] then None
    else
      var before, a := HighestManifest(listing[..|listing| - 1]), listing[|listing| - 1];
      if a.Manifest? && (before.None? || a.sequence > before.value) then Some(a.sequence) else before
  }

  function FindBlob(listing: seq<Artifact>, sequence: nat): Option<bytes> {
    if listing == [] then None
    else if listing[0].Blob? && listing[0].sequence == sequence then Some(listing[0].payload)
    else FindBlob(listing[1..], sequence)
  }

  function FindRecord(listing: seq<Artifact>, sequence: nat): Option<Record> {
    if listing == [] then None
    else if listing[0].Manifest? && listing[0].sequence == sequence then listing[0].record
    else FindRecord(listing[1..], sequence)
  }

  function ReadGeneration(sequence: nat, record: Option<Record>, blob: Option<bytes>): Result<Generation, Failure> {
    if record.None? || !(16 <= record.value.length <= 4096) then Err(ManifestInvalid)
    else if blob.None? then Err(BlobMissing)
    else if !ValidPayload(blob.value) then Err(PayloadInvalid)
    else if |blob.value| != record.value.length || Digest(blob.value) != record.value.digest then Err(ManifestMismatch)
    else Ok(Generation(sequence, blob.value))
  }

  /** The highest fully committed generation, or no state yet. */
  function Head(listing: seq<Artifact>): Result<Option<Generation>, Failure> {
    var top := HighestManifest(listing);
    if top.None? then Ok(None)
    else
      var g := ReadGeneration(top.value, FindRecord(listing, top.value), FindBlob(listing, top.value));
      if g.Ok? then Ok(Some(g.value)) else Err(g.error)
  }

  predicate HeadIs(listing: seq<Artifact>, g: Generation) {
    Head(listing) == Ok(Some(g))
  }

  // ------------------------------------------------------------- what a head is, told by the files

  /** A directory has each name once. */
  predicate UniqueNames(listing: seq<Artifact>) {
    forall i, j :: 0 <= i < j < |listing| ==>
      !(listing[i].sequence == listing[j].sequence && listing[i].Blob? == listing[j].Blob?)
  }

  lemma UniqueTail(listing: seq<Artifact>)
    requires UniqueNames(listing) && listing != []
    ensures UniqueNames(listing[1..])
    ensures forall a :: a in listing[1..] ==> !(a.sequence == listing[0].sequence && a.Blob? == listing[0].Blob?)
  {
    var rest := listing[1..];
    assert forall i :: 0 <= i < |rest| ==> rest[i] == listing[i + 1];
  }

  lemma {:induction false} FoundBlobIs(listing: seq<Artifact>, s: nat, p: bytes)
    requires UniqueNames(listing)
    ensures FindBlob(listing, s) == Some(p) <==> Blob(s, p) in listing
  {
    if listing != [] {
      UniqueTail(listing);
      FoundBlobIs(listing[1..], s, p);
      assert listing == [listing[0]] + listing[1..];
    }
  }

  lemma {:induction false} FoundRecordIs(listing: seq<Artifact>, s: nat, r: Record)
    requires UniqueNames(listing)
    ensures FindRecord(listing, s) == Some(r) <==> Manifest(s, Some(r)) in listing
  {
    if listing != [] {
      UniqueTail(listing);
      FoundRecordIs(listing[1..], s, r);
      assert listing == [listing[0]] + listing[1..];
    }
  }

  lemma {:induction false} HighestManifestIs(listing: seq<Artifact>, s: nat)
    ensures HighestManifest(listing) == Some(s) <==>
              && (exists a :: a in listing && a.Manifest? && a.sequence == s)
              && (forall a :: a in listing && a.Manifest? ==> a.sequence <= s)
    ensures HighestManifest(listing).None? <==> forall a :: a in listing ==> !a.Manifest?
  {
    if listing != [] {
      var n := |listing| - 1;
      var before, last := listing[..n], listing[n];
      assert listing == before + [last];
      HighestManifestIs(before, s);
      if HighestManifest(before).Some? { HighestManifestIs(before, HighestManifest(before).value); }
    }
  }

  /** The manifest that vouches for a payload: its own length and digest. */
  function Vouches(payload: bytes): Option<Record> {
    Some(Record(|payload|, Digest(payload)))
  }

  /**
   * The head is exactly a generation whose valid payload and vouching manifest are both there, with
   * no manifest above it: a payload that its manifest does not vouch for is never the head.
   */
  lemma HeadIsVouchedFor(listing: seq<Artifact>, g: Generation)
    requires UniqueNames(listing)
    ensures HeadIs(listing, g) <==>
              && Blob(g.sequence, g.payload) in listing && Manifest(g.sequence, Vouches(g.payload)) in listing
              && 16 <= |g.payload| <= 4096 && g.payload[..4] == [0x48, 0x52, 0x4C, 0x42]
              && forall a :: a in listing && a.Manifest? ==> a.sequence <= g.sequence
    ensures Head(listing) == Ok(None) <==> forall a :: a in listing ==> !a.Manifest?
  {
    HighestManifestIs(listing, g.sequence);
    FoundBlobIs(listing, g.sequence, g.payload);
    FoundRecordIs(listing, g.sequence, Record(|g.payload|, Digest(g.payload)));
  }

  // ----------------------------------------------------------------- committing

  datatype Committed = Committed(listing: seq<Artifact>, result: Result<Generation, Failure>)

  function NewManifest(sequence: nat, payload: bytes): Artifact {
    Manifest(sequence, Some(Record(|payload|, Digest(payload))))
  }

  predicate Publishes(listing: seq<Artifact>, payload: bytes, fault: Fault) {
    ValidPayload(payload) && HighestArtifact(listing) < LAST_SEQUENCE && (fault.NoFault? || fault.AfterManifest?)
  }

  function Commit(listing: seq<Artifact>, payload: bytes, fault: Fault): Committed {
    var next := HighestArtifact(listing) + 1;
    if !ValidPayload(payload) then Committed(listing, Err(PayloadInvalid))
    else if next > LAST_SEQUENCE then Committed(listing, Err(SpaceExhausted))
    else if fault.BeforeBlob? then Committed(listing, Err(WriteFailed))
    else if fault.BeforeManifest? then Committed(listing + [Blob(next, payload)], Err(WriteFailed))
    else
      Committed(listing + [Blob(next, payload), NewManifest(next, payload)],
                if fault.NoFault? then Ok(Generation(next, payload)) else Err(WriteFailed))
  }

  lemma {:induction false} HighestBounds(listing: seq<Artifact>, a: Artifact)
    requires a in listing
    ensures a.sequence <= HighestArtifact(listing)
  {
    if a != listing[|listing| - 1] {
      HighestBounds(listing[..|listing| - 1], a);
    }
  }

  lemma {:induction false} ManifestBelowArtifact(listing: seq<Artifact>)
    ensures HighestManifest(listing).Some? ==> HighestManifest(listing).value <= HighestArtifact(listing)
  {
    if listing != [] {
      ManifestBelowArtifact(listing[..|listing| - 1]);
    }
  }

  lemma {:induction false} FindBlobExtends(listing: seq<Artifact>, more: seq<Artifact>, s: nat)
    ensures FindBlob(listing + more, s)
            == if FindBlob(listing, s).Some? then FindBlob(listing, s) else FindBlob(more, s)
  {
    if listing == [] {
      assert listing + more == more;
    } else {
      assert (listing + more)[1..] == listing[1..] + more;
      FindBlobExtends(listing[1..], more, s);
    }
  }

  predicate NamesManifest(listing: seq<Artifact>, s: nat) {
    exists i :: 0 <= i < |listing| && listing[i].Manifest? && listing[i].sequence == s
  }

  lemma {:induction false} FindRecordExtends(listing: seq<Artifact>, more: seq<Artifact>, s: nat)
    ensures NamesManifest(listing, s) ==> FindRecord(listing + more, s) == FindRecord(listing, s)
    ensures !NamesManifest(listing, s) ==> FindRecord(listing + more, s) == FindRecord(more, s)
  {
    if listing == [] {
      assert listing + more == more;
    } else {
      assert (listing + more)[1..] == listing[1..] + more;
      FindRecordExtends(listing[1..], more, s);
      if !(listing[0].Manifest? && listing[0].sequence == s) {
        NamesRest(listing, s);
      }
    }
  }

  lemma NamesRest(listing: seq<Artifact>, s: nat)
    requires listing != [] && !(listing[0].Manifest? && listing[0].sequence == s)
    ensures NamesManifest(listing, s) <==> NamesManifest(listing[1..], s)
  {
    if NamesManifest(listing, s) {
      var i :| 0 <= i < |listing| && listing[i].Manifest? && listing[i].sequence == s;
      assert listing[1..][i - 1] == listing[i];
    }
    if NamesManifest(listing[1..], s) {
      var i :| 0 <= i < |listing[1..]| && listing[1..][i].Manifest? && listing[1..][i].sequence == s;
      assert listing[i + 1] == listing[1..][i];
    }
  }

  lemma {:induction false} HighestIsNamed(listing: seq<Artifact>)
    ensures HighestManifest(listing).Some? ==> NamesManifest(listing, HighestManifest(listing).value)
  {
    if listing != [] {
      var before := listing[..|listing| - 1];
      HighestIsNamed(before);
      var top := HighestManifest(listing);
      if top.Some? && top == HighestManifest(before) {
        var i :| 0 <= i < |before| && before[i].Manifest? && before[i].sequence == top.value;
        assert listing[i] == before[i];
      }
    }
  }

  lemma {:induction false} FoundIsListed(listing: seq<Artifact>, s: nat)
    ensures FindBlob(listing, s).Some? ==> Blob(s, FindBlob(listing, s).value) in listing
  {
    if listing != [] {
      FoundIsListed(listing[1..], s);
    }
  }

  /** A blob left behind without its manifest never becomes, or hides, the head. */
  lemma OrphanBlobKeepsHead(listing: seq<Artifact>, s: nat, payload: bytes)
    requires s > HighestArtifact(listing)
    ensures Head(listing + [Blob(s, payload)]) == Head(listing)
  {
    var after := listing + [Blob(s, payload)];
    assert after[..|after| - 1] == listing;
    var top := HighestManifest(listing);
    if top.Some? {
      HighestIsNamed(listing);
      FindRecordExtends(listing, [Blob(s, payload)], top.value);
      FindBlobExtends(listing, [Blob(s, payload)], top.value);
      ManifestBelowArtifact(listing);
    }
  }

  lemma NewSequenceIsUnused(listing: seq<Artifact>, s: nat)
    requires s > HighestArtifact(listing)
    ensures !NamesManifest(listing, s) && FindBlob(listing, s) == None
  {
    if NamesManifest(listing, s) {
      var i :| 0 <= i < |listing| && listing[i].Manifest? && listing[i].sequence == s;
      HighestBounds(listing, listing[i]);
    }
    FoundIsListed(listing, s);
    if FindBlob(listing, s).Some? {
      HighestBounds(listing, Blob(s, FindBlob(listing, s).value));
    }
  }

  lemma PublishedIsHead(listing: seq<Artifact>, s: nat, payload: bytes)
    requires s > HighestArtifact(listing) && ValidPayload(payload)
    ensures HeadIs(listing + [Blob(s, payload), NewManifest(s, payload)], Generation(s, payload))
  {
    var mid := listing + [Blob(s, payload)];
    var more := [Blob(s, payload), NewManifest(s, payload)];
    var after := listing + more;
    assert after[..|after| - 1] == mid && mid[..|mid| - 1] == listing;
    ManifestBelowArtifact(listing);
    assert HighestManifest(after) == Some(s);
    NewSequenceIsUnused(listing, s);
    FindRecordExtends(listing, more, s);
    FindBlobExtends(listing, more, s);
    assert more[1..] == [NewManifest(s, payload)];
    assert FindRecord(more, s) == FindRecord(more[1..], s) == NewManifest(s, payload).record;
  }

  /**
   * A commit retains every predecessor; the head becomes the new generation exactly when its
   * manifest was published, and is otherwise what it was, wherever the commit was cut short.
   */
  lemma CommitMovesHead(listing: seq<Artifact>, payload: bytes, fault: Fault)
    ensures var c := Commit(listing, payload, fault);
            && listing <= c.listing
            && (c.result.Ok? <==> Publishes(listing, payload, fault) && fault.NoFault?)
            && (c.result.Ok? ==> HeadIs(c.listing, c.result.value))
            && (Publishes(listing, payload, fault) ==>
                  HeadIs(c.listing, Generation(HighestArtifact(listing) + 1, payload)))
            && (!Publishes(listing, payload, fault) ==> Head(c.listing) == Head(listing))
  {
    var next := HighestArtifact(listing) + 1;
    OrphanBlobKeepsHead(listing, next, payload);
    if Publishes(listing, payload, fault) {
      PublishedIsHead(listing, next, payload);
    }
  }

  /** Any number of commits, each cut short anywhere. */
  function CommitAll(listing: seq<Artifact>, writes: seq<(bytes, Fault)>): seq<Artifact> {
    if writes == [] then listing
    else
      var last := writes[|writes| - 1];
      Commit(CommitAll(listing, writes[..|writes| - 1]), last.0, last.1).listing
  }

  /** The sequence of a readable head; 0 when there is none. */
  function HeadSequence(listing: seq<Artifact>): nat {
    if Head(listing).Ok? && Head(listing).value.Some? then Head(listing).value.value.sequence else 0
  }

  lemma HeadWithinArtifacts(listing: seq<Artifact>)
    ensures HeadSequence(listing) <= HighestArtifact(listing)
  {
    ManifestBelowArtifact(listing);
  }

  /** Nothing is removed, a readable head stays readable, and the head never moves backward. */
  ghost predicate Advances(before: seq<Artifact>, after: seq<Artifact>) {
    before <= after && HeadSequence(before) <= HeadSequence(after) && (Head(before).Ok? ==> Head(after).Ok?)
  }

  lemma CommitAdvances(listing: seq<Artifact>, payload: bytes, fault: Fault)
    ensures Advances(listing, Commit(listing, payload, fault).listing)
  {
    CommitMovesHead(listing, payload, fault);
    HeadWithinArtifacts(listing);
  }

  /** Over any history of interrupted commits the store only advances. */
  lemma {:induction false} HistoryAdvances(listing: seq<Artifact>, writes: seq<(bytes, Fault)>)
    ensures Advances(listing, CommitAll(listing, writes))
  {
    if writes != [] {
      var last := writes[|writes| - 1];
      HistoryAdvances(listing, writes[..|writes| - 1]);
      CommitAdvances(CommitAll(listing, writes[..|writes| - 1]), last.0, last.1);
    }
  }

  // --------------------------------------------------------------- the sensor

  /** What the sensor was sent and how it answered: a load's status, or an export's record. */
  datatype Exchange =
    | Loaded(payload: bytes, status: int)
    | Exported(status: int, record: Option<bytes>)

  datatype Reply = Reply(status: int, record: Option<bytes>)

  /** The k-th answer; without a further one the command fails. */
  function Answer(replies: seq<Reply>, k: nat): Reply {
    if k < |replies| then replies[k] else Reply(1, None)
  }

  /** An answer that exports a record other than the one the sensor has just rejected. */
  predicate ExportsNew(answer: Reply, rejected: bytes) {
    answer.status == 0 && answer.record.Some? && MAGIC <= answer.record.value && answer.record.value != rejected
  }

  /** The head gets accepted: at once, or once the sensor's own record has been committed in its place. */
  predicate GetsAccepted(listing: seq<Artifact>, current: Generation, recover: bool, replies: seq<Reply>, fault: Fault)
  {
    || Answer(replies, 0).status == 0
    || (&& recover && ExportsNew(Answer(replies, 1), current.payload)
        && Commit(listing, Answer(replies, 1).record.value, fault).result.Ok? && Answer(replies, 2).status == 0)
  }

  class LockoutLoader {
    var listing: seq<Artifact>
    var replies: seq<Reply>
    var log: seq<Exchange>

    constructor (listing: seq<Artifact>, replies: seq<Reply>)
      ensures this.listing == listing && this.replies == replies && log == []
    {
      this.listing, this.replies, log := listing, replies, [];
    }

    /** current(): scan the names for the highest manifest, then read it strictly. */
    method Current() returns (r: Result<Option<Generation>, Failure>)
      ensures r == Head(listing)
    {
      var top := None;
      var i := 0;
      while i < |listing|
        invariant i <= |listing|
        invariant top == HighestManifest(listing[..i])
      {
        assert listing[..i + 1][..i] == listing[..i];
        if listing[i].Manifest? && (top.None? || listing[i].sequence > top.value) {
          top := Some(listing[i].sequence);
        }
        i := i + 1;
      }
      assert listing[..i] == listing;
      if top.None? { return Ok(None); }
      var g :- ReadGeneration(top.value, FindRecord(listing, top.value), FindBlob(listing, top.value));
      r := Ok(Some(g));
    }

    /** commit(): the next sequence is above every retained file, orphan blobs included. */
    method Append(payload: bytes, fault: Fault) returns (r: Result<Generation, Failure>)
      modifies this`listing
      ensures Committed(listing, r) == Commit(old(listing), payload, fault)
    {
      if !ValidPayload(payload) { return Err(PayloadInvalid); }
      var highest := 0;
      var i := 0;
      while i < |listing|
        invariant i <= |listing|
        invariant highest == HighestArtifact(listing[..i])
      {
        assert listing[..i + 1][..i] == listing[..i];
        if listing[i].sequence > highest { highest := listing[i].sequence; }
        i := i + 1;
      }
      assert listing[..i] == listing;
      var next := highest + 1;
      if next > LAST_SEQUENCE { return Err(SpaceExhausted); }
      if fault.BeforeBlob? { return Err(WriteFailed); }
      ghost var was := listing;
      listing := listing + [Blob(next, payload)];
      if fault.BeforeManifest? { return Err(WriteFailed); }
      listing := listing + [NewManifest(next, payload)];
      assert listing == was + [Blob(next, payload), NewManifest(next, payload)];
      r := if fault.AfterManifest? then Err(WriteFailed) else Ok(Generation(next, payload));
    }

    /** reconcile_native_biolockout: the E4 record is committed only into an empty store. */
    method SeedNative(native: bytes, fault: Fault) returns (r: Result<Generation, Failure>)
      modifies this`listing
      ensures Advances(old(listing), listing)
      ensures r.Ok? ==> HeadIs(listing, r.value)
      ensures Head(old(listing)) != Ok(None) ==> listing == old(listing)
      ensures Head(old(listing)) == Ok(None) ==> Committed(listing, r) == Commit(old(listing), native, fault)
      ensures Head(old(listing)).Err? ==> r == Err(Head(old(listing)).error)
      ensures Head(old(listing)).Ok? && Head(old(listing)).value.Some? ==> r == Ok(Head(old(listing)).value.value)
    {
      CommitMovesHead(listing, native, fault);
      CommitAdvances(listing, native, fault);
      var current :- Current();
      if current.None? {
        r := Append(native, fault);
      } else {
        r := Ok(current.value);
      }
    }

    /** Without a further reply the command fails. */
    method NextReply() returns (r: Reply)
      modifies this`replies
      ensures r == Answer(old(replies), 0) && forall k: nat :: Answer(replies, k) == Answer(old(replies), k + 1)
    {
      if replies == [] {
        r := Reply(1, None);
      } else {
        r, replies := replies[0], replies[1..];
      }
    }

    method Load(g: Generation) returns (status: int)
      modifies this`replies, this`log
      ensures log == old(log) + [Loaded(g.payload, status)]
      ensures status == Answer(old(replies), 0).status
      ensures forall k: nat :: Answer(replies, k) == Answer(old(replies), k + 1)
    {
      var reply := NextReply();
      status := reply.status;
      log := log + [Loaded(g.payload, status)];
    }

    method Export() returns (r: Result<bytes, Failure>)
      modifies this`replies, this`log
      ensures var answer := Answer(old(replies), 0);
              && log == old(log) + [Exported(answer.status, answer.record)]
              && r == if GoodExport(log[|old(log)|]) then Ok(answer.record.value) else Err(ExportInvalid)
      ensures forall k: nat :: Answer(replies, k) == Answer(old(replies), k + 1)
    {
      var reply := NextReply();
      var e := Exported(reply.status, reply.record);
      log := log + [e];
      r := if GoodExport(e) then Ok(reply.record.value) else Err(ExportInvalid);
    }

    /**
     * load_linux_biolockout, from the head the caller has just read. Normal return is the store
     * head, accepted by the sensor in the last load; a second generation is appended only after a
     * rejected load, with recovery allowed, and holds the sensor's own differing export.
     */
    method LoadHead(current: Generation, recover: bool, fault: Fault) returns (r: Result<Generation, Failure>)
      requires HeadIs(listing, current)
      modifies this`listing, this`replies, this`log
      ensures Advances(old(listing), listing) && old(log) < log
      ensures log[|old(log)|].Loaded? && log[|old(log)|].payload == current.payload
      ensures r.Ok? ==> HeadIs(listing, r.value) && log[|log| - 1] == Loaded(r.value.payload, 0)
      ensures r.Ok? ==> (r.value == current <==> log[|old(log)|].status == 0)
      ensures r.Ok? <==> GetsAccepted(old(listing), current, recover, old(replies), fault)
      ensures var first, second := Answer(old(replies), 0), Answer(old(replies), 1);
              if first.status != 0 && recover && ExportsNew(second, current.payload) then
                RecoveredFrom(old(listing), listing, old(log), log, current, fault)
                && (r.Err? ==> var c := Commit(old(listing), second.record.value, fault).result;
                               r.error == if c.Err? then c.error else RecoveredRejected)
              else
                listing == old(listing)
                && (r.Err? ==> r.error == if !recover then LoadRejected
                                          else if second == Reply(0, Some(current.payload)) then ExportIdentical
                                          else ExportInvalid)
    {
      var status := Load(current);
      if status == 0 { return Ok(current); }
      if !recover { return Err(LoadRejected); }
      var exported := Export();
      if exported.Err? { return Err(exported.error); }
      var payload := exported.value;
      if payload == current.payload { return Err(ExportIdentical); }
      CommitMovesHead(listing, payload, fault);
      CommitAdvances(listing, payload, fault);
      var committed := Append(payload, fault);
      if committed.Err? { return Err(committed.error); }
      var recovered := committed.value;
      status := Load(recovered);
      if status != 0 { return Err(RecoveredRejected); }
      r := Ok(recovered);
    }

    /** The probe's rolling-lockout setup: seed when native authority is present, then load the head. */
    method Setup(native: Option<bytes>, seedFault: Fault, fault: Fault) returns (r: Result<Option<Generation>, Failure>)
      modifies this`listing, this`replies, this`log
      ensures Advances(old(listing), listing)
      ensures r.Ok? && r.value.Some? ==> HeadIs(listing, r.value.value)
                                         && log != [] && log[|log| - 1] == Loaded(r.value.value.payload, 0)
      ensures r == Ok(None) <==> native.None? && Head(old(listing)) == Ok(None)
      ensures r != Ok(None) ==>
                var start := Seeded(old(listing), native, seedFault);
                match start.result
                case Err(error) => r == Err(error) && listing == start.listing && log == old(log)
                case Ok(head) => r.Ok? <==> GetsAccepted(start.listing, head, native.Some?, old(replies), fault)
      ensures r == Ok(None) ==> listing == old(listing) && log == old(log)
    {
      if native.Some? {
        var seeded := SeedNative(native.value, seedFault);
        if seeded.Err? { return Err(seeded.error); }
      }
      var current :- Current();
      if current.None? { return Ok(None); }
      var loaded := LoadHead(current.value, native.Some?, fault);
      r := if loaded.Ok? then Ok(Some(loaded.value)) else Err(loaded.error);
    }
  }

  /** The store and its head once native authority has had its chance to seed an empty one. */
  function Seeded(listing: seq<Artifact>, native: Option<bytes>, fault: Fault): Committed
    requires native.Some? || Head(listing) != Ok(None)
  {
    match Head(listing)
    case Err(error) => Committed(listing, Err(error))
    case Ok(Some(head)) => Committed(listing, Ok(head))
    case Ok(None) => Commit(listing, native.value, fault)
  }

  predicate GoodExport(e: Exchange)
    requires e.Exported?
  {
    e.status == 0 && e.record.Some? && MAGIC <= e.record.value
  }

  /** The store grew by a commit of what the sensor exported right after rejecting the old head. */
  ghost predicate RecoveredFrom(before: seq<Artifact>, after: seq<Artifact>, sent: seq<Exchange>, log: seq<Exchange>,
                                current: Generation, fault: Fault) {
    && |log| >= |sent| + 2
    && log[|sent|].Loaded? && log[|sent|].status != 0
    && log[|sent| + 1].Exported? && GoodExport(log[|sent| + 1])
    && log[|sent| + 1].record.value != current.payload
    && after == Commit(before, log[|sent| + 1].record.value, fault).listing
  }
}
