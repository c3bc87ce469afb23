/**
 * The presentation cache of runtime projections. A request checks the cache and otherwise awaits a
 * hardware collection; between its two sections the files, the authority, the sleep state and
 * other requests may all move.
 */
module InventoryCache {
  import opened Wrappers

  /** What the authority token binds; only a native authority has a local state token. */
  datatype Authority = Authority(native: bool, stamp: int)

  /** The world outside the facade: the authority, and the stat token of the committed files if they can be trusted. */
  datatype World = World(authority: Authority, files: Option<int>)

  type Projection = int

  /** What a collection yields, when that is a function of the two tokens. */
  type Collector = (Authority, Option<int>) -> Projection

  function StateToken(a: Authority, w: World): Option<int> {
    if a.native then w.files else None
  }

  /**
   * A request suspended in its collection: the tokens and the generation it took when it began,
   * when it began, and what the collector has read, authority and files at their own times.
   */
  datatype Read = Read(authority: Authority, files: Option<int>, generation: nat, begun: nat, seen: Option<Seen>)

  datatype Seen = Seen(projection: Projection, authorityAt: nat, filesAt: nat)

  datatype Cached = Cached(
    projection: Projection, authority: Authority, files: int,
    begun: nat, stored: nat, generation: nat, seen: Seen)

  /** `worlds` is the history of the world; its last element is now. `generation` counts invalidations. */
  datatype State = State(
    worlds: seq<World>, generation: nat, cache: Option<Cached>, sleeping: bool, pending: map<nat, Read>)
  {
    function Now(): nat
      requires worlds != []
    {
      |worlds| - 1
    }

    function Present(): World
      requires worlds != []
    {
      worlds[|worlds| - 1]
    }
  }

  datatype Action =
    | WorldMoves(world: World)
    | Invalidate
    | SleepChanges(asleep: bool)
    | Begin(request: nat, afresh: bool)
    | Collect(request: nat, authorityAt: nat, filesAt: nat)
    | Fail(request: nat)
    | Complete(request: nat)

  datatype Answer = NoAnswer | Refused | FromCache(projection: Projection) | Collected(projection: Projection)

  function Invalidated(s: State): State {
    s.(generation := s.generation + 1, cache := None)
  }

  predicate Hit(s: State, afresh: bool)
    requires s.worlds != []
  {
    var w := s.Present();
    && !afresh && s.cache.Some? && s.cache.value.authority == w.authority
    && StateToken(w.authority, w) == Some(s.cache.value.files)
  }

  function Without(pending: map<nat, Read>, r: nat): map<nat, Read> {
    map k | k in pending && k != r :: pending[k]
  }

  /** Nothing was invalidated and the state token is the one the request began with. */
  predicate Storable(s: State, read: Read)
    requires s.worlds != []
  {
    && read.generation == s.generation
    && read.files.Some? && read.files == StateToken(read.authority, s.Present())
  }

  /** The section after the collection's await. */
  function Finished(s: State, r: nat): (State, Answer)
    requires s.worlds != [] && r in s.pending && s.pending[r].seen.Some?
  {
    var read, rest := s.pending[r], s.(pending := Without(s.pending, r));
    var p := read.seen.value.projection;
    if s.sleeping then (rest, Refused)
    else if Storable(s, read) then
      var entry := Cached(p, read.authority, read.files.value, read.begun, s.Now(), read.generation, read.seen.value);
      (rest.(cache := Some(entry)), Collected(p))
    else (rest, Collected(p))
  }

  /** The section before it. */
  function Begun(s: State, r: nat, afresh: bool): (State, Answer)
    requires s.worlds != []
  {
    var w := s.Present();
    if s.sleeping then (s, Refused)
    else if Hit(s, afresh) then (s, FromCache(s.cache.value.projection))
    else
      var read := Read(w.authority, StateToken(w.authority, w), s.generation, s.Now(), None);
      (s.(pending := s.pending[r := read]), NoAnswer)
  }

  predicate Enabled(s: State, a: Action) {
    && s.worlds != []
    && match a
       case Begin(r, _) => r !in s.pending
       case Collect(r, x, y) =>
         r in s.pending && s.pending[r].begun <= x <= s.Now() && s.pending[r].begun <= y <= s.Now()
       case Fail(r) => r in s.pending
       case Complete(r) => r in s.pending && s.pending[r].seen.Some?
       case _ => true
  }

  function Apply(f: Collector, s: State, a: Action): (State, Answer)
    requires Enabled(s, a)
  {
    match a
    case WorldMoves(w) => (s.(worlds := s.worlds + [w]), NoAnswer)
    case Invalidate => (Invalidated(s), NoAnswer)
    case SleepChanges(asleep) => (Invalidated(s).(sleeping := asleep), NoAnswer)
    case Begin(r, afresh) => Begun(s, r, afresh)
    case Collect(r, x, y) =>
      var seen := Seen(f(s.worlds[x].authority, s.worlds[y].files), x, y);
      (s.(pending := s.pending[r := s.pending[r].(seen := Some(seen))]), NoAnswer)
    case Fail(r) => (s.(pending := Without(s.pending, r)), Refused)
    case Complete(r) => Finished(s, r)
  }

  // ----------------------------------------------------------------- invariant

  predicate SeenOk(f: Collector, worlds: seq<World>, seen: Seen, from: nat, to: nat) {
    && from <= seen.authorityAt <= to < |worlds| && from <= seen.filesAt <= to
    && seen.projection == f(worlds[seen.authorityAt].authority, worlds[seen.filesAt].files)
  }

  predicate ReadOk(f: Collector, s: State, r: Read) {
    && r.begun < |s.worlds| && r.generation <= s.generation
    && r.authority == s.worlds[r.begun].authority && r.files == StateToken(r.authority, s.worlds[r.begun])
    && (r.seen.Some? ==> SeenOk(f, s.worlds, r.seen.value, r.begun, |s.worlds| - 1))
  }

  /** A cached entry was collected between two equal state tokens, with no invalidation since it began. */
  predicate CacheOk(f: Collector, s: State, c: Cached) {
    && c.begun <= c.stored < |s.worlds| && c.generation == s.generation
    && c.authority.native && c.authority == s.worlds[c.begun].authority
    && s.worlds[c.begun].files == Some(c.files) && s.worlds[c.stored].files == Some(c.files)
    && c.projection == c.seen.projection && SeenOk(f, s.worlds, c.seen, c.begun, c.stored)
  }

  predicate Inv(f: Collector, s: State) {
    && s.worlds != []
    && (forall r :: r in s.pending ==> ReadOk(f, s, s.pending[r]))
    && (s.cache.Some? ==> CacheOk(f, s, s.cache.value))
    && (s.sleeping ==> s.cache.None?)
  }

  lemma ReadsSurvive(f: Collector, s: State, t: State, r: Read)
    requires ReadOk(f, s, r) && s.worlds <= t.worlds && s.generation <= t.generation
    ensures ReadOk(f, t, r)
  {
  }

  lemma CacheSurvives(f: Collector, s: State, t: State, c: Cached)
    requires CacheOk(f, s, c) && s.worlds <= t.worlds && s.generation == t.generation
    ensures CacheOk(f, t, c)
  {
  }

  lemma FinishKeepsInv(f: Collector, s: State, r: nat)
    requires Inv(f, s) && r in s.pending && s.pending[r].seen.Some?
    ensures Inv(f, Finished(s, r).0)
  {
    var t := Finished(s, r).0;
    forall k | k in t.pending ensures ReadOk(f, t, t.pending[k]) {
      ReadsSurvive(f, s, t, s.pending[k]);
    }
    if t.cache != s.cache {
      assert ReadOk(f, s, s.pending[r]);
    }
  }

  lemma StepKeepsInv(f: Collector, s: State, a: Action)
    requires Inv(f, s) && Enabled(s, a)
    ensures Inv(f, Apply(f, s, a).0)
  {
    var t := Apply(f, s, a).0;
    if a.Complete? {
      FinishKeepsInv(f, s, a.request);
    } else {
      forall k | k in t.pending ensures ReadOk(f, t, t.pending[k]) {
        if k in s.pending {
          ReadsSurvive(f, s, t, s.pending[k]);
        }
      }
      if t.cache.Some? {
        CacheSurvives(f, s, t, t.cache.value);
      }
    }
  }

  /** A run of the facade from its start, with an empty cache. */
  ghost predicate StepAt(f: Collector, run: seq<State>, actions: seq<Action>, i: nat)
    requires i + 1 < |run| && i < |actions|
  {
    Enabled(run[i], actions[i]) && run[i + 1] == Apply(f, run[i], actions[i]).0
  }

  predicate Initial(s: State) {
    s.worlds != [] && s.cache.None? && s.pending == map[]
  }

  ghost predicate IsRun(f: Collector, run: seq<State>, actions: seq<Action>) {
    && |run| == |actions| + 1 && Initial(run[0])
    && forall i :: 0 <= i < |actions| ==> StepAt(f, run, actions, i)
  }

  lemma {:induction false} RunKeepsInv(f: Collector, run: seq<State>, actions: seq<Action>, n: nat)
    requires IsRun(f, run, actions) && n < |run|
    ensures Inv(f, run[n])
  {
    if n > 0 {
      RunKeepsInv(f, run, actions, n - 1);
      assert StepAt(f, run, actions, n - 1);
      StepKeepsInv(f, run[n - 1], actions[n - 1]);
    }
  }

  // ------------------------------------------------------ what a hit goes back to

  /** The request q of this run began its collection in state b: at this generation, in this world. */
  ghost predicate BeganAt(run: seq<State>, actions: seq<Action>, b: nat, q: nat, generation: nat, begun: nat) {
    && b < |actions| < |run| && actions[b].Begin? && actions[b].request == q
    && run[b].generation == generation && |run[b].worlds| == begun + 1
  }

  ghost predicate ReadBegan(run: seq<State>, actions: seq<Action>, n: nat, q: nat, r: Read) {
    exists b :: 0 <= b < n && BeganAt(run, actions, b, q, r.generation, r.begun)
  }

  /** It began in b, and its completion in d stored the entry. */
  ghost predicate StoredBy(run: seq<State>, actions: seq<Action>, n: nat, b: nat, d: nat, q: nat, c: Cached) {
    && b < d < n <= |actions| < |run| && BeganAt(run, actions, b, q, c.generation, c.begun)
    && actions[d] == Complete(q) && |run[d].worlds| == c.stored + 1
  }

  ghost predicate CacheBegan(run: seq<State>, actions: seq<Action>, n: nat, c: Cached) {
    exists b, d, q :: StoredBy(run, actions, n, b, d, q, c)
  }

  lemma ReadStaysBegun(run: seq<State>, actions: seq<Action>, n: nat, q: nat, r: Read)
    requires ReadBegan(run, actions, n, q, r)
    ensures ReadBegan(run, actions, n + 1, q, r)
  {
    var b :| 0 <= b < n && BeganAt(run, actions, b, q, r.generation, r.begun);
    assert BeganAt(run, actions, b, q, r.generation, r.begun);
  }

  lemma CacheStaysBegun(run: seq<State>, actions: seq<Action>, n: nat, c: Cached)
    requires CacheBegan(run, actions, n, c) && n < |actions|
    ensures CacheBegan(run, actions, n + 1, c)
  {
    var b, d, q :| StoredBy(run, actions, n, b, d, q, c);
    assert StoredBy(run, actions, n + 1, b, d, q, c);
  }

  lemma StoringStep(run: seq<State>, actions: seq<Action>, n: nat, q: nat, r: Read, c: Cached)
    requires n < |actions| < |run| && ReadBegan(run, actions, n, q, r)
    requires actions[n] == Complete(q) && (c.generation, c.begun) == (r.generation, r.begun)
    requires |run[n].worlds| == c.stored + 1
    ensures CacheBegan(run, actions, n + 1, c)
  {
    var b :| 0 <= b < n && BeganAt(run, actions, b, q, r.generation, r.begun);
    assert StoredBy(run, actions, n + 1, b, n, q, c);
  }

  /** Every pending read and the cache entry go back to requests of this run. */
  lemma {:induction false} RunRemembersBegins(f: Collector, run: seq<State>, actions: seq<Action>, n: nat)
    requires IsRun(f, run, actions) && n < |run|
    ensures forall q :: q in run[n].pending ==> ReadBegan(run, actions, n, q, run[n].pending[q])
    ensures run[n].cache.Some? ==> CacheBegan(run, actions, n, run[n].cache.value)
  {
    if n > 0 {
      var m := n - 1;
      var a, s, t := actions[m], run[m], run[n];
      RunRemembersBegins(f, run, actions, m);
      assert StepAt(f, run, actions, m);
      forall q | q in t.pending ensures ReadBegan(run, actions, n, q, t.pending[q]) {
        PendingBegan(f, run, actions, m, q);
      }
      if t.cache.Some? {
        if t.cache == s.cache {
          CacheStaysBegun(run, actions, m, t.cache.value);
        } else {
          StoringStep(run, actions, m, a.request, s.pending[a.request], t.cache.value);
        }
      }
    }
  }

  lemma PendingBegan(f: Collector, run: seq<State>, actions: seq<Action>, m: nat, q: nat)
    requires m < |actions| < |run| && StepAt(f, run, actions, m) && q in run[m + 1].pending
    requires q in run[m].pending ==> ReadBegan(run, actions, m, q, run[m].pending[q])
    ensures ReadBegan(run, actions, m + 1, q, run[m + 1].pending[q])
  {
    var r := run[m + 1].pending[q];
    if q in run[m].pending {
      var before := run[m].pending[q];
      assert (r.generation, r.begun) == (before.generation, before.begun);
      ReadStaysBegun(run, actions, m, q, before);
      var b :| 0 <= b < m + 1 && BeganAt(run, actions, b, q, before.generation, before.begun);
      assert BeganAt(run, actions, b, q, r.generation, r.begun);
    } else {
      assert BeganAt(run, actions, m, q, r.generation, r.begun);
    }
  }

  predicate Invalidates(a: Action) {
    a.Invalidate? || a.SleepChanges?
  }

  /** The generation counts the invalidations: an equal one means there was none. */
  lemma {:induction false} NoInvalidationBetween(f: Collector, run: seq<State>, actions: seq<Action>, b: nat, n: nat)
    requires IsRun(f, run, actions) && b <= n < |run|
    ensures run[b].generation <= run[n].generation
    ensures run[b].generation == run[n].generation ==> forall k :: b <= k < n ==> !Invalidates(actions[k])
  {
    if b < n {
      NoInvalidationBetween(f, run, actions, b, n - 1);
      assert StepAt(f, run, actions, n - 1);
      GenerationStep(f, run[n - 1], actions[n - 1]);
    }
  }

  lemma GenerationStep(f: Collector, s: State, a: Action)
    requires Enabled(s, a)
    ensures Apply(f, s, a).0.generation == s.generation + if Invalidates(a) then 1 else 0
  {
  }

  /**
   * In every reachable state, a cache hit serves an entry whose state token was the same when its
   * collection began, when it was stored and now; whose authority token is the current one; and
   * whose request began and completed in this run with no invalidation, sleep included, since it
   * began.
   */
  lemma HitIsCurrent(f: Collector, run: seq<State>, actions: seq<Action>, n: nat, r: nat)
    returns (b: nat, d: nat, q: nat)
    requires IsRun(f, run, actions) && n < |run| && run[n].worlds != []
    requires Begun(run[n], r, false).1.FromCache?
    ensures var s, c := run[n], run[n].cache.value;
            && !s.sleeping && Begun(s, r, false) == (s, FromCache(c.projection))
            && CacheOk(f, s, c) && s.worlds[c.begun].authority == s.Present().authority
            && s.worlds[c.begun].files == s.worlds[c.stored].files == s.Present().files
            && StoredBy(run, actions, n, b, d, q, c)
    ensures forall k :: b <= k < n ==> !Invalidates(actions[k])
  {
    RunKeepsInv(f, run, actions, n);
    RunRemembersBegins(f, run, actions, n);
    var c := run[n].cache.value;
    b, d, q :| StoredBy(run, actions, n, b, d, q, c);
    NoInvalidationBetween(f, run, actions, b, n);
  }

  // ------------------------------------------------------- agreement with a fresh read

  predicate StaleHit(f: Collector, s: State) {
    s.worlds != [] && Hit(s, false) && s.cache.value.projection != f(s.Present().authority, s.Present().files)
  }

  /**
   * A collection from i to m would be served now, its authority read at x and its files at y: both
   * tokens are the present ones at i, the state token again at m.
   */
  predicate Servable(ws: seq<World>, i: nat, x: nat, y: nat, m: nat)
    requires ws != []
  {
    var p := ws[|ws| - 1];
    && p.authority.native && p.files.Some?
    && i <= x <= m < |ws| && i <= y <= m
    && ws[i].authority == p.authority && ws[i].files == p.files && ws[m].files == p.files
  }

  /** ... and it yields something else than a collection would now. */
  predicate Differs(f: Collector, ws: seq<World>, x: nat, y: nat)
    requires x < |ws| && y < |ws|
  {
    f(ws[x].authority, ws[y].files) != f(ws[|ws| - 1].authority, ws[|ws| - 1].files)
  }

  ghost predicate ExposedTo(f: Collector, ws: seq<World>)
    requires ws != []
  {
    exists i: nat, x: nat, y: nat, m: nat :: Servable(ws, i, x, y, m) && Differs(f, ws, x, y)
  }

  /** The authority at x, or the files at y, is not the present one. */
  predicate Leaves(ws: seq<World>, x: nat, y: nat)
    requires x < |ws| && y < |ws|
  {
    ws[x].authority != ws[|ws| - 1].authority || ws[y].files != ws[|ws| - 1].files
  }

  /** A token leaves within a servable window. */
  ghost predicate Exposed(ws: seq<World>)
    requires ws != []
  {
    exists i: nat, x: nat, y: nat, m: nat :: Servable(ws, i, x, y, m) && Leaves(ws, x, y)
  }

  ghost predicate Reachable(f: Collector, s: State) {
    exists run, actions :: IsRun(f, run, actions) && run[|run| - 1] == s
  }

  lemma StaleHitIsExposed(f: Collector, s: State)
    requires Reachable(f, s) && StaleHit(f, s)
    ensures ExposedTo(f, s.worlds)
  {
    var run, actions :| IsRun(f, run, actions) && run[|run| - 1] == s;
    RunKeepsInv(f, run, actions, |run| - 1);
    var c := s.cache.value;
    assert Servable(s.worlds, c.begun, c.seen.authorityAt, c.seen.filesAt, c.stored);
    assert Differs(f, s.worlds, c.seen.authorityAt, c.seen.filesAt);
  }

  lemma StartIsReachable(f: Collector, s: State)
    requires Initial(s)
    ensures Reachable(f, s)
  {
    assert IsRun(f, [s], []);
  }

  lemma StepReaches(f: Collector, s: State, a: Action)
    requires Reachable(f, s) && Enabled(s, a)
    ensures Reachable(f, Apply(f, s, a).0)
  {
    var run, actions :| IsRun(f, run, actions) && run[|run| - 1] == s;
    var longer, more := run + [Apply(f, s, a).0], actions + [a];
    forall i | 0 <= i < |more| ensures StepAt(f, longer, more, i) {
      if i < |actions| {
        assert StepAt(f, run, actions, i);
      }
    }
    assert IsRun(f, longer, more);
  }

  lemma PrefixReaches(f: Collector, run: seq<State>, actions: seq<Action>, n: nat)
    requires IsRun(f, run, actions) && n < |run|
    ensures Reachable(f, run[n])
  {
    var shorter, fewer := run[..n + 1], actions[..n];
    forall i | 0 <= i < |fewer| ensures StepAt(f, shorter, fewer, i) {
      assert StepAt(f, run, actions, i);
    }
    assert IsRun(f, shorter, fewer);
  }

  /** The world moves along ws, and nothing else does. */
  lemma {:induction false} WorldReaches(f: Collector, s: State, ws: seq<World>, j: nat, k: nat)
    requires Reachable(f, s) && 0 < j <= k <= |ws| && s.worlds == ws[..j]
    ensures Reachable(f, s.(worlds := ws[..k]))
  {
    if j < k {
      WorldReaches(f, s, ws, j, k - 1);
      var t := s.(worlds := ws[..k - 1]);
      StepReaches(f, t, WorldMoves(ws[k - 1]));
      assert ws[..k - 1] + [ws[k - 1]] == ws[..k];
    } else {
      assert s.(worlds := ws[..k]) == s;
    }
  }

  /** A collection from i to m, read at x and y, is stored and still there at the end of ws. */
  lemma WindowIsServed(f: Collector, ws: seq<World>, i: nat, x: nat, y: nat, m: nat) returns (s: State)
    requires ws != [] && Servable(ws, i, x, y, m)
    ensures Reachable(f, s) && s.worlds == ws && Hit(s, false)
    ensures s.cache.value.projection == f(ws[x].authority, ws[y].files)
  {
    var start := State(ws[..1], 0, None, false, map[]);
    StartIsReachable(f, start);
    WorldReaches(f, start, ws, 1, i + 1);
    var s1 := start.(worlds := ws[..i + 1]);
    StepReaches(f, s1, Begin(0, false));
    var read := Read(ws[i].authority, ws[i].files, 0, i, None);
    var s2 := s1.(pending := map[0 := read]);
    assert s2 == Apply(f, s1, Begin(0, false)).0;
    WorldReaches(f, s2, ws, i + 1, m + 1);
    var s3 := s2.(worlds := ws[..m + 1]);
    s := CollectedAt(f, s3, x, y);
    assert s.worlds == ws[..m + 1];
    WorldReaches(f, s, ws, m + 1, |ws|);
    assert ws[..|ws|] == ws;
    s := s.(worlds := ws);
  }

  /** A suspended request collects and completes: its entry is stored. */
  lemma CollectedAt(f: Collector, s: State, x: nat, y: nat) returns (t: State)
    requires Reachable(f, s) && s.worlds != [] && !s.sleeping && 0 in s.pending
    requires var r := s.pending[0];
             && r.begun <= x < |s.worlds| && r.begun <= y < |s.worlds|
             && r.generation == s.generation && r.files.Some? && r.files == StateToken(r.authority, s.Present())
    ensures Reachable(f, t) && t == s.(pending := t.pending, cache := t.cache) && t.cache.Some?
    ensures t.cache.value.authority == s.pending[0].authority && Some(t.cache.value.files) == s.pending[0].files
    ensures t.cache.value.projection == f(s.worlds[x].authority, s.worlds[y].files)
  {
    StepReaches(f, s, Collect(0, x, y));
    var u := Apply(f, s, Collect(0, x, y)).0;
    StepReaches(f, u, Complete(0));
    t := Apply(f, u, Complete(0)).0;
  }

  /**
   * For every collector and every history of the world: some run over this history ends in a stale
   * hit if and only if the history exposes the cache to it.
   */
  lemma StaleExactlyWhenExposed(f: Collector, ws: seq<World>)
    requires ws != []
    ensures (exists s :: Reachable(f, s) && s.worlds == ws && StaleHit(f, s)) <==> ExposedTo(f, ws)
  {
    if ExposedTo(f, ws) {
      var i: nat, x: nat, y: nat, m: nat :| Servable(ws, i, x, y, m) && Differs(f, ws, x, y);
      var s := WindowIsServed(f, ws, i, x, y, m);
      assert StaleHit(f, s);
    }
    if s :| Reachable(f, s) && s.worlds == ws && StaleHit(f, s) {
      StaleHitIsExposed(f, s);
    }
  }

  lemma ExposedMeansSomeCollector(ws: seq<World>)
    requires ws != []
    ensures (exists f: Collector :: ExposedTo(f, ws)) <==> Exposed(ws)
  {
    if Exposed(ws) {
      var p := ws[|ws| - 1];
      var i: nat, x: nat, y: nat, m: nat :| Servable(ws, i, x, y, m) && Leaves(ws, x, y);
      var f: Collector := (a, t) => if a == p.authority && t == p.files then 0 else 1;
      assert Differs(f, ws, x, y);
      assert ExposedTo(f, ws);
    }
    if f: Collector :| ExposedTo(f, ws) {
      var i: nat, x: nat, y: nat, m: nat :| Servable(ws, i, x, y, m) && Differs(f, ws, x, y);
      assert Leaves(ws, x, y);
    }
  }

  /** Whatever a collection computes, hits are fresh on exactly the histories where no token leaves within a window. */
  lemma FreshExactlyWhenNotExposed(ws: seq<World>)
    requires ws != []
    ensures (forall f: Collector, s | Reachable(f, s) && s.worlds == ws :: !StaleHit(f, s)) <==> !Exposed(ws)
  {
    ExposedMeansSomeCollector(ws);
    if Exposed(ws) {
      var f: Collector :| ExposedTo(f, ws);
      StaleExactlyWhenExposed(f, ws);
    }
    forall f: Collector, s | Reachable(f, s) && s.worlds == ws && StaleHit(f, s) ensures Exposed(ws) {
      StaleHitIsExposed(f, s);
    }
  }

  /** Authorities and file tokens are generations: once left, a value does not come back. */
  predicate NeverRecurs(worlds: seq<World>) {
    forall i, j, k :: 0 <= i <= j <= k < |worlds| ==>
      && (worlds[i].authority == worlds[k].authority ==> worlds[j].authority == worlds[i].authority)
      && (worlds[i].files == worlds[k].files ==> worlds[j].files == worlds[i].files)
  }

  lemma NeverRecursIsNotExposed(ws: seq<World>)
    requires ws != [] && NeverRecurs(ws)
    ensures !Exposed(ws)
  {
    var last := |ws| - 1;
    forall i: nat, x: nat, y: nat, m: nat | Servable(ws, i, x, y, m)
      ensures ws[x].authority == ws[last].authority && ws[y].files == ws[last].files
    {
      assert i <= x <= last && i <= y <= last;
    }
  }

  /** A served projection is what a collection begun and ended right now would give, on every history not exposed. */
  lemma HitEqualsFresh(f: Collector, run: seq<State>, actions: seq<Action>, n: nat, r: nat)
    requires IsRun(f, run, actions) && n < |run| && run[n].worlds != [] && !Exposed(run[n].worlds)
    requires Begun(run[n], r, false).1.FromCache?
    ensures Begun(run[n], r, false).1.projection == f(run[n].Present().authority, run[n].Present().files)
  {
    PrefixReaches(f, run, actions, n);
    if StaleHit(f, run[n]) {
      StaleHitIsExposed(f, run[n]);
      ExposedMeansSomeCollector(run[n].worlds);
    }
  }

  const BEFORE := World(Authority(true, 1), Some(7))
  const DURING := World(Authority(true, 2), Some(7))

  /** The authority token is not re-read after the collection: with an authority that comes back, a hit can be stale. */
  lemma RecurringAuthorityServesStale(f: Collector)
    requires f(Authority(true, 1), Some(7)) != f(Authority(true, 2), Some(7))
    ensures exists s :: Reachable(f, s) && s.worlds == [BEFORE, DURING, BEFORE] && StaleHit(f, s)
  {
    var ws := [BEFORE, DURING, BEFORE];
    assert Servable(ws, 0, 1, 1, 1) && Differs(f, ws, 1, 1);
    StaleExactlyWhenExposed(f, ws);
  }

  // --------------------------------------------------------------- what is answered

  /** A request that is not served from the cache collects, and is answered with what it collected. */
  lemma CompletionAnswers(f: Collector, s: State, r: nat) returns (x: nat, y: nat)
    requires Inv(f, s) && r in s.pending && s.pending[r].seen.Some?
    ensures s.pending[r].begun <= x < |s.worlds| && s.pending[r].begun <= y < |s.worlds|
    ensures Finished(s, r).1 == if s.sleeping then Refused else Collected(f(s.worlds[x].authority, s.worlds[y].files))
    ensures s.sleeping ==> Finished(s, r).0.cache == s.cache
  {
    assert ReadOk(f, s, s.pending[r]);
    x, y := s.pending[r].seen.value.authorityAt, s.pending[r].seen.value.filesAt;
  }

  /** The three steps of a request that nothing disturbs, on the world as it is. */
  function Requested(f: Collector, s: State, r: nat, afresh: bool): (State, Answer)
    requires s.worlds != [] && !s.sleeping && r !in s.pending && (afresh || !Hit(s, afresh))
  {
    var begun := Begun(s, r, afresh).0;
    var collected := Apply(f, begun, Collect(r, s.Now(), s.Now())).0;
    Finished(collected, r)
  }

  /** What the present tokens say a collection is. */
  function Fresh(f: Collector, s: State): Projection
    requires s.worlds != []
  {
    f(s.Present().authority, s.Present().files)
  }

  /**
   * Undisturbed, a request that must collect is answered with a collection of the present world.
   * The answer is cached for the next request exactly when the present authority has a state
   * token, and nothing else changes.
   */
  lemma UndisturbedRequest(f: Collector, s: State, r: nat, afresh: bool)
    requires s.worlds != [] && !s.sleeping && r !in s.pending && (afresh || !Hit(s, afresh))
    ensures var (after, answer) := Requested(f, s, r, afresh);
            && answer == Collected(Fresh(f, s))
            && after == s.(cache := after.cache)
            && (StateToken(s.Present().authority, s.Present()).Some? ==>
                  Hit(after, false) && after.cache.value.projection == Fresh(f, s))
            && (StateToken(s.Present().authority, s.Present()).None? ==> after.cache == s.cache)
  {
    var token := StateToken(s.Present().authority, s.Present());
    var read := Read(s.Present().authority, token, s.generation, s.Now(), None);
    var begun := Begun(s, r, afresh).0;
    assert begun == s.(pending := s.pending[r := read]);
    var after := Requested(f, s, r, afresh).0;
    assert after.pending == s.pending;
  }

  /** While asleep every request is refused; awake, only a hit that was not to be afresh is served from the cache. */
  lemma BeginAnswers(s: State, r: nat, afresh: bool)
    requires s.worlds != []
    ensures Begun(s, r, afresh).1.Refused? <==> s.sleeping
    ensures Begun(s, r, afresh).1.FromCache? <==> !s.sleeping && !afresh && Hit(s, false)
    ensures Begun(s, r, afresh).1.FromCache? ==> Begun(s, r, afresh) == (s, FromCache(s.cache.value.projection))
    ensures Begun(s, r, afresh).1.NoAnswer? ==> r in Begun(s, r, afresh).0.pending
    ensures afresh ==> !Hit(s, afresh)
  {
  }

  /** An invalidation, or a sleep change either way, leaves nothing to be served. */
  lemma InvalidationEmpties(f: Collector, s: State, a: Action)
    requires Enabled(s, a) && Invalidates(a)
    ensures !Hit(Apply(f, s, a).0, false)
    ensures forall r :: r in s.pending ==> r in Apply(f, s, a).0.pending
    ensures a.SleepChanges? ==> Apply(f, s, a).0.sleeping == a.asleep
    ensures a.Invalidate? ==> Apply(f, s, a).0.sleeping == s.sleeping
  {
  }

  // ------------------------------------------------------------------ the facade

  class ProjectionCache {
    var generation: nat
    var cache: Option<Cached>
    var sleeping: bool
    var pending: map<nat, Read>
    /** What the token readers find, over time; no method here changes it. */
    var worlds: seq<World>

    function View(): State
      reads this
    {
      State(worlds, generation, cache, sleeping, pending)
    }

    constructor (world: World)
      ensures Initial(View()) && worlds == [world] && generation == 0 && !sleeping
    {
      generation, cache, sleeping, pending := 0, None, false, map[];
      worlds := [world];
    }

    method InvalidateInventory()
      modifies this`generation, this`cache
      ensures View() == Invalidated(old(View()))
    {
      generation := generation + 1;
      cache := None;
    }

    /** system_sleep_changed, as far as the cache is concerned. */
    method SystemSleepChanged(asleep: bool)
      modifies this`sleeping, this`generation, this`cache
      ensures View() == Invalidated(old(View())).(sleeping := asleep)
    {
      sleeping := asleep;
      InvalidateInventory();
    }

    /** runtime_projection up to its await. */
    method BeginProjection(r: nat, afresh: bool) returns (answer: Answer)
      requires worlds != []
      modifies this`pending
      ensures (View(), answer) == Begun(old(View()), r, afresh)
    {
      if sleeping { return Refused; }
      var w := worlds[|worlds| - 1];
      var files := StateToken(w.authority, w);
      if !afresh && cache.Some? && cache.value.authority == w.authority
         && files.Some? && Some(cache.value.files) == files {
        return FromCache(cache.value.projection);
      }
      pending := pending[r := Read(w.authority, files, generation, |worlds| - 1, None)];
      answer := NoAnswer;
    }

    /** runtime_projection after it: the collection succeeded. */
    method CompleteProjection(r: nat) returns (answer: Answer)
      requires worlds != [] && r in pending && pending[r].seen.Some?
      modifies this`pending, this`cache
      ensures (View(), answer) == Finished(old(View()), r)
    {
      var read := pending[r];
      var seen := read.seen.value;
      pending := Without(pending, r);
      if sleeping { return Refused; }
      var now := |worlds| - 1;
      if read.generation == generation && read.files.Some? && read.files == StateToken(read.authority, worlds[now]) {
        var files := read.files.value;
        cache := Some(Cached(seen.projection, read.authority, files, read.begun, now, read.generation, seen));
      }
      answer := Collected(seen.projection);
    }
  }
}
