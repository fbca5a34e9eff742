/**
 The index cache under any interleaving of its callers and of file
 replacements (app/recommender.py:313-353): a step is one access to shared
 state. Indexes are identified with the file version they were loaded from.
 */
module IndexCache {
  import opened Wrappers

  type Path = nat
  type Version = nat
  type Caller = nat

  /** What `stat` shows of a file version: modification time and size. */
  datatype Stamp = Stamp(mtime: nat, size: nat)

  type Stamps = (Path, Version) -> Stamp

  datatype Key = Key(model: string, path: Path, dim: nat)

  /** A cache entry: the stamp of version `at`, and the index loaded after that stamp was read. */
  datatype Entry = Entry(at: Version, index: Version)

  /** Where a call of `_load_cached_index` stands; `at` is the version its `stat` saw. */
  datatype Call = Idle
                | Looking(key: Key, at: Version)
                | Waiting(key: Key, at: Version)
                | Locked(key: Key, at: Version)
                | Loading(key: Key, at: Version)
                | Storing(key: Key, at: Version, index: Version)
                | Returned(key: Key, at: Version, index: Version, now: Version)

  /** `loads` counts how often a key was loaded from disk. */
  datatype State = State(files: map<Path, Version>, cache: map<Key, Entry>, lock: Option<Caller>,
                         calls: map<Caller, Call>, loads: map<Key, nat>)

  datatype Action = Replace(path: Path) | Begin(c: Caller, key: Key) | Look(c: Caller) | Acquire(c: Caller)
                  | LookAgain(c: Caller) | Load(c: Caller) | Fail(c: Caller) | Store(c: Caller)

  function Start(): State { State(map[], map[], None, map[], map[]) }

  function FileOf(s: State, p: Path): Version { if p in s.files then s.files[p] else 0 }

  function CallOf(s: State, c: Caller): Call { if c in s.calls then s.calls[c] else Idle }

  function LoadsOf(s: State, k: Key): nat { if k in s.loads then s.loads[k] else 0 }

  function Set(s: State, c: Caller, call: Call): State { s.(calls := s.calls[c := call]) }

  /** The cached stamp equals the one this call read. */
  predicate Hit(stamps: Stamps, s: State, key: Key, at: Version) {
    key in s.cache && stamps(key.path, s.cache[key].at) == stamps(key.path, at)
  }

  /** The call returns the cached index. */
  function Return(s: State, c: Caller, key: Key, at: Version): State
    requires key in s.cache
  {
    Set(s, c, Returned(key, at, s.cache[key].index, FileOf(s, key.path)))
  }

  function Replaced(s: State, p: Path): State {
    s.(files := s.files[p := FileOf(s, p) + 1])
  }

  /** `stat`. */
  function Begun(s: State, c: Caller, key: Key): State {
    if CallOf(s, c).Idle? || CallOf(s, c).Returned? then Set(s, c, Looking(key, FileOf(s, key.path))) else s
  }

  /** The first look at the cache. */
  function Looked(stamps: Stamps, s: State, c: Caller): State {
    match CallOf(s, c)
    case Looking(key, at) => if Hit(stamps, s, key, at) then Return(s, c, key, at) else Set(s, c, Waiting(key, at))
    case _ => s
  }

  function Acquired(s: State, c: Caller): State {
    match CallOf(s, c)
    case Waiting(key, at) => if s.lock.None? then Set(s, c, Locked(key, at)).(lock := Some(c)) else s
    case _ => s
  }

  /** The second look, under the lock. */
  function LookedAgain(stamps: Stamps, s: State, c: Caller): State {
    match CallOf(s, c)
    case Locked(key, at) => if Hit(stamps, s, key, at) then Return(s, c, key, at).(lock := None)
        else Set(s, c, Loading(key, at))
    case _ => s
  }

  function Loaded(s: State, c: Caller): State {
    match CallOf(s, c)
    case Loading(key, at) =>
      Set(s, c, Storing(key, at, FileOf(s, key.path))).(loads := s.loads[key := LoadsOf(s, key) + 1])
    case _ => s
  }

  /** Loading raises; leaving the block frees the lock. */
  function Failed(s: State, c: Caller): State {
    match CallOf(s, c)
    case Loading(_, _) => Set(s, c, Idle).(lock := None)
    case _ => s
  }

  /** The entry is stored under the stamp read at the start, and the lock is freed. */
  function Stored(s: State, c: Caller): State {
    match CallOf(s, c)
    case Storing(key, at, index) =>
      Set(s, c, Returned(key, at, index, FileOf(s, key.path))).(cache := s.cache[key := Entry(at, index)], lock := None)
    case _ => s
  }

  /** One step; an action its caller is not ready for does nothing. */
  function Next(stamps: Stamps, s: State, a: Action): State {
    match a
    case Replace(p) => Replaced(s, p)
    case Begin(c, key) => Begun(s, c, key)
    case Look(c) => Looked(stamps, s, c)
    case Acquire(c) => Acquired(s, c)
    case LookAgain(c) => LookedAgain(stamps, s, c)
    case Load(c) => Loaded(s, c)
    case Fail(c) => Failed(s, c)
    case Store(c) => Stored(s, c)
  }

  ghost function Run(stamps: Stamps, actions: seq<Action>): State {
    if actions == [] then Start() else Next(stamps, Run(stamps, actions[..|actions| - 1]), actions[|actions| - 1])
  }

  /** A returned index is no older than the file was at the call's `stat`, nor newer than it is at the return. */
  ghost predicate Fresh(s: State) {
    forall c :: CallOf(s, c).Returned? ==> CallOf(s, c).at <= CallOf(s, c).index <= CallOf(s, c).now
  }

  /** No two versions of a file show the same stamp. */
  ghost predicate NeverRecur(stamps: Stamps) {
    forall p, v, w {:trigger stamps(p, v), stamps(p, w)} :: stamps(p, v) == stamps(p, w) ==> v == w
  }

  // --------------------------------------------------------------- the invariant

  ghost predicate Bounded(s: State, call: Call) {
    match call
    case Idle => true
    case Looking(key, at) => at <= FileOf(s, key.path)
    case Waiting(key, at) => at <= FileOf(s, key.path)
    case Locked(key, at) => at <= FileOf(s, key.path)
    case Loading(key, at) => at <= FileOf(s, key.path)
    case Storing(key, at, index) => at <= index <= FileOf(s, key.path)
    case Returned(_, at, index, now) => at <= index <= now
  }

  /** Stamps are read before indexes, and both no later than now. */
  ghost predicate Ordered(s: State) {
    && (forall k :: k in s.cache ==> s.cache[k].at <= s.cache[k].index <= FileOf(s, k.path))
    && (forall c :: Bounded(s, CallOf(s, c)))
  }

  /** A step of one caller leaves the files and the other calls as they are. */
  lemma {:induction false} OthersBounded(s: State, t: State, c: Caller)
    requires Ordered(s) && t.files == s.files && (forall d :: d != c ==> CallOf(t, d) == CallOf(s, d))
             && Bounded(t, CallOf(t, c))
    ensures forall d :: Bounded(t, CallOf(t, d))
  {
    forall d ensures Bounded(t, CallOf(t, d)) {
      assert Bounded(s, CallOf(s, d));
    }
  }

  lemma {:induction false} ReplacedOrdered(s: State, p: Path)
    requires Ordered(s)
    ensures Ordered(Replaced(s, p))
  {
    forall c ensures Bounded(Replaced(s, p), CallOf(Replaced(s, p), c)) {
      assert Bounded(s, CallOf(s, c));
    }
  }

  lemma {:induction false} BegunOrdered(s: State, c: Caller, key: Key)
    requires Ordered(s)
    ensures Ordered(Begun(s, c, key))
  {
    assert Bounded(s, CallOf(s, c));
    OthersBounded(s, Begun(s, c, key), c);
  }

  lemma {:induction false} LookedOrdered(stamps: Stamps, s: State, c: Caller)
    requires NeverRecur(stamps) && Ordered(s)
    ensures Ordered(Looked(stamps, s, c))
  {
    assert Bounded(s, CallOf(s, c));
    OthersBounded(s, Looked(stamps, s, c), c);
  }

  lemma {:induction false} AcquiredOrdered(s: State, c: Caller)
    requires Ordered(s)
    ensures Ordered(Acquired(s, c))
  {
    assert Bounded(s, CallOf(s, c));
    OthersBounded(s, Acquired(s, c), c);
  }

  lemma {:induction false} LookedAgainOrdered(stamps: Stamps, s: State, c: Caller)
    requires NeverRecur(stamps) && Ordered(s)
    ensures Ordered(LookedAgain(stamps, s, c))
  {
    assert Bounded(s, CallOf(s, c));
    OthersBounded(s, LookedAgain(stamps, s, c), c);
  }

  lemma {:induction false} LoadedOrdered(s: State, c: Caller)
    requires Ordered(s)
    ensures Ordered(Loaded(s, c))
  {
    assert Bounded(s, CallOf(s, c));
    OthersBounded(s, Loaded(s, c), c);
  }

  lemma {:induction false} FailedOrdered(s: State, c: Caller)
    requires Ordered(s)
    ensures Ordered(Failed(s, c))
  {
    assert Bounded(s, CallOf(s, c));
    OthersBounded(s, Failed(s, c), c);
  }

  lemma {:induction false} StoredOrdered(s: State, c: Caller)
    requires Ordered(s)
    ensures Ordered(Stored(s, c))
  {
    assert Bounded(s, CallOf(s, c));
    OthersBounded(s, Stored(s, c), c);
  }

  lemma {:induction false} NextOrdered(stamps: Stamps, s: State, a: Action)
    requires NeverRecur(stamps) && Ordered(s)
    ensures Ordered(Next(stamps, s, a))
  {
    hide Ordered, NeverRecur, Looked, LookedAgain, Begun, Acquired, Loaded, Failed, Stored, Replaced;
    match a
    case Replace(p) => ReplacedOrdered(s, p);
    case Begin(c, key) => BegunOrdered(s, c, key);
    case Look(c) => LookedOrdered(stamps, s, c);
    case Acquire(c) => AcquiredOrdered(s, c);
    case LookAgain(c) => LookedAgainOrdered(stamps, s, c);
    case Load(c) => LoadedOrdered(s, c);
    case Fail(c) => FailedOrdered(s, c);
    case Store(c) => StoredOrdered(s, c);
  }

  lemma {:induction false} RunOrdered(stamps: Stamps, actions: seq<Action>)
    requires NeverRecur(stamps)
    ensures Ordered(Run(stamps, actions))
  {
    if actions == [] {
      assert forall c :: CallOf(Start(), c) == Idle;
    } else {
      RunOrdered(stamps, actions[..|actions| - 1]);
      NextOrdered(stamps, Run(stamps, actions[..|actions| - 1]), actions[|actions| - 1]);
    }
  }

  // -------------------------------------------------------------- freshness exactly

  ghost function Replaces(p: Path, n: nat): seq<Action> {
    seq(n, _ => Replace(p))
  }

  /** The run in which a caller caches version `v` and another asks at version `w`. */
  ghost function StaleRun(key: Key, v: Version, w: Version): seq<Action>
    requires v <= w
  {
    Replaces(key.path, v) + [Begin(0, key), Look(0), Acquire(0), LookAgain(0), Load(0), Store(0)]
    + Replaces(key.path, w - v) + [Begin(1, key), Look(1)]
  }

  lemma {:induction false} RunStep(stamps: Stamps, actions: seq<Action>, a: Action)
    ensures Run(stamps, actions + [a]) == Next(stamps, Run(stamps, actions), a)
  {
    assert (actions + [a])[..|actions|] == actions;
  }

  lemma {:induction false} RunReplaces(stamps: Stamps, actions: seq<Action>, p: Path, n: nat)
    ensures var s, t := Run(stamps, actions), Run(stamps, actions + Replaces(p, n));
            && FileOf(t, p) == FileOf(s, p) + n
            && t.cache == s.cache && t.lock == s.lock && t.calls == s.calls
  {
    if n == 0 {
      assert actions + Replaces(p, 0) == actions;
    } else {
      RunReplaces(stamps, actions, p, n - 1);
      assert actions + Replaces(p, n) == (actions + Replaces(p, n - 1)) + [Replace(p)];
      RunStep(stamps, actions + Replaces(p, n - 1), Replace(p));
    }
  }

  /** The steps of a call that finds nothing cached under its key. */
  function Misses(stamps: Stamps, s: State, c: Caller, key: Key): State {
    Stored(Loaded(LookedAgain(stamps, Acquired(Looked(stamps, Begun(s, c, key), c), c), c), c), c)
  }

  lemma {:induction false} MissesStores(stamps: Stamps, s: State, c: Caller, key: Key)
    requires CallOf(s, c).Idle? && key !in s.cache && s.lock.None?
    ensures var t, v := Misses(stamps, s, c, key), FileOf(s, key.path);
            && t.cache == s.cache[key := Entry(v, v)] && t.lock.None? && t.files == s.files
            && t.calls == s.calls[c := Returned(key, v, v, v)]
  {
    var v := FileOf(s, key.path);
    var s1 := Begun(s, c, key);
    assert CallOf(s1, c) == Looking(key, v);
    var s2 := Looked(stamps, s1, c);
    assert CallOf(s2, c) == Waiting(key, v);
    var s3 := Acquired(s2, c);
    assert CallOf(s3, c) == Locked(key, v);
    var s4 := LookedAgain(stamps, s3, c);
    assert CallOf(s4, c) == Loading(key, v);
    var s5 := Loaded(s4, c);
    assert CallOf(s5, c) == Storing(key, v, v);
  }

  lemma {:induction false} RunMisses(stamps: Stamps, actions: seq<Action>, c: Caller, key: Key)
    ensures Run(stamps, actions + [Begin(c, key), Look(c), Acquire(c), LookAgain(c), Load(c), Store(c)])
            == Misses(stamps, Run(stamps, actions), c, key)
  {
    hide Run, Looked, LookedAgain, Begun, Acquired, Loaded, Stored;
    RunStep(stamps, actions, Begin(c, key));
    RunStep(stamps, actions + [Begin(c, key)], Look(c));
    RunStep(stamps, actions + [Begin(c, key)] + [Look(c)], Acquire(c));
    RunStep(stamps, actions + [Begin(c, key)] + [Look(c)] + [Acquire(c)], LookAgain(c));
    RunStep(stamps, actions + [Begin(c, key)] + [Look(c)] + [Acquire(c)] + [LookAgain(c)], Load(c));
    RunStep(stamps, actions + [Begin(c, key)] + [Look(c)] + [Acquire(c)] + [LookAgain(c)] + [Load(c)], Store(c));
    assert actions + [Begin(c, key)] + [Look(c)] + [Acquire(c)] + [LookAgain(c)] + [Load(c)] + [Store(c)]
        == actions + [Begin(c, key), Look(c), Acquire(c), LookAgain(c), Load(c), Store(c)];
  }

  /** A call that begins at version `w` and finds an entry whose stamp looks the same returns that entry. */
  lemma {:induction false} LooksSame(stamps: Stamps, s: State, c: Caller, key: Key, v: Version, w: Version)
    requires key in s.cache && s.cache[key] == Entry(v, v) && FileOf(s, key.path) == w && CallOf(s, c).Idle?
    requires stamps(key.path, v) == stamps(key.path, w)
    ensures CallOf(Looked(stamps, Begun(s, c, key), c), c) == Returned(key, w, v, w)
  {
    assert CallOf(Begun(s, c, key), c) == Looking(key, w);
  }

  lemma {:induction false} CachedAt(stamps: Stamps, key: Key, v: Version)
    ensures var s :=
            Run(stamps, Replaces(key.path, v) + [Begin(0, key), Look(0), Acquire(0), LookAgain(0), Load(0), Store(0)]);
            key in s.cache && s.cache[key] == Entry(v, v) && FileOf(s, key.path) == v && CallOf(s, 1).Idle?
  {
    var before := Replaces(key.path, v);
    assert [] + before == before;
    RunReplaces(stamps, [], key.path, v);
    assert Run(stamps, []) == Start();
    hide Run, Misses;
    RunMisses(stamps, before, 0, key);
    MissesStores(stamps, Run(stamps, before), 0, key);
  }

  /** A recurring stamp lets a call return an index older than the file was when the call began. */
  lemma {:induction false} RecurringIsStale(stamps: Stamps, key: Key, v: Version, w: Version)
    requires v < w && stamps(key.path, v) == stamps(key.path, w)
    ensures !Fresh(Run(stamps, StaleRun(key, v, w)))
  {
    hide Run, Misses, Begun, Looked;
    var first := Replaces(key.path, v) + [Begin(0, key), Look(0), Acquire(0), LookAgain(0), Load(0), Store(0)];
    var later := first + Replaces(key.path, w - v);
    CachedAt(stamps, key, v);
    RunReplaces(stamps, first, key.path, w - v);
    LooksSame(stamps, Run(stamps, later), 1, key, v, w);
    RunStep(stamps, later, Begin(1, key));
    RunStep(stamps, later + [Begin(1, key)], Look(1));
    assert later + [Begin(1, key)] + [Look(1)] == StaleRun(key, v, w);
  }

  /** The cache is fresh in every run exactly when modification time and size together never recur. */
  lemma {:induction false} FreshIff(stamps: Stamps)
    ensures (forall actions :: Fresh(Run(stamps, actions))) <==> NeverRecur(stamps)
  {
    if NeverRecur(stamps) {
      forall actions ensures Fresh(Run(stamps, actions)) {
        RunOrdered(stamps, actions);
        var s := Run(stamps, actions);
        forall c | CallOf(s, c).Returned? ensures CallOf(s, c).at <= CallOf(s, c).index <= CallOf(s, c).now {
          assert Bounded(s, CallOf(s, c));
        }
      }
    } else {
      var p: Path, v: Version, w: Version :| stamps(p, v) == stamps(p, w) && v != w;
      RecurringIsStale(stamps, Key("", p, 0), if v < w then v else w, if v < w then w else v);
    }
  }

  // ------------------------------------------------------------------ one load

  ghost predicate InSection(call: Call) {
    call.Locked? || call.Loading? || call.Storing?
  }

  /** The lock is held by exactly the call inside the locked block. */
  ghost predicate Exclusive(s: State) {
    forall c: Caller :: InSection(CallOf(s, c)) <==> s.lock == Some(c)
  }

  /**
   The moment from which loads are counted: the file version and the loads then, and
   whether the cache was current.
   */
  datatype Since = Since(version: Version, loads: nat, current: bool)

  /** A call under way for this key has seen this version. */
  ghost predicate AtVersion(call: Call, key: Key, v: Version) {
    !call.Idle? && !call.Returned? && call.key == key ==> call.at == v
  }

  /** A load under way for the key: the caller holding the lock is about to store it. */
  ghost predicate BeingStored(s: State, key: Key) {
    s.lock.Some? && CallOf(s, s.lock.value).Storing? && CallOf(s, s.lock.value).key == key
  }

  ghost predicate BeingLoaded(s: State, key: Key) {
    s.lock.Some? && CallOf(s, s.lock.value).Loading? && CallOf(s, s.lock.value).key == key
  }

  /** While the version stays in place: no caller loads once the cache is current, and one load accounts for it. */
  ghost predicate LoadedOnce(stamps: Stamps, s: State, key: Key, since: Since) {
    && FileOf(s, key.path) == since.version
    && (forall c :: AtVersion(CallOf(s, c), key, since.version))
    && var current := Hit(stamps, s, key, since.version);
       && (current ==> !BeingLoaded(s, key) && !BeingStored(s, key))
       && (since.current ==> current)
       && LoadsOf(s, key) == since.loads + if !since.current && (current || BeingStored(s, key)) then 1 else 0
  }

  /** The step does not replace the key's file, and no load of the key fails in it. */
  ghost predicate Quiet(s: State, a: Action, key: Key) {
    && (a.Replace? ==> a.path != key.path)
    && (a.Fail? && CallOf(s, a.c).Loading? ==> CallOf(s, a.c).key != key)
  }

  ghost predicate QuietFrom(stamps: Stamps, before: seq<Action>, actions: seq<Action>, key: Key) {
    forall k :: 0 <= k < |actions| ==> Quiet(Run(stamps, before + actions[..k]), actions[k], key)
  }

  /** No call for the key is under way. */
  ghost predicate NoneUnderWay(s: State, key: Key) {
    forall c :: CallOf(s, c).Idle? || CallOf(s, c).Returned? || CallOf(s, c).key != key
  }

  /** A step of one caller, with what it does to its own place in the locked block. */
  lemma {:induction false} OneEnters(s: State, t: State, c: Caller)
    requires Exclusive(s) && (forall d :: d != c ==> CallOf(t, d) == CallOf(s, d))
    requires t.lock == if InSection(CallOf(t, c)) then Some(c) else if s.lock == Some(c) then None else s.lock
    requires InSection(CallOf(t, c)) ==> s.lock.None? || s.lock == Some(c)
    ensures Exclusive(t)
  {
    forall d: Caller ensures InSection(CallOf(t, d)) <==> t.lock == Some(d) {
      assert InSection(CallOf(s, d)) <==> s.lock == Some(d);
    }
  }

  lemma {:induction false} OneMoves(s: State, t: State, c: Caller, key: Key, v: Version)
    requires Exclusive(s) && (forall d :: d != c ==> CallOf(t, d) == CallOf(s, d))
    requires t.lock == if InSection(CallOf(t, c)) then Some(c) else if s.lock == Some(c) then None else s.lock
    requires InSection(CallOf(t, c)) ==> s.lock.None? || s.lock == Some(c)
    requires (forall d :: AtVersion(CallOf(s, d), key, v)) && AtVersion(CallOf(t, c), key, v)
    ensures Exclusive(t) && forall d :: AtVersion(CallOf(t, d), key, v)
  {
    OneEnters(s, t, c);
    forall d: Caller ensures AtVersion(CallOf(t, d), key, v) {
      assert AtVersion(CallOf(s, d), key, v);
    }
  }

  /** One caller at a time is in the locked block, whatever happens. */
  lemma {:induction false} NextExclusive(stamps: Stamps, s: State, a: Action)
    requires Exclusive(s)
    ensures Exclusive(Next(stamps, s, a))
  {
    hide Hit;
    if a.Replace? {
      assert forall d: Caller ::
          CallOf(Next(stamps, s, a), d) == CallOf(s, d) && (InSection(CallOf(s, d)) <==> s.lock == Some(d));
    } else {
      var t := Next(stamps, s, a);
      assert InSection(CallOf(s, a.c)) <==> s.lock == Some(a.c);
      assert forall d :: d != a.c ==> CallOf(t, d) == CallOf(s, d);
      OneEnters(s, t, a.c);
    }
  }

  lemma {:induction false} RunExclusive(stamps: Stamps, actions: seq<Action>)
    ensures Exclusive(Run(stamps, actions))
  {
    if actions == [] {
      assert forall c :: CallOf(Start(), c) == Idle;
    } else {
      RunExclusive(stamps, actions[..|actions| - 1]);
      NextExclusive(stamps, Run(stamps, actions[..|actions| - 1]), actions[|actions| - 1]);
    }
  }

  lemma {:induction false} BegunOnce(stamps: Stamps, s: State, c: Caller, k: Key, key: Key, since: Since)
    requires Exclusive(s) && LoadedOnce(stamps, s, key, since)
    ensures Exclusive(Begun(s, c, k)) && LoadedOnce(stamps, Begun(s, c, k), key, since)
  {
    var t := Begun(s, c, k);
    assert AtVersion(CallOf(s, c), key, since.version) && (InSection(CallOf(s, c)) <==> s.lock == Some(c));
    assert forall d :: d != c ==> CallOf(t, d) == CallOf(s, d);
    OneMoves(s, t, c, key, since.version);
  }

  lemma {:induction false} LookedOnce(stamps: Stamps, s: State, c: Caller, key: Key, since: Since)
    requires Exclusive(s) && LoadedOnce(stamps, s, key, since)
    ensures Exclusive(Looked(stamps, s, c)) && LoadedOnce(stamps, Looked(stamps, s, c), key, since)
  {
    var t := Looked(stamps, s, c);
    assert AtVersion(CallOf(s, c), key, since.version) && (InSection(CallOf(s, c)) <==> s.lock == Some(c));
    assert forall d :: d != c ==> CallOf(t, d) == CallOf(s, d);
    OneMoves(s, t, c, key, since.version);
  }

  lemma {:induction false} AcquiredOnce(stamps: Stamps, s: State, c: Caller, key: Key, since: Since)
    requires Exclusive(s) && LoadedOnce(stamps, s, key, since)
    ensures Exclusive(Acquired(s, c)) && LoadedOnce(stamps, Acquired(s, c), key, since)
  {
    var t := Acquired(s, c);
    assert AtVersion(CallOf(s, c), key, since.version) && (InSection(CallOf(s, c)) <==> s.lock == Some(c));
    assert forall d :: d != c ==> CallOf(t, d) == CallOf(s, d);
    OneMoves(s, t, c, key, since.version);
  }

  lemma {:induction false} LookedAgainOnce(stamps: Stamps, s: State, c: Caller, key: Key, since: Since)
    requires Exclusive(s) && LoadedOnce(stamps, s, key, since)
    ensures Exclusive(LookedAgain(stamps, s, c)) && LoadedOnce(stamps, LookedAgain(stamps, s, c), key, since)
  {
    var t := LookedAgain(stamps, s, c);
    assert AtVersion(CallOf(s, c), key, since.version) && (InSection(CallOf(s, c)) <==> s.lock == Some(c));
    assert forall d :: d != c ==> CallOf(t, d) == CallOf(s, d);
    OneMoves(s, t, c, key, since.version);
  }

  lemma {:induction false} LoadStepOnce(stamps: Stamps, s: State, c: Caller, key: Key, since: Since)
    requires Exclusive(s) && LoadedOnce(stamps, s, key, since)
    ensures Exclusive(Loaded(s, c)) && LoadedOnce(stamps, Loaded(s, c), key, since)
  {
    var t := Loaded(s, c);
    assert AtVersion(CallOf(s, c), key, since.version) && (InSection(CallOf(s, c)) <==> s.lock == Some(c));
    assert forall d :: d != c ==> CallOf(t, d) == CallOf(s, d);
    OneMoves(s, t, c, key, since.version);
  }

  lemma {:induction false} StoredOnce(stamps: Stamps, s: State, c: Caller, key: Key, since: Since)
    requires Exclusive(s) && LoadedOnce(stamps, s, key, since)
    ensures Exclusive(Stored(s, c)) && LoadedOnce(stamps, Stored(s, c), key, since)
  {
    var t := Stored(s, c);
    assert AtVersion(CallOf(s, c), key, since.version) && (InSection(CallOf(s, c)) <==> s.lock == Some(c));
    assert forall d :: d != c ==> CallOf(t, d) == CallOf(s, d);
    OneMoves(s, t, c, key, since.version);
  }

  /** A failed load of another key. */
  lemma {:induction false} FailedOnce(stamps: Stamps, s: State, c: Caller, key: Key, since: Since)
    requires Exclusive(s) && LoadedOnce(stamps, s, key, since)
    requires CallOf(s, c).Loading? ==> CallOf(s, c).key != key
    ensures Exclusive(Failed(s, c)) && LoadedOnce(stamps, Failed(s, c), key, since)
  {
    var t := Failed(s, c);
    assert AtVersion(CallOf(s, c), key, since.version) && (InSection(CallOf(s, c)) <==> s.lock == Some(c));
    assert forall d :: d != c ==> CallOf(t, d) == CallOf(s, d);
    OneMoves(s, t, c, key, since.version);
  }

  lemma {:induction false} ReplacedOnce(stamps: Stamps, s: State, p: Path, key: Key, since: Since)
    requires Exclusive(s) && LoadedOnce(stamps, s, key, since) && p != key.path
    ensures Exclusive(Replaced(s, p)) && LoadedOnce(stamps, Replaced(s, p), key, since)
  {
    var t := Replaced(s, p);
    assert forall c: Caller ::
        CallOf(t, c) == CallOf(s, c) && (InSection(CallOf(s, c)) <==> s.lock == Some(c))
            && AtVersion(CallOf(s, c), key, since.version);
  }

  lemma {:induction false} NextLoadedOnce(stamps: Stamps, s: State, a: Action, key: Key, since: Since)
    requires Exclusive(s) && LoadedOnce(stamps, s, key, since) && Quiet(s, a, key)
    ensures Exclusive(Next(stamps, s, a)) && LoadedOnce(stamps, Next(stamps, s, a), key, since)
  {
    hide Exclusive, LoadedOnce, Looked, LookedAgain, Begun, Acquired, Loaded, Failed, Stored, Replaced;
    match a
    case Replace(p) => ReplacedOnce(stamps, s, p, key, since);
    case Begin(c, k) => BegunOnce(stamps, s, c, k, key, since);
    case Look(c) => LookedOnce(stamps, s, c, key, since);
    case Acquire(c) => AcquiredOnce(stamps, s, c, key, since);
    case LookAgain(c) => LookedAgainOnce(stamps, s, c, key, since);
    case Load(c) => LoadStepOnce(stamps, s, c, key, since);
    case Fail(c) => FailedOnce(stamps, s, c, key, since);
    case Store(c) => StoredOnce(stamps, s, c, key, since);
  }

  ghost function SinceNow(stamps: Stamps, s: State, key: Key): Since {
    Since(FileOf(s, key.path), LoadsOf(s, key), Hit(stamps, s, key, FileOf(s, key.path)))
  }

  lemma {:induction false} RunLoadedOnce(stamps: Stamps, before: seq<Action>, actions: seq<Action>, key: Key)
    requires NoneUnderWay(Run(stamps, before), key) && QuietFrom(stamps, before, actions, key)
    ensures var since := SinceNow(stamps, Run(stamps, before), key);
            Exclusive(Run(stamps, before + actions)) && LoadedOnce(stamps, Run(stamps, before + actions), key, since)
  {
    if actions == [] {
      RunExclusive(stamps, before);
      assert before + actions == before;
    } else {
      var n := |actions| - 1;
      assert actions == actions[..n] + [actions[n]];
      assert forall k :: 0 <= k < n ==> actions[..n][..k] == actions[..k] && actions[..n][k] == actions[k];
      RunLoadedOnce(stamps, before, actions[..n], key);
      assert before + actions == (before + actions[..n]) + [actions[n]];
      RunStep(stamps, before + actions[..n], actions[n]);
      hide Run, Next, Exclusive, LoadedOnce, NoneUnderWay, SinceNow, Quiet;
      NextLoadedOnce(stamps, Run(stamps, before + actions[..n]), actions[n], key,
          SinceNow(stamps, Run(stamps, before), key));
    }
  }

  /**
   From any moment of any run in which no call for the key is under way, and while
   its file stays in place and no load of it fails: it is loaded at most once more,
   and not at all if the cached stamp is the file's, however the callers interleave.
   */
  lemma {:induction false} LoadedAtMostOnce(stamps: Stamps, before: seq<Action>, actions: seq<Action>, key: Key)
    requires NoneUnderWay(Run(stamps, before), key) && QuietFrom(stamps, before, actions, key)
    ensures var s, t := Run(stamps, before), Run(stamps, before + actions);
            && Exclusive(t)
            && LoadsOf(s, key) <= LoadsOf(t, key) <= LoadsOf(s, key)
               + if Hit(stamps, s, key, FileOf(s, key.path)) then 0 else 1
  {
    hide Run;
    RunLoadedOnce(stamps, before, actions, key);
  }
}
