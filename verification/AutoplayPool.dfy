/**
 What a refill draws from and in which order (app/autoplay.py:196-306, 364-391,
 417-426, 501-539): stored tracks before new candidates, better ones first.
 */
module AutoplayPool {
  import opened Wrappers
  import opened Caps
  import opened Autoplay

  // ------------------------------------------------------------------- the queue

  /** The items shown are those that are not removed, in order. */
  lemma {:induction false} ListedAre(queue: seq<QueueItem>, x: QueueItem, n: nat)
    requires n <= |queue|
    ensures x in Listed(queue) <==> x in queue && x.status != Removed
    ensures Listed(queue[..n]) <= Listed(queue)
    decreases |queue|
  {
    if queue != [] {
      var m := |queue| - 1;
      assert queue == queue[..m] + [queue[m]];
      ListedAre(queue[..m], x, if n < m then n else m);
      if n <= m {
        assert queue[..m][..n] == queue[..n];
      } else {
        assert queue[..n] == queue;
      }
    }
  }

  lemma {:induction false} OneAdded(s: set<nat>, i: nat)
    requires i !in s
    ensures |s + {i}| == |s| + 1
  {
  }

  ghost function Upcoming(items: seq<QueueItem>, k: nat): set<nat> {
    set i | k < i < |items| && items[i].status == Queued
  }

  lemma {:induction false} UpcomingStep(items: seq<QueueItem>, k: nat)
    requires k + 1 < |items|
    ensures var n := |items| - 1;
            |Upcoming(items, k)| == |Upcoming(items[..n], k)| + if items[n].status == Queued then 1 else 0
  {
    var n := |items| - 1;
    var before := Upcoming(items[..n], k);
    assert Upcoming(items, k) == if items[n].status == Queued then before + {n} else before;
    OneAdded(before, n);
  }

  /** The queued items after a place. */
  lemma {:induction false} QueuedAfter(items: seq<QueueItem>, k: nat)
    ensures QueuedIn(After(items, k)) == |Upcoming(items, k)|
  {
    if k + 1 < |items| {
      var n := |items| - 1;
      var rest := After(items, k);
      assert rest[..|rest| - 1] == After(items[..n], k) && rest[|rest| - 1] == items[n];
      QueuedAfter(items[..n], k);
      UpcomingStep(items, k);
      hide Upcoming, After;
    } else {
      assert Upcoming(items, k) == {} && After(items, k) == [];
    }
  }

  lemma {:induction false} FirstAtIs(items: seq<QueueItem>, id: nat)
    requires exists i :: 0 <= i < |items| && items[i].id == id
    ensures forall i :: 0 <= i < FirstAt(items, id) ==> items[i].id != id
  {
    if items[0].id != id {
      var k :| 0 <= k < |items| && items[k].id == id;
      assert items[1..][k - 1].id == id;
      FirstAtIs(items[1..], id);
      assert forall i :: 1 <= i < |items| ==> items[1..][i - 1] == items[i];
    }
  }

  /** The place of the current item among those shown, or the first place. */
  ghost predicate IsCurrent(items: seq<QueueItem>, current: Option<nat>, k: nat) {
    if current.Some? && exists i :: 0 <= i < |items| && items[i].id == current.value
    then k < |items| && items[k].id == current.value && forall i :: 0 <= i < k ==> items[i].id != current.value
    else k == 0
  }

  /** What is needed: as many as the queued items shown after the current one fall short of the buffer. */
  lemma {:induction false} NeededIs(s: State, visible: nat, k: nat)
    requires IsCurrent(Listed(s.queue), s.current, k)
    ensures var items := Listed(s.queue);
            var upcoming := |Upcoming(items, k)|;
            Needed(s, visible) == if visible < upcoming then 0 else visible - upcoming
  {
    var items := Listed(s.queue);
    hide Listed;
    if s.current.Some? && exists i :: 0 <= i < |items| && items[i].id == s.current.value {
      FirstAtIs(items, s.current.value);
    }
    assert k == CurrentIndex(items, s.current);
    QueuedAfter(items, k);
  }

  // -------------------------------------------------------------------- the pool

  /** A stored entry that may still be queued: well formed, available, and not in the queue. */
  ghost predicate UsableIn(pool: seq<Entry>, live: set<TrackId>, available: set<TrackId>, t: TrackId) {
    Entry(t) in pool && t !in live && t in available
  }

  lemma {:induction false} UsableAre(pool: seq<Entry>, live: set<TrackId>, available: set<TrackId>, t: TrackId, n: nat)
    requires n <= |pool|
    ensures t in Usable(pool, live, available) <==> UsableIn(pool, live, available, t)
    ensures Usable(pool[..n], live, available) <= Usable(pool, live, available)
    decreases |pool|
  {
    if pool != [] {
      var m := |pool| - 1;
      assert pool == pool[..m] + [pool[m]];
      UsableAre(pool[..m], live, available, t, if n < m then n else m);
      if n <= m {
        assert pool[..m][..n] == pool[..n];
      } else {
        assert pool[..n] == pool;
      }
    }
  }

  lemma {:induction false} DedupePrefix(ts: seq<TrackId>, n: nat)
    requires n <= |ts|
    ensures Dedupe(ts[..n]) <= Dedupe(ts)
    decreases |ts|
  {
    if n < |ts| {
      var m := |ts| - 1;
      assert ts[..m][..n] == ts[..n];
      DedupePrefix(ts[..m], n);
    } else {
      assert ts[..n] == ts;
    }
  }

  /** Tracks that are there already, and tracks left out before, make no difference. */
  lemma {:induction false} DedupeParts(a: seq<TrackId>, b: seq<TrackId>)
    ensures Dedupe(Dedupe(a) + Only(b, SetOf(b), SetOf(Dedupe(a)))) == Dedupe(a + b)
  {
    var u := Dedupe(a);
    DedupeDistinct(a);
    DedupeAgain(u);
    DedupeRest(a, b, b);
  }

  lemma {:induction false} DedupeAgain(u: seq<TrackId>)
    requires Distinct(u)
    ensures Dedupe(u) == u
  {
    if u != [] {
      var n := |u| - 1;
      DedupeAgain(u[..n]);
      assert u[n] !in u[..n];
    }
  }

  lemma {:induction false} DedupeStep(ts: seq<TrackId>, x: TrackId)
    ensures Dedupe(ts + [x]) == if x in ts then Dedupe(ts) else Dedupe(ts) + [x]
  {
    assert (ts + [x])[..|ts|] == ts;
    DedupeDistinct(ts);
  }

  lemma {:induction false} OnlyStep(b: seq<TrackId>, x: TrackId, keep: set<TrackId>, drop: set<TrackId>)
    ensures Only(b + [x], keep, drop) == Only(b, keep, drop) + if x in keep && x !in drop then [x] else []
  {
    assert (b + [x])[..|b|] == b;
  }

  lemma {:induction false} DedupeRest(a: seq<TrackId>, b: seq<TrackId>, all: seq<TrackId>)
    requires Dedupe(Dedupe(a)) == Dedupe(a)
    requires forall t :: t in b ==> t in all
    ensures Dedupe(Dedupe(a) + Only(b, SetOf(all), SetOf(Dedupe(a)))) == Dedupe(a + b)
  {
    var u := Dedupe(a);
    if b == [] {
      assert a + b == a && u + [] == u;
    } else {
      var n := |b| - 1;
      var x, front := b[n], Only(b[..n], SetOf(all), SetOf(u));
      assert b == b[..n] + [x] && x in b && x in SetOf(all);
      DedupeRest(a, b[..n], all);
      assert a + b == a + b[..n] + [x];
      hide *;
      SameMembers(u + front, a + b[..n], x);
      DedupeStep(a + b[..n], x);
      OnlyStep(b[..n], x, SetOf(all), SetOf(u));
      RestStep(u, front, x);
      InFirst(a, b[..n], x);
    }
  }

  lemma {:induction false} SameMembers(p: seq<TrackId>, q: seq<TrackId>, x: TrackId)
    requires Dedupe(p) == Dedupe(q)
    ensures x in p <==> x in q
  {
    DedupeDistinct(p);
    DedupeDistinct(q);
  }

  lemma {:induction false} InFirst(a: seq<TrackId>, b: seq<TrackId>, x: TrackId)
    ensures x in SetOf(Dedupe(a)) ==> x in a + b
  {
    DedupeDistinct(a);
  }

  lemma {:induction false} RestStep(u: seq<TrackId>, front: seq<TrackId>, x: TrackId)
    ensures u + (front + []) == u + front
    ensures Dedupe(u + (front + [x])) == if x in u + front then Dedupe(u + front) else Dedupe(u + front) + [x]
  {
    assert u + (front + [x]) == u + front + [x];
    DedupeStep(u + front, x);
  }

  /** Whether new candidates are asked for: the distinct usable tracks are fewer than needed, or below the mark. */
  ghost predicate Short(s: State, env: Env) {
    var stored := |set t | Entry(t) in s.pool && t !in Live(s.queue) && t in env.available|;
    stored < Needed(s, env.visible) || stored < env.low
  }

  /** The tracks a pool is made of, first choice first: usable stored ones, then candidates if they are asked for. */
  ghost function Ranking(s: State, env: Env): seq<TrackId> {
    Usable(s.pool, Live(s.queue), env.available) + if Short(s, env) then Generated(s, env) else []
  }

  lemma {:induction false} DistinctSize(ts: seq<TrackId>)
    requires Distinct(ts)
    ensures |SetOf(ts)| == |ts|
  {
    if ts != [] {
      var n := |ts| - 1;
      DistinctSize(ts[..n]);
      assert SetOf(ts) == SetOf(ts[..n]) + {ts[n]};
      assert ts[n] !in ts[..n];
    }
  }

  lemma {:induction false} ShortTells(s: State, env: Env)
    ensures var usable := Dedupe(Usable(s.pool, Live(s.queue), env.available));
            Short(s, env) <==> |usable| < Needed(s, env.visible) || |usable| < env.low
  {
    hide Needed, Live;
    var live := Live(s.queue);
    var usable := Usable(s.pool, live, env.available);
    DedupeDistinct(usable);
    DistinctSize(Dedupe(usable));
    var stored := set t | Entry(t) in s.pool && t !in live && t in env.available;
    forall t ensures t in stored <==> t in SetOf(Dedupe(usable)) {
      UsableAre(s.pool, live, env.available, t, 0);
    }
    assert stored == SetOf(Dedupe(usable));
  }

  lemma {:induction false} PoolIs(s: State, env: Env)
    ensures var all := Dedupe(Ranking(s, env));
            Pool(s, env) == if env.count < |all| then all[..env.count] else all
  {
    ShortTells(s, env);
    hide Short, Generated, Needed, Live, Usable;
    var usable := Usable(s.pool, Live(s.queue), env.available);
    var generated := if Short(s, env) then Generated(s, env) else [];
    DedupeParts(usable, generated);
    assert Only([], SetOf([]), SetOf(Dedupe(usable))) == [];
    hide Dedupe, Only;
  }

  /**
   The pool takes the tracks of the ranking in order, each once, until it is full:
   its first tracks are exactly those of any first part of the ranking, or it is full
   with such tracks.
   */
  lemma {:induction false} PoolInOrder(s: State, env: Env, n: nat) returns (m: nat)
    requires n <= |Ranking(s, env)|
    ensures m <= |Pool(s, env)|
    ensures || (forall t :: t in Pool(s, env)[..m] <==> t in Ranking(s, env)[..n])
            || (m == |Pool(s, env)| == env.count && forall t :: t in Pool(s, env) ==> t in Ranking(s, env)[..n])
  {
    PoolIs(s, env);
    hide Pool, Ranking, Dedupe;
    var ranking, pool := Ranking(s, env), Pool(s, env);
    var first, all := Dedupe(ranking[..n]), Dedupe(ranking);
    DedupePrefix(ranking, n);
    DedupeDistinct(ranking[..n]);
    m := if |first| <= |pool| then |first| else |pool|;
    assert pool[..m] == first[..m];
    if |first| <= |pool| {
      assert first[..m] == first;
    } else {
      assert forall t :: t in pool ==> t in first;
    }
  }

  // ---------------------------------------------------------------- the reasons

  datatype Reason = ArtistCap | ReleaseCap | Kept

  /** What the caps say of a candidate after the ones kept before it. */
  ghost function ReasonOf(queue: seq<QueueItem>, kept: seq<TrackId>, credits: CreditsOf, perArtist: int,
                          perRelease: int, t: TrackId): Reason {
    var tracks := CreditsAll(Counted(queue) + kept, credits);
    if ArtistAtCap(tracks, credits(t), perArtist) then ArtistCap
    else if ReleaseAtCap(tracks, credits(t), perRelease) then ReleaseCap
    else Reason.Kept
  }

  /** Of how many candidates the caps say this. */
  ghost function Found(queue: seq<QueueItem>, ts: seq<TrackId>, credits: CreditsOf, perArtist: int, perRelease: int,
                       r: Reason): nat {
    if ts == [] then 0
    else
      var front, t := ts[..|ts| - 1], ts[|ts| - 1];
      var kept := Steps(Base(queue, credits), front, credits, Limit(perArtist, perRelease)).kept;
      Found(queue, front, credits, perArtist, perRelease, r)
      + if ReasonOf(queue, kept, credits, perArtist, perRelease, t) == r then 1 else 0
  }

  ghost function Counter(s: Keep, r: Reason): nat {
    match r
    case ArtistCap => s.skippedArtist
    case ReleaseCap => s.skippedRelease
    case Kept => |s.kept|
  }

  lemma {:induction false} StepReason(queue: seq<QueueItem>, s: Keep, t: TrackId, credits: CreditsOf, perArtist: int,
                                      perRelease: int, r: Reason)
    requires Sound(Base(queue, credits), s, credits, Limit(perArtist, perRelease))
    ensures Counter(Step(s, t, credits, Limit(perArtist, perRelease)), r) ==
            Counter(s, r) + if ReasonOf(queue, s.kept, credits, perArtist, perRelease, t) == r then 1 else 0
  {
    CountsAre(queue, s, credits, perArtist, perRelease);
    hide Blocked, Credited, CreditsAll, Counted, LabelLists, Limit, ArtistAtCap, ReleaseAtCap, Sound;
    var tracks := CreditsAll(Counted(queue) + s.kept, credits);
    ArtistsBlocked(tracks, credits(t), perArtist, perRelease);
    ReleaseBlocked(tracks, credits(t), perArtist, perRelease);
  }

  /** Each counter counts the candidates rejected for its cap, and the kept ones are the rest. */
  lemma {:induction false} ReasonsCounted(queue: seq<QueueItem>, ts: seq<TrackId>, credits: CreditsOf, perArtist: int,
                                          perRelease: int, r: Reason)
    ensures Counter(Steps(Base(queue, credits), ts, credits, Limit(perArtist, perRelease)), r)
            == Found(queue, ts, credits, perArtist, perRelease, r)
  {
    var base, cap := Base(queue, credits), Limit(perArtist, perRelease);
    if ts != [] {
      var n := |ts| - 1;
      ReasonsCounted(queue, ts[..n], credits, perArtist, perRelease, r);
      StepsSound(base, ts[..n], credits, cap);
      hide Step, Sound, Counter, ReasonOf, Base, Limit;
      StepReason(queue, Steps(base, ts[..n], credits, cap), ts[n], credits, perArtist, perRelease, r);
    }
  }

  // -------------------------------------------------------------- new candidates

  lemma {:induction false} OnlyInOrder(ts: seq<TrackId>, keep: set<TrackId>, drop: set<TrackId>, i: nat)
    requires i <= |ts|
    ensures Only(ts[..i], keep, drop) <= Only(ts, keep, drop) && Within(Only(ts[..i], keep, drop), ts[..i])
    ensures i < |ts| && ts[i] in keep && ts[i] !in drop ==>
            var j := |Only(ts[..i], keep, drop)|;
            j < |Only(ts, keep, drop)| && Only(ts, keep, drop)[j] == ts[i]
    decreases |ts|
  {
    if ts != [] {
      var m := |ts| - 1;
      if i <= m {
        assert ts[..m][..i] == ts[..i];
        OnlyInOrder(ts[..m], keep, drop, i);
        if i == m {
          assert ts[..m] == ts[..i];
        }
      } else {
        assert ts[..i] == ts;
        OnlyInOrder(ts[..m], keep, drop, m);
        assert ts[..m][..m] == ts[..m] && ts == ts[..m] + [ts[m]];
        WithinGrows(Only(ts[..m], keep, drop), ts[..m], ts[m]);
        assert Only(ts[..m], keep, drop) + [] == Only(ts[..m], keep, drop);
      }
    }
  }

  /**
   At the turn of a ranked neighbour that is available, not in the queue and not
   excluded, only better ranked ones are candidates. Either it is at a cap with those
   and the autoplay items of the session, or it comes next.
   */
  lemma {:induction false} CandidatesInOrder(s: State, env: Env, i: nat) returns (n: nat)
    requires i < |env.ranked| && env.ranked[i] in env.available && env.ranked[i] !in Live(s.queue) + env.excluded
    ensures n <= |Generated(s, env)| && Within(Generated(s, env)[..n], env.ranked[..i])
    ensures || AtCap(CreditsAll(Counted(s.queue) + Generated(s, env)[..n], env.credits), env.credits(env.ranked[i]),
                     env.perArtist, env.perRelease)
            || (n < |Generated(s, env)| && Generated(s, env)[n] == env.ranked[i])
  {
    var keep, drop := env.available, Live(s.queue) + env.excluded;
    var ts := Only(env.ranked, keep, drop);
    var before := Only(env.ranked[..i], keep, drop);
    OnlyInOrder(env.ranked, keep, drop, i);
    hide Only, Live, Counted, AtCap, CreditsAll;
    n := BestFirst(s.queue, ts, env.credits, env.perArtist, env.perRelease, |before|);
    assert ts[..|before|] == before;
    hide Within, Steps;
    WithinThrough(Generated(s, env)[..n], before, env.ranked[..i]);
  }
}
