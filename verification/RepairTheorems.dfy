/**
 What a release repair keeps (app/navidrome_migration.py:67-339): totals, likes
 and references of every user and row, over all candidates and batches.
 */
module RepairTheorems {
  import opened Wrappers
  import opened Folds
  import opened Totals
  import opened ReleaseRepair

  /** What the join that lists the candidates guarantees: dead releases have no tracks, targets have some. */
  ghost predicate AreCandidates(db: Db, cs: seq<Candidate>) {
    && (forall c :: c in cs ==> c.dead in db.releases && c.dead !in db.members)
    && (forall c :: c in cs ==> c.target in db.releases && c.target in db.members)
  }

  lemma {:induction false} CandidatesDisjoint(db: Db, cs: seq<Candidate>)
    requires AreCandidates(db, cs)
    ensures Disjoint(PairsOf(cs)) && Apart(PairsOf(cs))
  {
    var pairs := PairsOf(cs);
    forall i, j | 0 <= i < |pairs| && 0 <= j < |pairs| ensures pairs[i].dead != pairs[j].target {
      assert cs[i] in cs && cs[j] in cs;
    }
  }

  lemma {:induction false} PairsOfStep(cs: seq<Candidate>)
    requires cs != []
    ensures PairsOf(cs)[..|cs| - 1] == PairsOf(cs[..|cs| - 1])
    ensures PairsOf(cs)[|cs| - 1] == Pair(cs[|cs| - 1].dead, cs[|cs| - 1].target)
  {
  }

  // -------------------------------------------------------------- preferences

  /** The columns of a preference that a merge adds up. */
  datatype Column = PlayCount | CompletionCount | SkipCount | Score

  function Tally(p: Pref, f: Column): real {
    match f
    case PlayCount => p.plays as real
    case CompletionCount => p.completions as real
    case SkipCount => p.skips as real
    case Score => p.score
  }

  ghost function RatedBy(prefs: map<PrefKey, Pref>, u: UserId): set<ReleaseId> {
    set k | k in prefs && k.user == u :: k.release
  }

  ghost function LikedBy(prefs: map<PrefKey, Pref>, u: UserId): set<ReleaseId> {
    set k | k in prefs && k.user == u && prefs[k].liked :: k.release
  }

  /** One column of one user's preferences by release. */
  ghost function Weights(prefs: map<PrefKey, Pref>, u: UserId, f: Column): map<ReleaseId, real> {
    map r | r in RatedBy(prefs, u) :: Tally(prefs[PrefKey(u, r)], f)
  }

  lemma {:induction false} MergedTally(a: Pref, b: Pref, f: Column)
    ensures Tally(Merged(a, b), f) == Tally(a, f) + Tally(b, f)
  {
  }

  /** A user's rows after a merge. */
  lemma {:induction false} MergeAt(prefs: map<PrefKey, Pref>, o: ReleaseId, t: ReleaseId, u: UserId, r: ReleaseId)
    requires o != t
    ensures var after := MergeUsers(prefs, UsersOf(prefs, o), o, t);
            var from, key := PrefKey(u, o), PrefKey(u, r);
            && (key in after <==> r != o && (key in prefs || (r == t && from in prefs)))
            && (key in after ==> after[key] == if r != t || from !in prefs then prefs[key]
                                               else if key in prefs then Merged(prefs[from], prefs[key])
                                                   else prefs[from])
  {
    assert u in UsersOf(prefs, o) <==> PrefKey(u, o) in prefs by {
      if PrefKey(u, o) in prefs {
        assert PrefKey(u, o).user in UsersOf(prefs, o);
      }
    }
  }

  lemma {:induction false} RatedIs(prefs: map<PrefKey, Pref>, u: UserId, r: ReleaseId)
    ensures r in RatedBy(prefs, u) <==> PrefKey(u, r) in prefs
    ensures r in LikedBy(prefs, u) <==> PrefKey(u, r) in prefs && prefs[PrefKey(u, r)].liked
  {
    if PrefKey(u, r) in prefs {
      assert PrefKey(u, r).release in RatedBy(prefs, u);
    }
  }

  lemma {:induction false} MergeShiftsAt(db: Db, c: Candidate, u: UserId, f: Column, r: ReleaseId)
    requires c.dead != c.target
    ensures var after, shifted :=
            Weights(Merge(db, c).prefs, u, f), Shift(Weights(db.prefs, u, f), Pair(c.dead, c.target));
            (r in after <==> r in shifted) && (r in after ==> after[r] == shifted[r])
  {
    RatedIs(db.prefs, u, c.dead);
    RatedIs(db.prefs, u, r);
    RatedIs(Merge(db, c).prefs, u, r);
    MergeAt(db.prefs, c.dead, c.target, u, r);
    if r == c.target && PrefKey(u, c.dead) in db.prefs && PrefKey(u, r) in db.prefs {
      MergedTally(db.prefs[PrefKey(u, c.dead)], db.prefs[PrefKey(u, r)], f);
    }
  }

  lemma {:induction false} MergeShifts(db: Db, c: Candidate, u: UserId, f: Column)
    requires c.dead != c.target
    ensures Weights(Merge(db, c).prefs, u, f) == Shift(Weights(db.prefs, u, f), Pair(c.dead, c.target))
  {
    var after, shifted := Weights(Merge(db, c).prefs, u, f), Shift(Weights(db.prefs, u, f), Pair(c.dead, c.target));
    forall r: ReleaseId ensures (r in after <==> r in shifted) && (r in after ==> after[r] == shifted[r]) {
      MergeShiftsAt(db, c, u, f, r);
    }
  }

  lemma {:induction false} MergeEachShifts(db: Db, cs: seq<Candidate>, u: UserId, f: Column)
    requires Apart(PairsOf(cs))
    ensures Weights(MergeEach(db, cs).prefs, u, f) == ShiftEach(Weights(db.prefs, u, f), PairsOf(cs))
  {
    if cs != [] {
      PairsOfStep(cs);
      MergeEachShifts(db, cs[..|cs| - 1], u, f);
      assert PairsOf(cs)[|cs| - 1].dead != PairsOf(cs)[|cs| - 1].target;
      MergeShifts(MergeEach(db, cs[..|cs| - 1]), cs[|cs| - 1], u, f);
    }
  }

  lemma {:induction false} MergeLikes(db: Db, c: Candidate, u: UserId)
    requires c.dead != c.target
    ensures LikedBy(Merge(db, c).prefs, u) == ImageOne(Pair(c.dead, c.target), LikedBy(db.prefs, u))
  {
    var after, moved := LikedBy(Merge(db, c).prefs, u), ImageOne(Pair(c.dead, c.target), LikedBy(db.prefs, u));
    RatedIs(db.prefs, u, c.dead);
    forall r: ReleaseId ensures r in after <==> r in moved {
      RatedIs(db.prefs, u, r);
      RatedIs(Merge(db, c).prefs, u, r);
      MergeAt(db.prefs, c.dead, c.target, u, r);
    }
  }

  lemma {:induction false} MergeEachLikes(db: Db, cs: seq<Candidate>, u: UserId)
    requires Apart(PairsOf(cs))
    ensures LikedBy(MergeEach(db, cs).prefs, u) == Image(PairsOf(cs), LikedBy(db.prefs, u))
  {
    if cs == [] {
      ImageOfNone(LikedBy(db.prefs, u));
    } else {
      var n := |cs| - 1;
      PairsOfStep(cs);
      MergeEachLikes(db, cs[..n], u);
      assert PairsOf(cs)[n].dead != PairsOf(cs)[n].target;
      MergeLikes(MergeEach(db, cs[..n]), cs[n], u);
      ImageStep(PairsOf(cs), LikedBy(db.prefs, u));
    }
  }

  /** The times of a preference, of which a merge keeps the latest. */
  datatype Moment = LastPlayed | LastCompleted | LastUpdated

  function TimeOf(p: Pref, g: Moment): Option<nat> {
    match g
    case LastPlayed => p.lastPlayed
    case LastCompleted => p.lastCompleted
    case LastUpdated => p.updated
  }

  predicate AtMost(a: Option<nat>, b: Option<nat>) {
    a.Some? ==> b.Some? && a.value <= b.value
  }

  /** The releases a user has rows for that end up at `r`. */
  ghost function Origins(prefs: map<PrefKey, Pref>, u: UserId, pairs: seq<Pair<ReleaseId>>,
                         r: ReleaseId): set<ReleaseId> {
    set s | s in RatedBy(prefs, u) && Goes(pairs, s) == r
  }

  lemma {:induction false} OriginsStep(prefs: map<PrefKey, Pref>, u: UserId, pairs: seq<Pair<ReleaseId>>, r: ReleaseId)
    requires pairs != [] && pairs[|pairs| - 1].dead != pairs[|pairs| - 1].target
    ensures var front, p := pairs[..|pairs| - 1], pairs[|pairs| - 1];
            Origins(prefs, u, pairs, r) ==
            if r == p.dead then {}
            else if r == p.target then Origins(prefs, u, front, r) + Origins(prefs, u, front, p.dead)
            else Origins(prefs, u, front, r)
  {
    hide RatedBy;
  }

  ghost function RowOf(prefs: map<PrefKey, Pref>, u: UserId, r: ReleaseId): Option<Pref> {
    if PrefKey(u, r) in prefs then Some(prefs[PrefKey(u, r)]) else None
  }

  /** The row is there iff it has origins, and its time is the latest of theirs. */
  ghost predicate IsLatest(prefs: map<PrefKey, Pref>, u: UserId, origins: set<ReleaseId>, row: Option<Pref>, g: Moment)
    requires origins <= RatedBy(prefs, u)
  {
    && (row.Some? <==> origins != {})
    && (row.Some? ==>
          && (exists s :: s in origins && TimeOf(prefs[PrefKey(u, s)], g) == TimeOf(row.value, g))
          && (forall s :: s in origins ==> AtMost(TimeOf(prefs[PrefKey(u, s)], g), TimeOf(row.value, g))))
  }

  lemma {:induction false} MergedTime(a: Pref, b: Pref, g: Moment)
    ensures TimeOf(Merged(a, b), g) == Latest(TimeOf(a, g), TimeOf(b, g))
  {
  }

  function JoinedRow(from: Option<Pref>, onto: Option<Pref>): Option<Pref> {
    if from.None? then onto else if onto.None? then from else Some(Merged(from.value, onto.value))
  }

  lemma {:induction false} JoinedLatest(prefs: map<PrefKey, Pref>, u: UserId, g: Moment, there: set<ReleaseId>,
                                        onto: Option<Pref>, moved: set<ReleaseId>, from: Option<Pref>)
    requires there <= RatedBy(prefs, u) && moved <= RatedBy(prefs, u)
    requires IsLatest(prefs, u, there, onto, g) && IsLatest(prefs, u, moved, from, g)
    ensures IsLatest(prefs, u, there + moved, JoinedRow(from, onto), g)
  {
    if from.Some? && onto.Some? {
      MergedTime(from.value, onto.value, g);
      hide TimeOf, Merged;
      var s :| s in there && TimeOf(prefs[PrefKey(u, s)], g) == TimeOf(onto.value, g);
      var d :| d in moved && TimeOf(prefs[PrefKey(u, d)], g) == TimeOf(from.value, g);
      assert s in there + moved && d in there + moved;
    } else {
      assert there + moved == if from.Some? then moved else there;
    }
  }

  lemma {:induction false} MergeRow(db: Db, c: Candidate, u: UserId, r: ReleaseId)
    requires c.dead != c.target
    ensures RowOf(Merge(db, c).prefs, u, r) ==
            if r == c.dead then None
            else if r == c.target then JoinedRow(RowOf(db.prefs, u, c.dead), RowOf(db.prefs, u, r))
            else RowOf(db.prefs, u, r)
  {
    MergeAt(db.prefs, c.dead, c.target, u, r);
    hide MergeUsers, UsersOf, Merged;
  }

  lemma {:induction false} MergeEachLatest(db: Db, cs: seq<Candidate>, u: UserId, g: Moment, r: ReleaseId)
    requires Apart(PairsOf(cs))
    ensures IsLatest(db.prefs, u, Origins(db.prefs, u, PairsOf(cs), r), RowOf(MergeEach(db, cs).prefs, u, r), g)
  {
    if cs == [] {
      RatedIs(db.prefs, u, r);
      assert Origins(db.prefs, u, PairsOf(cs), r) == if r in RatedBy(db.prefs, u) then {r} else {};
    } else {
      var front, c := cs[..|cs| - 1], cs[|cs| - 1];
      PairsOfStep(cs);
      assert PairsOf(cs)[|cs| - 1].dead != PairsOf(cs)[|cs| - 1].target;
      MergeEachLatest(db, front, u, g, r);
      MergeEachLatest(db, front, u, g, c.dead);
      OriginsStep(db.prefs, u, PairsOf(cs), r);
      MergeRow(MergeEach(db, front), c, u, r);
      if r == c.target {
        JoinedLatest(db.prefs, u, g, Origins(db.prefs, u, PairsOf(front), r), RowOf(MergeEach(db, front).prefs, u, r),
                     Origins(db.prefs, u, PairsOf(front), c.dead), RowOf(MergeEach(db, front).prefs, u, c.dead));
      }
      hide JoinedRow, RowOf, Merge, TimeOf, AtMost, Origins, RatedBy, PairsOf;
    }
  }

  /** Over all committed batches each time of a row is the latest of the rows that went there. */
  lemma {:induction false} TimesMove(db: Db, cs: seq<Candidate>, size: nat, k: nat, u: UserId, g: Moment, r: ReleaseId)
    requires AreCandidates(db, cs)
    ensures IsLatest(db.prefs, u, Origins(db.prefs, u, PairsOf(Done(cs, size, k)), r),
            RowOf(Batches(db, cs, size, k).prefs, u, r), g)
  {
    var done := Done(cs, size, k);
    BatchesAre(db, cs, size, k);
    CandidatesDisjoint(db, done);
    MergeEachLatest(db, done, u, g, r);
  }

  /**
   After any number of committed batches each user's play, completion and skip
   counts and score have gone where the candidates send them, nothing is lost,
   and a release is liked exactly when some release that went there was.
   */
  lemma {:induction false} PreferencesMove(db: Db, cs: seq<Candidate>, size: nat, k: nat, u: UserId, f: Column,
                                           r: ReleaseId)
    requires AreCandidates(db, cs)
    ensures var before, after := Weights(db.prefs, u, f), Weights(Batches(db, cs, size, k).prefs, u, f);
            var pairs := PairsOf(Done(cs, size, k));
            && Total(after) == Total(before)
            && (r in after <==> Fibre(before, pairs, r) != map[])
            && (r in after ==> after[r] == Total(Fibre(before, pairs, r)))
    ensures LikedBy(Batches(db, cs, size, k).prefs, u) == Image(PairsOf(Done(cs, size, k)), LikedBy(db.prefs, u))
  {
    var done := Done(cs, size, k);
    BatchesAre(db, cs, size, k);
    CandidatesDisjoint(db, done);
    MergeEachShifts(db, done, u, f);
    ShiftEachKeepsTotal(Weights(db.prefs, u, f), PairsOf(done));
    Pushforward(Weights(db.prefs, u, f), PairsOf(done), r);
    MergeEachLikes(db, done, u);
  }

  // --------------------------------------------------------------- references

  ghost function Redirect<K>(refs: map<K, Option<ReleaseId>>, pairs: seq<Pair<ReleaseId>>): map<K, Option<ReleaseId>> {
    map k | k in refs :: if refs[k].Some? then Some(Goes(pairs, refs[k].value)) else None
  }

  ghost function Sources(sessions: map<nat, Session>): map<nat, Option<ReleaseId>> {
    map k | k in sessions :: sessions[k].source
  }

  ghost function Deads(cs: seq<Candidate>): set<ReleaseId> {
    set c | c in cs :: c.dead
  }

  lemma {:induction false} RedirectStep<K>(refs: map<K, Option<ReleaseId>>, pairs: seq<Pair<ReleaseId>>)
    requires pairs != []
    ensures var p := pairs[|pairs| - 1];
            Redirect(refs, pairs) == Repoint(Redirect(refs, pairs[..|pairs| - 1]), p.dead, p.target)
  {
  }

  lemma {:induction false} RedirectNothing<K>(refs: map<K, Option<ReleaseId>>)
    ensures Redirect(refs, []) == refs
  {
  }

  lemma {:induction false} MergeEachRedirects(db: Db, cs: seq<Candidate>)
    ensures var after, pairs := MergeEach(db, cs), PairsOf(cs);
            && after.events == Redirect(db.events, pairs)
            && after.queue == Redirect(db.queue, pairs)
            && after.external == Redirect(db.external, pairs)
            && Sources(after.sessions) == Redirect(Sources(db.sessions), pairs)
  {
    if cs == [] {
      RedirectNothing(db.events);
      RedirectNothing(db.queue);
      RedirectNothing(db.external);
      RedirectNothing(Sources(db.sessions));
    } else {
      MergeEachRedirects(db, cs[..|cs| - 1]);
      PairsOfStep(cs);
      RedirectStep(db.events, PairsOf(cs));
      RedirectStep(db.queue, PairsOf(cs));
      RedirectStep(db.external, PairsOf(cs));
      RedirectStep(Sources(db.sessions), PairsOf(cs));
      var before, c := MergeEach(db, cs[..|cs| - 1]), cs[|cs| - 1];
      assert Sources(Merge(before, c).sessions) == Repoint(Sources(before.sessions), c.dead, c.target);
    }
  }

  lemma {:induction false} MergeEachDeletes(db: Db, cs: seq<Candidate>)
    requires forall c :: c in cs ==> c.dead !in db.members
    ensures MergeEach(db, cs).members == db.members && MergeEach(db, cs).releases == db.releases - Deads(cs)
  {
    if cs == [] {
      assert db.releases - Deads(cs) == db.releases;
    } else {
      var front, c := cs[..|cs| - 1], cs[|cs| - 1];
      MergeEachDeletes(db, front);
      assert cs == front + [c];
      assert Deads(cs) == Deads(front) + {c.dead};
      assert db.releases - Deads(front) - {c.dead} == db.releases - Deads(cs);
    }
  }

  lemma {:induction false} RewriteKeepsSources(db: Db, pairs: seq<Pair<ReleaseId>>)
    ensures Sources(Rewrite(db, pairs).sessions) == Sources(db.sessions)
  {
  }

  /**
   The committed candidates' dead releases are gone, no other is, and every row that
   named one names where it went.
   */
  lemma {:induction false} ReferencesMove(db: Db, cs: seq<Candidate>, size: nat, k: nat)
    requires AreCandidates(db, cs)
    ensures var after, pairs := Batches(db, cs, size, k), PairsOf(Done(cs, size, k));
            && after.members == db.members
            && after.releases == db.releases - Deads(Done(cs, size, k))
            && after.events == Redirect(db.events, pairs)
            && after.queue == Redirect(db.queue, pairs)
            && after.external == Redirect(db.external, pairs)
            && Sources(after.sessions) == Redirect(Sources(db.sessions), pairs)
  {
    var done := Done(cs, size, k);
    BatchesAre(db, cs, size, k);
    MergeEachRedirects(db, done);
    MergeEachDeletes(db, done);
    RewriteKeepsSources(MergeEach(db, done), Dicts(cs, size, k));
  }

  /**
   A session that started from a dead release takes target and title from the first
   candidate that names it, and only those change.
   */
  lemma {:induction false} SessionFollows(db: Db, cs: seq<Candidate>, id: nat, i: nat)
    requires Disjoint(PairsOf(cs)) && id in db.sessions && i <= |cs|
    requires forall j :: 0 <= j < i ==> db.sessions[id].source != Some(cs[j].dead)
    requires i < |cs| ==> db.sessions[id].source == Some(cs[i].dead)
    ensures id in MergeEach(db, cs).sessions
    ensures MergeEach(db, cs).sessions[id] ==
            if i < |cs| then db.sessions[id].(source := Some(cs[i].target), caption := cs[i].title) else db.sessions[id]
  {
    if cs != [] {
      var n := |cs| - 1;
      PairsOfStep(cs);
      SessionFollows(db, cs[..n], id, if i < n then i else n);
      if i < n {
        assert PairsOf(cs)[n].dead != PairsOf(cs)[i].target;
      }
    }
  }

  /** Nothing goes to a dead release, and what goes to a target stays there. */
  lemma {:induction false} GoesAlive(pairs: seq<Pair<ReleaseId>>, r: ReleaseId, i: nat)
    requires Disjoint(pairs) && i < |pairs|
    ensures Goes(pairs, r) != pairs[i].dead
  {
    if exists j :: 0 <= j < |pairs| && pairs[j].dead == r {
      var j := FirstIndex(pairs, r);
      FirstDecides(pairs, r, j);
    } else {
      FirstDecides(pairs, r, |pairs|);
    }
  }

  ghost function FirstIndex(pairs: seq<Pair<ReleaseId>>, r: ReleaseId): (i: nat)
    requires exists j :: 0 <= j < |pairs| && pairs[j].dead == r
    ensures i < |pairs| && pairs[i].dead == r && forall j :: 0 <= j < i ==> pairs[j].dead != r
  {
    if pairs[0].dead == r then 0
    else
      var j :| 0 <= j < |pairs| && pairs[j].dead == r;
      assert pairs[1..][j - 1].dead == r;
      var i := 1 + FirstIndex(pairs[1..], r);
      assert forall j :: 0 < j < i ==> pairs[j] == pairs[1..][j - 1];
      i
  }

  // ------------------------------------------------------- session dictionaries

  ghost predicate PlaysNames(sessions: map<nat, Session>, o: ReleaseId) {
    exists k :: k in sessions && sessions[k].plays.Some? && o in sessions[k].plays.value
  }

  /** No preference, event, session, queue item, external id or play dictionary names the release. */
  ghost predicate Unnamed(db: Db, o: ReleaseId) {
    && (forall k :: k in db.prefs ==> k.release != o)
    && (forall k :: k in db.events ==> db.events[k] != Some(o))
    && (forall k :: k in db.queue ==> db.queue[k] != Some(o))
    && (forall k :: k in db.external ==> db.external[k] != Some(o))
    && (forall k :: k in db.sessions ==> db.sessions[k].source != Some(o))
    && !PlaysNames(db.sessions, o)
  }

  ghost predicate IsDead<K>(pairs: seq<Pair<K>>, o: K) {
    exists i :: 0 <= i < |pairs| && pairs[i].dead == o
  }

  ghost predicate IsTarget<K>(pairs: seq<Pair<K>>, o: K) {
    exists i :: 0 <= i < |pairs| && pairs[i].target == o
  }

  lemma {:induction false} MovedAway(plays: Plays, pairs: seq<Pair<ReleaseId>>, o: ReleaseId)
    requires !IsTarget(pairs, o) && (IsDead(pairs, o) || o !in plays)
    ensures o !in MoveEach(plays, pairs)
  {
    if pairs != [] {
      var front, p := pairs[..|pairs| - 1], pairs[|pairs| - 1];
      assert p.target != o;
      assert forall i :: 0 <= i < |front| ==> front[i] == pairs[i];
      if p.dead != o {
        MovedAway(plays, front, o);
      }
    }
  }

  lemma {:induction false} PutMembers(dict: seq<Pair<ReleaseId>>, p: Pair<ReleaseId>, q: Pair<ReleaseId>)
    ensures q in Put(dict, p) ==> q == p || q in dict
    ensures p in Put(dict, p)
    ensures q in dict && q.dead != p.dead ==> q in Put(dict, p)
  {
    if dict != [] && dict[0].dead != p.dead {
      PutMembers(dict[1..], p, q);
    }
  }

  /** The dictionary of a batch names the batch's dead releases, each with a target some candidate gives it. */
  lemma {:induction false} DictMembers(cs: seq<Candidate>)
    ensures forall p :: p in DictOf(cs) ==> p in PairsOf(cs)
    ensures forall c :: c in cs ==> IsDead(DictOf(cs), c.dead)
  {
    if cs != [] {
      var n := |cs| - 1;
      var dict, p := DictOf(cs[..n]), Pair(cs[n].dead, cs[n].target);
      DictMembers(cs[..n]);
      PairsOfStep(cs);
      forall q | q in DictOf(cs) ensures q in PairsOf(cs) {
        PutMembers(dict, p, q);
        if q == p {
          assert PairsOf(cs)[n] == q;
        } else {
          assert q in PairsOf(cs)[..n];
        }
      }
      forall c | c in cs ensures IsDead(DictOf(cs), c.dead) {
        PutMembers(dict, p, p);
        if c.dead == p.dead {
          var i :| 0 <= i < |DictOf(cs)| && DictOf(cs)[i] == p;
        } else {
          assert c in cs[..n];
          var i :| 0 <= i < |dict| && dict[i].dead == c.dead;
          PutMembers(dict, p, dict[i]);
          var j :| 0 <= j < |DictOf(cs)| && DictOf(cs)[j] == dict[i];
        }
      }
    }
  }

  lemma {:induction false} SlicePairs(cs: seq<Candidate>, size: nat, k: nat, p: Pair<ReleaseId>)
    requires p in PairsOf(Slice(cs, size, k))
    ensures p in PairsOf(cs)
  {
    var i :| 0 <= i < |PairsOf(Slice(cs, size, k))| && PairsOf(Slice(cs, size, k))[i] == p;
    assert PairsOf(cs)[Start(|cs|, size, k) + i] == p;
  }

  lemma {:induction false} DeadJoin<K>(a: seq<Pair<K>>, b: seq<Pair<K>>, o: K)
    ensures IsDead(a + b, o) <==> IsDead(a, o) || IsDead(b, o)
  {
    if IsDead(a, o) {
      var i :| 0 <= i < |a| && a[i].dead == o;
      assert (a + b)[i].dead == o;
    }
    if IsDead(b, o) {
      var i :| 0 <= i < |b| && b[i].dead == o;
      assert (a + b)[|a| + i].dead == o;
    }
  }

  /**
   The dictionaries of the committed batches name the committed candidates' dead
   releases, each with a target some candidate gives it.
   */
  lemma {:induction false} DictsMembers(cs: seq<Candidate>, size: nat, k: nat)
    ensures forall p :: p in Dicts(cs, size, k) ==> p in PairsOf(cs)
    ensures forall c :: c in Done(cs, size, k) ==> IsDead(Dicts(cs, size, k), c.dead)
  {
    if k > 0 {
      hide DictOf, PairsOf, IsDead;
      var now := Slice(cs, size, k - 1);
      DictsMembers(cs, size, k - 1);
      DictMembers(now);
      SliceJoins(cs, size, k);
      forall p | p in DictOf(now) ensures p in PairsOf(cs) {
        SlicePairs(cs, size, k - 1, p);
      }
      forall c | c in Done(cs, size, k) ensures IsDead(Dicts(cs, size, k), c.dead) {
        DeadJoin(Dicts(cs, size, k - 1), DictOf(now), c.dead);
      }
    }
  }

  lemma {:induction false} RedirectedAway<K>(refs: map<K, Option<ReleaseId>>, pairs: seq<Pair<ReleaseId>>, o: ReleaseId)
    requires forall r {:trigger Goes(pairs, r)} :: Goes(pairs, r) != o
    ensures forall k :: k in Redirect(refs, pairs) ==> Redirect(refs, pairs)[k] != Some(o)
  {
  }

  lemma {:induction false} NoReferenceLeft(db: Db, cs: seq<Candidate>, size: nat, k: nat, o: ReleaseId)
    requires AreCandidates(db, cs)
    requires forall r {:trigger Goes(PairsOf(Done(cs, size, k)), r)} :: Goes(PairsOf(Done(cs, size, k)), r) != o
    ensures var after := Batches(db, cs, size, k);
            && (forall k :: k in after.events ==> after.events[k] != Some(o))
            && (forall k :: k in after.queue ==> after.queue[k] != Some(o))
            && (forall k :: k in after.external ==> after.external[k] != Some(o))
            && (forall k :: k in after.sessions ==> after.sessions[k].source != Some(o))
  {
    var after, pairs := Batches(db, cs, size, k), PairsOf(Done(cs, size, k));
    ReferencesMove(db, cs, size, k);
    RedirectedAway(db.events, pairs, o);
    RedirectedAway(db.queue, pairs, o);
    RedirectedAway(db.external, pairs, o);
    RedirectedAway(Sources(db.sessions), pairs, o);
    assert forall j :: j in after.sessions ==> Sources(after.sessions)[j] == after.sessions[j].source;
    hide Redirect, Batches, PairsOf, Done, AreCandidates, Deads;
  }

  /** After the batches that hold a candidate have committed, nothing names its dead release any more. */
  lemma {:induction false} NothingNamesTheDead(db: Db, cs: seq<Candidate>, size: nat, k: nat, c: Candidate)
    requires AreCandidates(db, cs) && c in Done(cs, size, k)
    ensures Unnamed(Batches(db, cs, size, k), c.dead)
    ensures c.dead !in Batches(db, cs, size, k).releases && c.target in Batches(db, cs, size, k).releases
  {
    var done := Done(cs, size, k);
    var pairs := PairsOf(done);
    CandidatesDisjoint(db, done);
    var i :| 0 <= i < |done| && done[i] == c;
    assert pairs[i].dead == c.dead;
    forall r: ReleaseId ensures Goes(pairs, r) != c.dead {
      GoesAlive(pairs, r, i);
    }
    DeadGone(db, cs, size, k, c);
    hide Batches, PairsOf, Done, AreCandidates;
    NoReferenceLeft(db, cs, size, k, c.dead);
    forall key | key in Batches(db, cs, size, k).prefs ensures key.release != c.dead {
      NoPreferenceLeft(db, cs, size, k, key, c.dead);
    }
    NoPlaysLeft(db, cs, size, k, c);
  }

  lemma {:induction false} DeadGone(db: Db, cs: seq<Candidate>, size: nat, k: nat, c: Candidate)
    requires AreCandidates(db, cs) && c in Done(cs, size, k)
    ensures c.dead !in Batches(db, cs, size, k).releases && c.target in Batches(db, cs, size, k).releases
  {
    ReferencesMove(db, cs, size, k);
    hide Batches, PairsOf, Redirect;
    assert c in cs;
    assert forall d :: d in Done(cs, size, k) ==> d in cs;
  }

  lemma {:induction false} NoPreferenceLeft(db: Db, cs: seq<Candidate>, size: nat, k: nat, key: PrefKey, o: ReleaseId)
    requires AreCandidates(db, cs) && key in Batches(db, cs, size, k).prefs
    requires forall r {:trigger Goes(PairsOf(Done(cs, size, k)), r)} :: Goes(PairsOf(Done(cs, size, k)), r) != o
    ensures key.release != o
  {
    RatedIs(Batches(db, cs, size, k).prefs, key.user, key.release);
    PreferencesMove(db, cs, size, k, key.user, PlayCount, key.release);
    var fibre := Fibre(Weights(db.prefs, key.user, PlayCount), PairsOf(Done(cs, size, k)), key.release);
    var r :| r in fibre;
  }

  lemma {:induction false} NoPlaysLeft(db: Db, cs: seq<Candidate>, size: nat, k: nat, c: Candidate)
    requires AreCandidates(db, cs) && c in Done(cs, size, k)
    ensures !PlaysNames(Batches(db, cs, size, k).sessions, c.dead)
  {
    var dicts := Dicts(cs, size, k);
    BatchesAre(db, cs, size, k);
    DictsMembers(cs, size, k);
    CandidatesDisjoint(db, cs);
    assert c in cs;
    var i :| 0 <= i < |cs| && cs[i] == c;
    assert PairsOf(cs)[i].dead == c.dead;
    forall j | 0 <= j < |dicts| ensures dicts[j].target != c.dead {
      assert dicts[j] in PairsOf(cs);
    }
    forall plays ensures c.dead !in MoveEach(plays, dicts) {
      MovedAway(plays, dicts, c.dead);
    }
  }

  // ----------------------------------------------------- play counts of sessions

  ghost function PlayWeights(plays: Plays): map<ReleaseId, real> {
    map r | r in plays :: plays[r].Weight()
  }

  /** A count moves onto a value that is neither a number nor null: the code drops it. */
  ghost predicate Clash(plays: Plays, p: Pair<ReleaseId>) {
    && p.dead in plays && plays[p.dead].Weight() != 0.0
    && p.target in plays && plays[p.target].Other?
  }

  ghost predicate ClashAt(plays: Plays, pairs: seq<Pair<ReleaseId>>, r: ReleaseId) {
    exists i :: 0 <= i < |pairs| && pairs[i].target == r && Clash(plays, pairs[i])
  }

  /** Every dead key once, every target once, and no target is dead. */
  ghost predicate OneToOne(pairs: seq<Pair<ReleaseId>>) {
    && Disjoint(pairs)
    && (forall i, j :: 0 <= i < j < |pairs| ==> pairs[i].dead != pairs[j].dead)
    && (forall i, j :: 0 <= i < j < |pairs| ==> pairs[i].target != pairs[j].target)
  }

  lemma {:induction false} MoveShiftsAt(plays: Plays, m: map<ReleaseId, real>, p: Pair<ReleaseId>, r: ReleaseId)
    requires p.dead != p.target && m.Keys == plays.Keys
    requires p.dead in m ==> m[p.dead] == plays[p.dead].Weight()
    requires p.target in m ==> m[p.target] == plays[p.target].Weight()
    ensures var after, shifted := Move(plays, p), Shift(m, p);
            && after.Keys == shifted.Keys
            && (r in after && r == p.target ==> (after[r].Weight() == shifted[r] <==> !Clash(plays, p)))
            && (r in after && r != p.target ==> after[r] == plays[r] && shifted[r] == m[r])
  {
  }

  lemma {:induction false} Untouched(plays: Plays, pairs: seq<Pair<ReleaseId>>, r: ReleaseId)
    requires !IsDead(pairs, r) && !IsTarget(pairs, r)
    ensures var after, shifted := MoveEach(plays, pairs), ShiftEach(PlayWeights(plays), pairs);
            && (r in after <==> r in plays) && (r in shifted <==> r in plays)
            && (r in plays ==> after[r] == plays[r] && shifted[r] == plays[r].Weight())
  {
    if pairs != [] {
      var n := |pairs| - 1;
      assert pairs[n].dead != r && pairs[n].target != r;
      assert forall i :: 0 <= i < n ==> pairs[..n][i] == pairs[i];
      Untouched(plays, pairs[..n], r);
    }
  }

  /**
   The rewrite gives a key the sum of the counts sent there exactly when none of them
   meets a value of another kind.
   */
  lemma {:induction false} MovesExactly(plays: Plays, pairs: seq<Pair<ReleaseId>>, r: ReleaseId)
    requires OneToOne(pairs)
    ensures var after, shifted := MoveEach(plays, pairs), ShiftEach(PlayWeights(plays), pairs);
            && after.Keys == shifted.Keys
            && (r in after ==> (after[r].Weight() == shifted[r] <==> !ClashAt(plays, pairs, r)))
  {
    if pairs != [] {
      var n := |pairs| - 1;
      var front, p := pairs[..n], pairs[n];
      assert forall i :: 0 <= i < n ==> front[i] == pairs[i];
      MovesExactly(plays, front, r);
      Untouched(plays, front, p.dead);
      Untouched(plays, front, p.target);
      MoveShiftsAt(MoveEach(plays, front), ShiftEach(PlayWeights(plays), front), p, r);
      assert ClashAt(plays, pairs, r) <==> ClashAt(plays, front, r) || (p.target == r && Clash(plays, p));
      if p.target == r {
        assert !ClashAt(plays, front, r);
      }
    }
  }

  ghost predicate TargetsDistinct(cs: seq<Candidate>) {
    forall i, j :: 0 <= i < j < |cs| ==> cs[i].target != cs[j].target
  }

  lemma {:induction false} PutDistinct(dict: seq<Pair<ReleaseId>>, p: Pair<ReleaseId>)
    requires forall i, j :: 0 <= i < j < |dict| ==> dict[i].dead != dict[j].dead
    ensures forall i, j :: 0 <= i < j < |Put(dict, p)| ==> Put(dict, p)[i].dead != Put(dict, p)[j].dead
  {
    if dict != [] && dict[0].dead != p.dead {
      var rest := Put(dict[1..], p);
      PutDistinct(dict[1..], p);
      forall j | 0 <= j < |rest| ensures rest[j].dead != dict[0].dead {
        PutMembers(dict[1..], p, rest[j]);
      }
    }
  }

  lemma {:induction false} DictDistinct(cs: seq<Candidate>)
    ensures forall i, j :: 0 <= i < j < |DictOf(cs)| ==> DictOf(cs)[i].dead != DictOf(cs)[j].dead
  {
    if cs != [] {
      DictDistinct(cs[..|cs| - 1]);
      PutDistinct(DictOf(cs[..|cs| - 1]), Pair(cs[|cs| - 1].dead, cs[|cs| - 1].target));
    }
  }

  lemma {:induction false} DictOneToOne(cs: seq<Candidate>)
    requires Disjoint(PairsOf(cs)) && TargetsDistinct(cs)
    ensures OneToOne(DictOf(cs))
  {
    var dict, pairs := DictOf(cs), PairsOf(cs);
    DictMembers(cs);
    DictDistinct(cs);
    forall i, j | 0 <= i < |dict| && 0 <= j < |dict|
      ensures dict[i].dead != dict[j].target
      ensures i < j ==> dict[i].target != dict[j].target
    {
      assert dict[i] in pairs && dict[j] in pairs;
      var a :| 0 <= a < |pairs| && pairs[a] == dict[i];
      var b :| 0 <= b < |pairs| && pairs[b] == dict[j];
      assert pairs[a].dead != pairs[b].target;
      if i < j {
        assert pairs[a].dead != pairs[b].dead;
        assert cs[a].target != cs[b].target;
      }
    }
  }

  /** Every key of the rewritten dictionary holds the sum of the counts of all keys sent to it. */
  ghost predicate IsPushforward(plays: Plays, pairs: seq<Pair<ReleaseId>>, after: Plays) {
    && after.Keys == Image(pairs, plays.Keys)
    && forall r :: r in after ==> after[r].Weight() == Total(Fibre(PlayWeights(plays), pairs, r))
  }

  /**
   A batch rewrites a session's play dictionary to its pushforward exactly when no
   count meets a value of another kind.
   */
  lemma {:induction false} PlaysPushForward(plays: Plays, cs: seq<Candidate>)
    requires Disjoint(PairsOf(cs)) && TargetsDistinct(cs)
    ensures IsPushforward(plays, DictOf(cs), MoveEach(plays, DictOf(cs)))
            <==> forall i :: 0 <= i < |DictOf(cs)| ==> !Clash(plays, DictOf(cs)[i])
  {
    var pairs, m := DictOf(cs), PlayWeights(plays);
    var after, shifted := MoveEach(plays, pairs), ShiftEach(m, pairs);
    DictOneToOne(cs);
    forall r: ReleaseId
      ensures r in after <==> r in shifted
      ensures r in shifted <==> r in Image(pairs, plays.Keys)
      ensures r in after ==> (after[r].Weight() == Total(Fibre(m, pairs, r)) <==> !ClashAt(plays, pairs, r))
    {
      MovesExactly(plays, pairs, r);
      Pushforward(m, pairs, r);
      if r in Image(pairs, plays.Keys) {
        var q :| q in plays.Keys && Goes(pairs, q) == r;
        assert q in Fibre(m, pairs, r);
      }
      if r in shifted {
        var q :| q in Fibre(m, pairs, r);
        assert Goes(pairs, q) in Image(pairs, plays.Keys);
      }
    }
    forall i | 0 <= i < |pairs| && Clash(plays, pairs[i])
        ensures ClashAt(plays, pairs, pairs[i].target) && pairs[i].target in after {
      TargetStays(plays, pairs, pairs[i].target);
    }
  }

  lemma {:induction false} TargetStays(plays: Plays, pairs: seq<Pair<ReleaseId>>, r: ReleaseId)
    requires r in plays && !IsDead(pairs, r)
    ensures r in MoveEach(plays, pairs)
  {
    if pairs != [] {
      var n := |pairs| - 1;
      assert pairs[n].dead != r;
      assert forall i :: 0 <= i < n ==> pairs[..n][i] == pairs[i];
      TargetStays(plays, pairs[..n], r);
    }
  }

  ghost predicate Countable(plays: Plays) {
    forall r :: r in plays ==> !plays[r].Other?
  }

  lemma {:induction false} CountableMoves(plays: Plays, pairs: seq<Pair<ReleaseId>>)
    requires Countable(plays) && Apart(pairs)
    ensures Countable(MoveEach(plays, pairs))
    ensures PlayWeights(MoveEach(plays, pairs)) == ShiftEach(PlayWeights(plays), pairs)
  {
    if pairs != [] {
      var n := |pairs| - 1;
      CountableMoves(plays, pairs[..n]);
      var before, p := MoveEach(plays, pairs[..n]), pairs[n];
      forall r ensures r in Move(before, p) ==> Move(before, p)[r].Weight() == Shift(PlayWeights(before), p)[r] {
        MoveShiftsAt(before, PlayWeights(before), p, r);
      }
      MoveShiftsAt(before, PlayWeights(before), p, p.dead);
    }
  }

  /** Over all batches a dictionary of numbers and nulls keeps its total and goes where the dictionaries send it. */
  lemma {:induction false} SessionPlaysKept(db: Db, cs: seq<Candidate>, size: nat, k: nat, id: nat)
    requires AreCandidates(db, cs)
    requires id in db.sessions && db.sessions[id].plays.Some? && Countable(db.sessions[id].plays.value)
    ensures var before, after := db.sessions[id].plays.value, Batches(db, cs, size, k).sessions;
            && id in after && after[id].plays.Some?
            && Total(PlayWeights(after[id].plays.value)) == Total(PlayWeights(before))
            && PlayWeights(after[id].plays.value) == ShiftEach(PlayWeights(before), Dicts(cs, size, k))
  {
    var dicts := Dicts(cs, size, k);
    BatchesAre(db, cs, size, k);
    DictsApart(db, cs, size, k);
    MergeEachKeepsPlays(db, Done(cs, size, k), id);
    CountableMoves(db.sessions[id].plays.value, dicts);
    ShiftEachKeepsTotal(PlayWeights(db.sessions[id].plays.value), dicts);
  }

  lemma {:induction false} DictsApart(db: Db, cs: seq<Candidate>, size: nat, k: nat)
    requires AreCandidates(db, cs)
    ensures Disjoint(Dicts(cs, size, k)) && Apart(Dicts(cs, size, k))
  {
    var dicts, pairs := Dicts(cs, size, k), PairsOf(cs);
    CandidatesDisjoint(db, cs);
    DictsMembers(cs, size, k);
    forall i, j | 0 <= i < |dicts| && 0 <= j < |dicts| ensures dicts[i].dead != dicts[j].target {
      assert dicts[i] in pairs && dicts[j] in pairs;
    }
  }

  lemma {:induction false} MergeEachKeepsPlays(db: Db, cs: seq<Candidate>, id: nat)
    requires id in db.sessions
    ensures id in MergeEach(db, cs).sessions && MergeEach(db, cs).sessions[id].plays == db.sessions[id].plays
  {
    if cs != [] {
      MergeEachKeepsPlays(db, cs[..|cs| - 1], id);
    }
  }

  // ---------------------------------------------------------------- batch size

  ghost predicate DeadsDistinct(cs: seq<Candidate>) {
    forall i, j :: 0 <= i < j < |cs| ==> cs[i].dead != cs[j].dead
  }

  /** Runs that have committed the same candidates left the same tables, whatever their batch sizes. */
  ghost predicate SizeFree(cs: seq<Candidate>) {
    forall db, s, k, size, n {:trigger Batches(db, cs, s, k), Batches(db, cs, size, n)} ::
      AreCandidates(db, cs) && Done(cs, s, k) == Done(cs, size, n) ==> Batches(db, cs, s, k) == Batches(db, cs, size, n)
  }

  lemma {:induction false} PutNew(dict: seq<Pair<ReleaseId>>, p: Pair<ReleaseId>)
    requires !IsDead(dict, p.dead)
    ensures Put(dict, p) == dict + [p]
  {
    if dict != [] {
      assert dict[0].dead != p.dead;
      assert forall i :: 0 <= i < |dict[1..]| ==> dict[1..][i] == dict[i + 1];
      PutNew(dict[1..], p);
    }
  }

  lemma {:induction false} DistinctDict(cs: seq<Candidate>)
    requires DeadsDistinct(cs)
    ensures DictOf(cs) == PairsOf(cs)
  {
    if cs != [] {
      DistinctDict(cs[..|cs| - 1]);
      PairsOfStep(cs);
      PutNew(DictOf(cs[..|cs| - 1]), PairsOf(cs)[|cs| - 1]);
    }
  }

  lemma {:induction false} SliceDistinct(cs: seq<Candidate>, size: nat, k: nat)
    requires DeadsDistinct(cs)
    ensures DeadsDistinct(Slice(cs, size, k))
  {
  }

  lemma {:induction false} PairsOfJoin(a: seq<Candidate>, b: seq<Candidate>)
    ensures PairsOf(a) + PairsOf(b) == PairsOf(a + b)
  {
  }

  lemma {:induction false} DistinctNext(done: seq<Candidate>, now: seq<Candidate>)
    requires DeadsDistinct(now)
    ensures PairsOf(done) + DictOf(now) == PairsOf(done + now)
  {
    DistinctDict(now);
    PairsOfJoin(done, now);
  }

  lemma {:induction false} DistinctDicts(cs: seq<Candidate>, size: nat, k: nat)
    requires DeadsDistinct(cs)
    ensures Dicts(cs, size, k) == PairsOf(Done(cs, size, k))
  {
    if k > 0 {
      DistinctDicts(cs, size, k - 1);
      SliceDistinct(cs, size, k - 1);
      SliceJoins(cs, size, k);
      DistinctNext(Done(cs, size, k - 1), Slice(cs, size, k - 1));
    }
  }

  /** With distinct dead releases all batches are one repair of the candidates they hold. */
  lemma {:induction false} OneRepair(db: Db, cs: seq<Candidate>, size: nat, k: nat)
    requires DeadsDistinct(cs)
    ensures Batches(db, cs, size, k) == Rewrite(MergeEach(db, Done(cs, size, k)), PairsOf(Done(cs, size, k)))
  {
    BatchesAre(db, cs, size, k);
    DistinctDicts(cs, size, k);
  }

  /** Batches of one candidate apply the candidates' pairs in order. */
  lemma {:induction false} SingleDicts(cs: seq<Candidate>, k: nat)
    requires k <= |cs|
    ensures Dicts(cs, 1, k) == PairsOf(cs[..k])
  {
    if k > 0 {
      SingleDicts(cs, k - 1);
      var c := cs[k - 1];
      StartByOnes(|cs|, k - 1);
      StartByOnes(|cs|, k);
      assert Slice(cs, 1, k - 1) == [c];
      DistinctDict([c]);
      assert PairsOf([c]) == [Pair(c.dead, c.target)];
      assert PairsOf(cs[..k]) == PairsOf(cs[..k - 1]) + [Pair(c.dead, c.target)];
    }
  }

  /** The smallest tables that have the candidates, with one session that played the release once. */
  ghost function Witness(cs: seq<Candidate>, d: ReleaseId): Db {
    var targets := set c | c in cs :: c.target;
    var releases := map r | r in targets + Deads(cs) :: "";
    Db(releases, targets, map[], map[], map[0 := Session(None, "", Some(map[d := Number(1.0)]))], map[], map[])
  }

  lemma {:induction false} WitnessFits(cs: seq<Candidate>, d: ReleaseId)
    requires Disjoint(PairsOf(cs))
    ensures AreCandidates(Witness(cs, d), cs)
  {
    forall c | c in cs ensures c.dead !in Witness(cs, d).members {
      var i :| 0 <= i < |cs| && cs[i] == c;
      forall b | b in cs ensures b.target != c.dead {
        var j :| 0 <= j < |cs| && cs[j] == b;
        assert PairsOf(cs)[i].dead != PairsOf(cs)[j].target;
      }
    }
  }

  ghost function One(d: ReleaseId): map<ReleaseId, real> { map[d := 1.0] }

  lemma {:induction false} OnePlayGoes(pairs: seq<Pair<ReleaseId>>, d: ReleaseId, r: ReleaseId)
    requires Apart(pairs)
    ensures r in ShiftEach(One(d), pairs) <==> r == Goes(pairs, d)
  {
    var fibre := Fibre(One(d), pairs, r);
    Pushforward(One(d), pairs, r);
    if r == Goes(pairs, d) {
      assert d in fibre;
    } else {
      assert fibre == map[];
    }
  }

  /** The one play of the witness ends up where the dictionaries send it. */
  lemma {:induction false} WitnessGoes(cs: seq<Candidate>, d: ReleaseId, size: nat, k: nat, r: ReleaseId)
    requires Disjoint(PairsOf(cs))
    ensures var after := Batches(Witness(cs, d), cs, size, k).sessions;
            0 in after && after[0].plays.Some? && (r in after[0].plays.value <==> r == Goes(Dicts(cs, size, k), d))
  {
    var db := Witness(cs, d);
    WitnessFits(cs, d);
    assert PlayWeights(db.sessions[0].plays.value) == One(d);
    SessionPlaysKept(db, cs, size, k, 0);
    DictsApart(db, cs, size, k);
    var plays := Batches(db, cs, size, k).sessions[0].plays.value;
    OnePlayGoes(Dicts(cs, size, k), d, r);
    assert r in plays <==> r in PlayWeights(plays);
  }

  /** In one dictionary the last candidate decides. */
  lemma {:induction false} LastInDict(cs: seq<Candidate>)
    requires cs != [] && Disjoint(PairsOf(cs)) && TargetsDistinct(cs)
    ensures Goes(DictOf(cs), cs[|cs| - 1].dead) == cs[|cs| - 1].target
  {
    var p, dict := Pair(cs[|cs| - 1].dead, cs[|cs| - 1].target), DictOf(cs);
    PutMembers(DictOf(cs[..|cs| - 1]), p, p);
    DictOneToOne(cs);
    var a :| 0 <= a < |dict| && dict[a] == p;
    FirstDecides(dict, p.dead, a);
  }

  /** One by one an earlier candidate decides. */
  lemma {:induction false} FirstInPairs(cs: seq<Candidate>, i: nat)
    requires Disjoint(PairsOf(cs)) && TargetsDistinct(cs)
    requires i < |cs| - 1 && cs[i].dead == cs[|cs| - 1].dead
    ensures Goes(PairsOf(cs), cs[i].dead) != cs[|cs| - 1].target
  {
    var pairs := PairsOf(cs);
    assert pairs[i].dead == cs[i].dead;
    var f := FirstIndex(pairs, cs[i].dead);
    FirstDecides(pairs, cs[i].dead, f);
  }

  /** Taken in one batch a repeated dead release's plays go to the last target; one by one, to the first. */
  lemma {:induction false} RepeatGoes(cs: seq<Candidate>, i: nat, j: nat)
    requires Disjoint(PairsOf(cs)) && TargetsDistinct(cs)
    requires i < j < |cs| && cs[i].dead == cs[j].dead
    ensures Goes(Dicts(cs, j + 1, 1), cs[i].dead) == cs[j].target != Goes(Dicts(cs, 1, j + 1), cs[i].dead)
  {
    var all := cs[..j + 1];
    assert PairsOf(all) == PairsOf(cs)[..j + 1];
    LastInDict(all);
    FirstInPairs(all, i);
    OneBatch(cs, j);
    SingleDicts(cs, j + 1);
  }

  lemma {:induction false} RepeatSplits(cs: seq<Candidate>, i: nat, j: nat)
    requires Disjoint(PairsOf(cs)) && TargetsDistinct(cs)
    requires i < j < |cs| && cs[i].dead == cs[j].dead
    ensures !SizeFree(cs)
  {
    hide Batches, Goes, Dicts, Witness;
    var d, r := cs[i].dead, cs[j].target;
    RepeatGoes(cs, i, j);
    WitnessGoes(cs, d, j + 1, 1, r);
    WitnessGoes(cs, d, 1, j + 1, r);
    WitnessFits(cs, d);
    SameDone(cs, j);
    assert Batches(Witness(cs, d), cs, j + 1, 1) != Batches(Witness(cs, d), cs, 1, j + 1);
  }

  lemma {:induction false} SameDone(cs: seq<Candidate>, j: nat)
    requires j < |cs|
    ensures Done(cs, j + 1, 1) == Done(cs, 1, j + 1)
  {
    StartByOnes(|cs|, j + 1);
    assert Start(|cs|, j + 1, 0) == 0;
  }

  lemma {:induction false} OneBatch(cs: seq<Candidate>, j: nat)
    requires j < |cs|
    ensures Dicts(cs, j + 1, 1) == DictOf(cs[..j + 1])
  {
    assert Slice(cs, j + 1, 0) == cs[..j + 1];
    assert Dicts(cs, j + 1, 0) == [];
  }

  /** The batch size does not matter exactly when no dead release is matched twice. */
  lemma {:induction false} SizeFreeIff(cs: seq<Candidate>)
    requires Disjoint(PairsOf(cs)) && TargetsDistinct(cs)
    ensures SizeFree(cs) <==> DeadsDistinct(cs)
  {
    if DeadsDistinct(cs) {
      forall db, s: nat, k: nat
          ensures Batches(db, cs, s, k) == Rewrite(MergeEach(db, Done(cs, s, k)), PairsOf(Done(cs, s, k))) {
        OneRepair(db, cs, s, k);
      }
    } else {
      var i, j :| 0 <= i < j < |cs| && cs[i].dead == cs[j].dead;
      RepeatSplits(cs, i, j);
    }
  }
}
