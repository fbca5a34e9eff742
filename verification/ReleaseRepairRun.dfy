/**
 The release repair as it runs (app/navidrome_migration.py:67-334): loops over
 rows, users, batches and sessions, each proved against what it does to the tables.
 */
module ReleaseRepairRun {
  import opened Wrappers
  import opened Folds
  import opened Totals
  import opened ReleaseRepair
  import opened RepairTheorems

  // ---------------------------------------------------------------- candidates

  /** A row of the candidate join; an empty path is an absent one. */
  datatype Row = Row(dead: ReleaseId, target: ReleaseId, title: string, deadPath: string, currentPath: string)

  ghost predicate Shared(rows: seq<Row>, i: nat)
    requires i < |rows|
  {
    exists j :: 0 <= j < |rows| && j != i && rows[j].target == rows[i].target
  }

  predicate SamePath(row: Row, normalize: string -> string) {
    row.deadPath != "" && row.currentPath != "" && normalize(row.deadPath) == normalize(row.currentPath)
  }

  /** The rows among the first `n` that pass both tests, in order. */
  ghost function Matched(rows: seq<Row>, n: nat, normalize: string -> string): seq<Candidate>
    requires n <= |rows|
  {
    if n == 0 then []
    else
      var before, row := Matched(rows, n - 1, normalize), rows[n - 1];
      if !Shared(rows, n - 1) && SamePath(row, normalize) then before + [Candidate(row.dead, row.target, row.title)]
          else before
  }

  ghost function AllMatched(rows: seq<Row>, normalize: string -> string): seq<Candidate> {
    Matched(rows, |rows|, normalize)
  }

  ghost function Ambiguous(rows: seq<Row>, n: nat): set<nat>
    requires n <= |rows|
  {
    set i | 0 <= i < n && Shared(rows, i)
  }

  ghost function Mismatched(rows: seq<Row>, n: nat, normalize: string -> string): set<nat>
    requires n <= |rows|
  {
    set i | 0 <= i < n && !Shared(rows, i) && !SamePath(rows[i], normalize)
  }

  /** What the join says of each row: the old release has no tracks, the other one has. */
  ghost predicate Joined(db: Db, rows: seq<Row>) {
    forall i :: 0 <= i < |rows| ==>
      && rows[i].dead in db.releases && rows[i].dead !in db.members
      && rows[i].target in db.releases && rows[i].target in db.members
  }

  lemma {:induction false} MatchedComesFrom(rows: seq<Row>, n: nat, normalize: string -> string, k: nat)
    returns (i: nat)
    requires n <= |rows| && k < |Matched(rows, n, normalize)|
    ensures i < n && !Shared(rows, i) && SamePath(rows[i], normalize)
    ensures Matched(rows, n, normalize)[k] == Candidate(rows[i].dead, rows[i].target, rows[i].title)
    ensures |Matched(rows, i, normalize)| == k
  {
    if k < |Matched(rows, n - 1, normalize)| {
      i := MatchedComesFrom(rows, n - 1, normalize, k);
    } else {
      i := n - 1;
    }
  }

  lemma {:induction false} MatchedHolds(rows: seq<Row>, n: nat, normalize: string -> string, i: nat)
    requires i < n <= |rows| && !Shared(rows, i) && SamePath(rows[i], normalize)
    ensures Candidate(rows[i].dead, rows[i].target, rows[i].title) in Matched(rows, n, normalize)
  {
    hide Shared, SamePath;
    if i < n - 1 {
      MatchedHolds(rows, n - 1, normalize, i);
    }
  }

  /**
   A row is matched exactly when its target occurs once among the rows and both of
   its paths are there and equal once normalized.
   */
  lemma {:induction false} MatchedIff(rows: seq<Row>, normalize: string -> string, c: Candidate)
    ensures c in AllMatched(rows, normalize) <==>
            exists i :: 0 <= i < |rows| && c == Candidate(rows[i].dead, rows[i].target, rows[i].title)
              && (forall j :: 0 <= j < |rows| && j != i ==> rows[j].target != rows[i].target)
              && rows[i].deadPath != "" && rows[i].currentPath != ""
              && normalize(rows[i].deadPath) == normalize(rows[i].currentPath)
  {
    var cs := AllMatched(rows, normalize);
    if c in cs {
      var k :| 0 <= k < |cs| && cs[k] == c;
      var i := MatchedComesFrom(rows, |rows|, normalize, k);
    }
    if i: nat :| i < |rows| && !Shared(rows, i) && SamePath(rows[i], normalize)
                 && c == Candidate(rows[i].dead, rows[i].target, rows[i].title) {
      MatchedHolds(rows, |rows|, normalize, i);
    }
  }

  /** The matched rows stay in the order of the rows. */
  lemma {:induction false} MatchedInOrder(rows: seq<Row>, normalize: string -> string, k: nat, m: nat)
    returns (i: nat, j: nat)
    requires k < m < |AllMatched(rows, normalize)|
    ensures i < j < |rows|
    ensures AllMatched(rows, normalize)[k] == Candidate(rows[i].dead, rows[i].target, rows[i].title)
    ensures AllMatched(rows, normalize)[m] == Candidate(rows[j].dead, rows[j].target, rows[j].title)
  {
    i := MatchedComesFrom(rows, |rows|, normalize, k);
    j := MatchedComesFrom(rows, |rows|, normalize, m);
    if j < i {
      MatchedGrows(rows, j, i, normalize);
    }
  }

  lemma {:induction false} MatchedGrows(rows: seq<Row>, j: nat, i: nat, normalize: string -> string)
    requires j <= i <= |rows|
    ensures |Matched(rows, j, normalize)| <= |Matched(rows, i, normalize)|
  {
    hide Shared, SamePath;
    if j < i {
      MatchedGrows(rows, j, i - 1, normalize);
    }
  }

  /** The other counts: rows whose target another row has too, and rows of an unshared target without equal paths. */
  lemma {:induction false} CountedRows(rows: seq<Row>, normalize: string -> string, i: nat)
    requires i < |rows|
    ensures i in Ambiguous(rows, |rows|) <==>
            exists j :: 0 <= j < |rows| && j != i && rows[j].target == rows[i].target
    ensures i in Mismatched(rows, |rows|, normalize) <==>
            && (forall j :: 0 <= j < |rows| && j != i ==> rows[j].target != rows[i].target)
            && (rows[i].deadPath == "" || rows[i].currentPath == ""
                || normalize(rows[i].deadPath) != normalize(rows[i].currentPath))
  {
  }

  /** The matched candidates are candidates in the sense of the theorems, and no target is matched twice. */
  lemma {:induction false} MatchedAreCandidates(db: Db, rows: seq<Row>, normalize: string -> string)
    requires Joined(db, rows)
    ensures AreCandidates(db, AllMatched(rows, normalize))
    ensures TargetsDistinct(AllMatched(rows, normalize))
  {
    var cs := AllMatched(rows, normalize);
    forall k | 0 <= k < |cs|
      ensures cs[k].dead in db.releases && cs[k].dead !in db.members && cs[k].target in db.releases
              && cs[k].target in db.members
    {
      var i := MatchedComesFrom(rows, |rows|, normalize, k);
    }
    forall k, m | 0 <= k < m < |cs| ensures cs[k].target != cs[m].target {
      var i := MatchedComesFrom(rows, |rows|, normalize, k);
      var j := MatchedComesFrom(rows, |rows|, normalize, m);
      assert i != j;
    }
  }

  /**
   One empty release can be matched to two targets: its two external ids may remember
   two songs that are on different releases now.
   */
  lemma {:induction false} MatchedTwice(normalize: string -> string)
    ensures var rows := [Row(1, 10, "Single", "a.mp3", "a.mp3"), Row(1, 11, "Album", "b.mp3", "b.mp3")];
            var db := Db(map[1 := "Old", 10 := "Single", 11 := "Album"], {10, 11}, map[], map[], map[], map[], map[]);
            && Joined(db, rows) && |Matched(rows, 2, normalize)| == 2
            && !DeadsDistinct(Matched(rows, 2, normalize)) && !SizeFree(Matched(rows, 2, normalize))
  {
    var rows := [Row(1, 10, "Single", "a.mp3", "a.mp3"), Row(1, 11, "Album", "b.mp3", "b.mp3")];
    var db := Db(map[1 := "Old", 10 := "Single", 11 := "Album"], {10, 11}, map[], map[], map[], map[], map[]);
    assert Matched(rows, 0, normalize) == [];
    assert Matched(rows, 1, normalize) == [Candidate(1, 10, "Single")];
    var cs := Matched(rows, 2, normalize);
    assert cs == [Candidate(1, 10, "Single"), Candidate(1, 11, "Album")];
    MatchedAreCandidates(db, rows, normalize);
    CandidatesDisjoint(db, cs);
    RepeatSplits(cs, 0, 1);
  }

  /** Of two rows with targets of their own only the one with equal paths is matched. */
  lemma {:induction false} OtherPathStays(normalize: string -> string)
    requires normalize("x/old.flac") != normalize("y/other.flac")
    ensures var rows := [Row(1, 10, "Album", "x/old.flac", "y/other.flac"), Row(2, 11, "Single", "a.flac", "a.flac")];
            AllMatched(rows, normalize) == [Candidate(2, 11, "Single")] && |Mismatched(rows, 2, normalize)| == 1
  {
    var rows := [Row(1, 10, "Album", "x/old.flac", "y/other.flac"), Row(2, 11, "Single", "a.flac", "a.flac")];
    assert Matched(rows, 0, normalize) == [] == Matched(rows, 1, normalize);
    assert !Shared(rows, 1);
    assert Mismatched(rows, 2, normalize) == {0};
  }

  /** No row of the release stands alone with its target and has two equal paths. */
  ghost predicate NoneMatches(rows: seq<Row>, normalize: string -> string, r: ReleaseId) {
    forall i :: 0 <= i < |rows| && rows[i].dead == r ==>
      || rows[i].deadPath == "" || rows[i].currentPath == ""
      || normalize(rows[i].deadPath) != normalize(rows[i].currentPath)
      || exists j :: 0 <= j < |rows| && j != i && rows[j].target == rows[i].target
  }

  lemma {:induction false} DeadsMatch(rows: seq<Row>, normalize: string -> string, r: ReleaseId)
    ensures r in Deads(AllMatched(rows, normalize)) <==> !NoneMatches(rows, normalize, r)
  {
    var cs := AllMatched(rows, normalize);
    if r in Deads(cs) {
      var c :| c in cs && c.dead == r;
      MatchedIff(rows, normalize, c);
    }
    if !NoneMatches(rows, normalize, r) {
      var i :| 0 <= i < |rows| && rows[i].dead == r && !Shared(rows, i) && SamePath(rows[i], normalize);
      MatchedHolds(rows, |rows|, normalize, i);
    }
  }

  /** Over any number of batches only releases with a matched row are deleted, and in the end all of those. */
  lemma {:induction false} UnmatchedStay(db: Db, rows: seq<Row>, normalize: string -> string, size: nat, k: nat,
                                         r: ReleaseId)
    requires Joined(db, rows) && r in db.releases
    ensures var cs := AllMatched(rows, normalize);
            && (NoneMatches(rows, normalize, r) ==> r in Batches(db, cs, size, k).releases)
            && (Done(cs, size, k) == cs ==>
                  (r in Batches(db, cs, size, k).releases <==> NoneMatches(rows, normalize, r)))
  {
    hide AllMatched, NoneMatches, Joined, Batches, AreCandidates, PairsOf, Redirect, Sources, Start;
    var cs := AllMatched(rows, normalize);
    MatchedAreCandidates(db, rows, normalize);
    ReferencesMove(db, cs, size, k);
    DeadsMatch(rows, normalize, r);
  }

  ghost predicate Spares(before: set<ReleaseId>, after: set<ReleaseId>, rows: seq<Row>, normalize: string -> string) {
    forall r :: r in before && NoneMatches(rows, normalize, r) ==> r in after
  }

  ghost predicate Deletes(before: set<ReleaseId>, after: set<ReleaseId>, rows: seq<Row>, normalize: string -> string) {
    forall r :: r in before && !NoneMatches(rows, normalize, r) ==> r !in after
  }

  lemma {:induction false} SparesAndDeletes(db: Db, rows: seq<Row>, normalize: string -> string, size: nat, k: nat)
    requires Joined(db, rows)
    ensures var cs := AllMatched(rows, normalize);
            var after := Batches(db, cs, size, k).releases.Keys;
            && Spares(db.releases.Keys, after, rows, normalize)
            && (Done(cs, size, k) == cs ==> Deletes(db.releases.Keys, after, rows, normalize))
  {
    hide AllMatched, NoneMatches, Joined, Batches, Start;
    forall r | r in db.releases
      ensures var cs := AllMatched(rows, normalize);
              && (NoneMatches(rows, normalize, r) ==> r in Batches(db, cs, size, k).releases)
              && (Done(cs, size, k) == cs ==>
                    (r in Batches(db, cs, size, k).releases <==> NoneMatches(rows, normalize, r)))
    {
      UnmatchedStay(db, rows, normalize, size, k, r);
    }
  }

  ghost function Positions(rows: seq<Row>, n: nat, t: ReleaseId): set<nat>
    requires n <= |rows|
  {
    set i | 0 <= i < n && rows[i].target == t
  }

  ghost predicate Counted(rows: seq<Row>, n: nat, counts: map<ReleaseId, nat>)
    requires n <= |rows|
  {
    && (forall t :: t in counts ==> counts[t] == |Positions(rows, n, t)|)
    && (forall i :: 0 <= i < n ==> rows[i].target in counts)
    && (forall t :: t !in counts ==> Positions(rows, n, t) == {})
  }

  lemma {:induction false} CountOne(rows: seq<Row>, n: nat, counts: map<ReleaseId, nat>)
    requires n < |rows| && Counted(rows, n, counts)
    ensures var t := rows[n].target;
            Counted(rows, n + 1, counts[t := (if t in counts then counts[t] else 0) + 1])
  {
    var t := rows[n].target;
    assert Positions(rows, n + 1, t) == Positions(rows, n, t) + {n};
    forall s: ReleaseId | s != t ensures Positions(rows, n + 1, s) == Positions(rows, n, s) {
    }
  }

  lemma {:induction false} CountTells(rows: seq<Row>, counts: map<ReleaseId, nat>, i: nat)
    requires i < |rows| && Counted(rows, |rows|, counts)
    ensures rows[i].target in counts && (counts[rows[i].target] == 1 <==> !Shared(rows, i))
  {
    var all := Positions(rows, |rows|, rows[i].target);
    assert i in all;
    assert |all - {i}| == |all| - 1;
    if Shared(rows, i) {
      var j :| 0 <= j < |rows| && j != i && rows[j].target == rows[i].target;
      assert j in all - {i};
    } else {
      assert all - {i} == {};
    }
  }

  /** `target_counts`. */
  method CountTargets(rows: seq<Row>) returns (counts: map<ReleaseId, nat>)
    ensures Counted(rows, |rows|, counts)
  {
    counts := map[];
    for i := 0 to |rows|
      invariant Counted(rows, i, counts)
    {
      CountOne(rows, i, counts);
      counts := counts[rows[i].target := (if rows[i].target in counts then counts[rows[i].target] else 0) + 1];
    }
  }

  lemma {:induction false} OneMore(s: set<nat>, i: nat)
    requires i !in s
    ensures |s + {i}| == |s| + 1
  {
  }

  lemma {:induction false} OneAmbiguous(rows: seq<Row>, i: nat)
    requires i < |rows|
    ensures |Ambiguous(rows, i + 1)| == |Ambiguous(rows, i)| + if Shared(rows, i) then 1 else 0
  {
    hide Shared;
    var now := Ambiguous(rows, i);
    assert Ambiguous(rows, i + 1) == if Shared(rows, i) then now + {i} else now;
    OneMore(now, i);
  }

  lemma {:induction false} OneMismatched(rows: seq<Row>, i: nat, normalize: string -> string)
    requires i < |rows|
    ensures |Mismatched(rows, i + 1, normalize)| ==
            |Mismatched(rows, i, normalize)| + if !Shared(rows, i) && !SamePath(rows[i], normalize) then 1 else 0
  {
    hide Shared, SamePath;
    var now := Mismatched(rows, i, normalize);
    assert Mismatched(rows, i + 1, normalize) ==
           if !Shared(rows, i) && !SamePath(rows[i], normalize) then now + {i} else now;
    OneMore(now, i);
  }

  lemma {:induction false} NoRows(rows: seq<Row>, normalize: string -> string)
    ensures |Ambiguous(rows, 0)| == |Mismatched(rows, 0, normalize)| == 0
  {
    assert Ambiguous(rows, 0) == {} && Mismatched(rows, 0, normalize) == {};
  }

  /** `_release_repair_candidates`, from the rows of the join on. */
  method ReleaseRepairCandidates(rows: seq<Row>, normalize: string -> string)
    returns (matched: seq<Candidate>, ambiguous: nat, mismatch: nat)
    ensures matched == AllMatched(rows, normalize)
    ensures ambiguous == |Ambiguous(rows, |rows|)| && mismatch == |Mismatched(rows, |rows|, normalize)|
    ensures |matched| + ambiguous + mismatch == |rows|
  {
    hide Ambiguous, Mismatched, Counted, Shared, SamePath;
    var counts := CountTargets(rows);
    matched, ambiguous, mismatch := [], 0, 0;
    NoRows(rows, normalize);
    for i := 0 to |rows|
      invariant matched == Matched(rows, i, normalize)
      invariant ambiguous == |Ambiguous(rows, i)| && mismatch == |Mismatched(rows, i, normalize)|
      invariant |matched| + ambiguous + mismatch == i
    {
      CountTells(rows, counts, i);
      OneAmbiguous(rows, i);
      OneMismatched(rows, i, normalize);
      if counts[rows[i].target] != 1 {
        ambiguous := ambiguous + 1;
      } else if !SamePath(rows[i], normalize) {
        mismatch := mismatch + 1;
      } else {
        matched := matched + [Candidate(rows[i].dead, rows[i].target, rows[i].title)];
      }
    }
  }

  // -------------------------------------------------------------------- tables

  /**
   The loop over a session's dictionary; the row is written back exactly when the
   dictionary names a merged release.
   */
  method RewritePlays(plays: Plays, pairs: seq<Pair<ReleaseId>>) returns (after: Plays, changed: bool)
    ensures after == MoveEach(plays, pairs)
    ensures changed <==> exists i :: 0 <= i < |pairs| && pairs[i].dead in plays
    ensures !changed ==> after == plays
  {
    after, changed := plays, false;
    for i := 0 to |pairs|
      invariant after == MoveEach(plays, pairs[..i])
      invariant !changed ==> after == plays
      invariant changed <==> exists j :: 0 <= j < i && pairs[j].dead in plays
    {
      var p := pairs[i];
      FoldStep(Move, plays, pairs[..i], p);
      assert pairs[..i + 1] == pairs[..i] + [p];
      if p.dead in after {
        var value := after[p.dead];
        after := after - {p.dead};
        if value.Numeric() && p.target in after && after[p.target].Numeric() {
          after := after[p.target := Number(value.Weight() + after[p.target].Weight())];
        } else if p.target !in after || after[p.target].Null? {
          after := after[p.target := value];
        }
        changed := true;
      }
    }
    assert pairs[..|pairs|] == pairs;
  }

  /** `release_id_map`. */
  method BatchDict(batch: seq<Candidate>) returns (dict: seq<Pair<ReleaseId>>)
    ensures dict == DictOf(batch)
  {
    dict := [];
    for i := 0 to |batch|
      invariant dict == DictOf(batch[..i])
    {
      assert batch[..i + 1][..i] == batch[..i];
      dict := Put(dict, Pair(batch[i].dead, batch[i].target));
    }
    assert batch[..|batch|] == batch;
  }

  lemma {:induction false} MergeNext(db: Db, batch: seq<Candidate>, i: nat)
    requires i < |batch|
    ensures MergeEach(db, batch[..i + 1]) == Merge(MergeEach(db, batch[..i]), batch[i])
  {
    FoldStep(Merge, db, batch[..i], batch[i]);
    assert batch[..i + 1] == batch[..i] + [batch[i]];
  }

  lemma {:induction false} SliceApart(cs: seq<Candidate>, size: nat, k: nat)
    requires Apart(PairsOf(cs))
    ensures Apart(PairsOf(Slice(cs, size, k)))
  {
    var start := Start(|cs|, size, k);
    forall i | 0 <= i < |Slice(cs, size, k)|
      ensures PairsOf(Slice(cs, size, k))[i].dead != PairsOf(Slice(cs, size, k))[i].target
    {
      assert PairsOf(cs)[start + i].dead != PairsOf(cs)[start + i].target;
    }
  }

  class Library {
    var releases: map<ReleaseId, string>
    var members: set<ReleaseId>
    var prefs: map<PrefKey, Pref>
    var events: map<nat, Option<ReleaseId>>
    var sessions: map<nat, Session>
    var queue: map<nat, Option<ReleaseId>>
    var external: map<ExternalKey, Option<ReleaseId>>

    constructor (db: Db)
      ensures Tables() == db
    {
      releases, members, prefs, events, sessions, queue, external :=
        db.releases, db.members, db.prefs, db.events, db.sessions, db.queue, db.external;
    }

    function Tables(): Db
      reads this
    {
      Db(releases, members, prefs, events, sessions, queue, external)
    }

    /** What a rollback does. */
    method Restore(db: Db)
      modifies this
      ensures Tables() == db
    {
      releases, members, prefs, events, sessions, queue, external :=
        db.releases, db.members, db.prefs, db.events, db.sessions, db.queue, db.external;
    }

    /** The statements of `_merge_release_preference` for one row. */
    method MergeRow(u: UserId, o: ReleaseId, t: ReleaseId, dead: Pref)
      requires o != t && PrefKey(u, o) in prefs && prefs[PrefKey(u, o)] == dead
      modifies this`prefs
      ensures prefs == MergeUser(old(prefs), u, o, t)
    {
      var from, onto := PrefKey(u, o), PrefKey(u, t);
      if onto !in prefs {
        prefs := (prefs - {from})[onto := dead];
      } else {
        prefs := prefs[onto := Merged(dead, prefs[onto])];
        prefs := prefs - {from};
      }
    }

    /** `_merge_release_preference`; the rows of the old release are read before the first is changed. */
    method MergeReleasePreference(o: ReleaseId, t: ReleaseId)
      requires o != t
      modifies this`prefs
      ensures prefs == MergeUsers(old(prefs), UsersOf(old(prefs), o), o, t)
    {
      var users := set k | k in prefs && k.release == o :: k.user;
      var rows := prefs;
      ghost var done: set<UserId> := {};
      assert prefs == MergeUsers(old(prefs), {}, o, t);
      while users != {}
        invariant users !! done && users + done == UsersOf(old(prefs), o)
        invariant prefs == MergeUsers(old(prefs), done, o, t)
        invariant rows == old(prefs)
      {
        var u :| u in users;
        MergeUsersStep(old(prefs), done, u, o, t);
        assert PrefKey(u, o) in prefs && prefs[PrefKey(u, o)] == rows[PrefKey(u, o)];
        MergeRow(u, o, t, rows[PrefKey(u, o)]);
        users, done := users - {u}, done + {u};
      }
      assert done == UsersOf(old(prefs), o);
    }

    /** The three statements that repoint rows by their release. */
    method RepointRows(o: ReleaseId, t: ReleaseId)
      modifies this`events, this`queue, this`external
      ensures events == Repoint(old(events), o, t)
      ensures queue == Repoint(old(queue), o, t)
      ensures external == Repoint(old(external), o, t)
    {
      events := map k | k in events :: if events[k] == Some(o) then Some(t) else events[k];
      queue := map k | k in queue :: if queue[k] == Some(o) then Some(t) else queue[k];
      external := map k | k in external :: if external[k] == Some(o) then Some(t) else external[k];
    }

    method RepointPlaybackSessions(c: Candidate)
      modifies this`sessions
      ensures sessions == RepointSessions(old(sessions), c)
    {
      sessions := map k | k in sessions ::
        if sessions[k].source == Some(c.dead) then sessions[k].(source := Some(c.target), caption := c.title)
            else sessions[k];
    }

    /** The statements for one candidate; `deleted` is the row count of the DELETE. */
    method MergeCandidate(c: Candidate) returns (deleted: nat)
      requires c.dead != c.target
      modifies this
      ensures Tables() == Merge(old(Tables()), c)
      ensures deleted + |releases| == |old(releases)|
    {
      hide MergeUsers, Repoint, RepointSessions, UsersOf;
      MergeReleasePreference(c.dead, c.target);
      RepointRows(c.dead, c.target);
      RepointPlaybackSessions(c);
      deleted := 0;
      if c.dead in releases && c.dead !in members {
        FewerKeys(releases, c.dead);
        releases := releases - {c.dead};
        deleted := 1;
      } else {
        assert c.dead !in members ==> releases - {c.dead} == releases;
      }
    }

    /** `_rewrite_session_release_states`. */
    method RewriteSessionReleaseStates(pairs: seq<Pair<ReleaseId>>)
      modifies this`sessions
      ensures Tables() == Rewrite(old(Tables()), pairs)
    {
      var rows := set k | k in sessions && sessions[k].plays.Some?;
      while rows != {}
        invariant rows <= old(sessions).Keys && sessions.Keys == old(sessions).Keys
        invariant forall k :: k in sessions ==>
          sessions[k] == if k in rows then old(sessions)[k] else RewriteOne(old(sessions)[k], pairs)
      {
        var id :| id in rows;
        var after, changed := RewritePlays(sessions[id].plays.value, pairs);
        if changed {
          sessions := sessions[id := sessions[id].(plays := Some(after))];
        }
        rows := rows - {id};
      }
      assert sessions == Rewrite(old(Tables()), pairs).sessions;
    }

    /** The loop over the candidates of a batch, up to where an exception strikes. */
    method MergeCandidates(batch: seq<Candidate>, fails: Option<nat>) returns (merged: Option<nat>)
      requires Apart(PairsOf(batch))
      modifies this
      ensures merged.Some? <==> fails.None? || fails.value >= |batch|
      ensures merged.Some? ==>
              Tables() == MergeEach(old(Tables()), batch) && merged.value + |releases| == |old(releases)|
    {
      ghost var begin := Tables();
      var count: nat := 0;
      for i := 0 to |batch|
        invariant Tables() == MergeEach(begin, batch[..i])
        invariant count + |releases| == |begin.releases|
        invariant fails.None? || fails.value >= i
      {
        if fails.Some? && fails.value == i {
          merged := None;
          return;
        }
        assert PairsOf(batch)[i].dead != PairsOf(batch)[i].target;
        MergeNext(begin, batch, i);
        var deleted := MergeCandidate(batch[i]);
        count := count + deleted;
      }
      assert batch[..|batch|] == batch;
      merged := Some(count);
    }

    /** One transaction; `fails` is the number of candidates done when an exception interrupts it. */
    method RepairBatch(batch: seq<Candidate>, fails: Option<nat>) returns (merged: Option<nat>)
      requires Apart(PairsOf(batch))
      modifies this
      ensures merged.Some? <==> fails.None? || fails.value >= |batch|
      ensures Tables() == if merged.Some? then Batch(old(Tables()), batch) else old(Tables())
      ensures merged.Some? ==> merged.value + |releases| == |old(releases)|
    {
      var begin := Tables();
      var dict := BatchDict(batch);
      merged := MergeCandidates(batch, fails);
      if merged.None? {
        Restore(begin);
      } else {
        RewriteSessionReleaseStates(dict);
      }
    }

    /**
     `_apply_release_repairs`; `fault` names the batch and the place in it where an
     exception strikes, if one does.
     */
    method ApplyReleaseRepairs(matched: seq<Candidate>, size: nat, fault: Option<(nat, nat)>)
      returns (r: Result<nat, nat>)
      requires size > 0 && AreCandidates(Tables(), matched)
      modifies this
      ensures r.Ok? ==>
              exists k: nat :: Done(matched, size, k) == matched && Tables() == Batches(old(Tables()), matched, size, k)
      ensures r.Ok? ==> r.value + |releases| == |old(releases)|
      ensures r.Err? ==>
              fault.Some? && r.error == fault.value.0 && Tables() == Batches(old(Tables()), matched, size, r.error)
    {
      hide Batch, AreCandidates, PairsOf, Apart, Disjoint;
      ghost var before := Tables();
      CandidatesDisjoint(before, matched);
      var start: nat, k: nat, merged: nat := 0, 0, 0;
      while start < |matched|
        invariant Min(start, |matched|) == Start(|matched|, size, k)
        invariant Tables() == Batches(before, matched, size, k)
        invariant merged + |releases| == |before.releases|
        decreases |matched| - start
      {
        var batch := matched[start..Min(start + size, |matched|)];
        SliceApart(matched, size, k);
        var count := RepairBatch(batch, if fault.Some? && fault.value.0 == k then Some(fault.value.1) else None);
        if count.None? {
          r := Err(k);
          return;
        }
        merged := merged + count.value;
        start, k := start + size, k + 1;
      }
      assert Done(matched, size, k) == matched;
      r := Ok(merged);
    }

    /** `repair_navidrome_empty_releases`; the matched, ambiguous and mismatched counts and the number merged. */
    method RepairNavidromeEmptyReleases(rows: seq<Row>, normalize: string -> string, dryRun: bool, size: int,
                                        fault: Option<(nat, nat)>)
      returns (counts: (nat, nat, nat), r: Result<nat, nat>)
      requires Joined(Tables(), rows)
      modifies this
      ensures counts.0 + counts.1 + counts.2 == |rows| && counts.0 == |AllMatched(rows, normalize)|
      ensures dryRun ==> Tables() == old(Tables()) && r == Ok(0)
      ensures var matched := AllMatched(rows, normalize);
              var width := if size < 1 then 1 else size;
              && (!dryRun && r.Ok? ==>
                    && r.value + |releases| == |old(releases)|
                    && exists k: nat ::
                       Done(matched, width, k) == matched && Tables() == Batches(old(Tables()), matched, width, k))
              && (r.Err? ==> Tables() == Batches(old(Tables()), matched, width, r.error))
      ensures counts.1 == |Ambiguous(rows, |rows|)| && counts.2 == |Mismatched(rows, |rows|, normalize)|
      ensures Spares(old(releases).Keys, releases.Keys, rows, normalize)
      ensures !dryRun && r.Ok? ==> Deletes(old(releases).Keys, releases.Keys, rows, normalize)
    {
      hide Ambiguous, Mismatched, Spares, Deletes;
      var matched, ambiguous, mismatch := ReleaseRepairCandidates(rows, normalize);
      counts, r := (|matched|, ambiguous, mismatch), Ok(0);
      MatchedAreCandidates(Tables(), rows, normalize);
      var width := if size < 1 then 1 else size;
      ghost var db, k: nat := Tables(), 0;
      if !dryRun && matched != [] {
        r := ApplyReleaseRepairs(matched, width, fault);
        if r.Ok? {
          k :| Done(matched, width, k) == matched && Tables() == Batches(db, matched, width, k);
        } else {
          k := r.error;
        }
      } else {
        assert matched == [] ==> Done(matched, width, 0) == matched;
        assert Batches(Tables(), matched, width, 0) == Tables();
      }
      SparesAndDeletes(db, rows, normalize, width, k);
    }
  }
}
