/**
 Moving Navidrome ids from placeholder tracks to the local tracks they stand
 for (app/navidrome_migration.py:342-501).
 */
module DuplicateMigration {
  import opened Folds
  import opened CatalogTables
  import opened PathSuffixes

  /** A placeholder's id, its track, and the path the server reports; an empty path is an absent one. */
  datatype Candidate = Candidate(id: ExternalId, duplicate: TrackId, path: string)

  datatype Match = Match(id: ExternalId, duplicate: TrackId, target: TrackId)

  // ----------------------------------------------------------------- matching

  /** `lstrip("/")`: what follows the slashes in front. */
  function Stripped(s: string): (r: string)
    ensures Suffix(s, r) && (r == "" || r[0] != '/')
    ensures forall i :: 0 <= i < |s| - |r| ==> s[i] == '/'
  {
    if s != "" && s[0] == '/' then Stripped(s[1..]) else s
  }

  function Without<T(==)>(s: seq<T>, x: T): seq<T> {
    if s == [] then [] else Without(s[..|s| - 1], x) + if s[|s| - 1] == x then [] else [s[|s| - 1]]
  }

  /** The local tracks a linear scan finds for a candidate. */
  ghost function Hits(rows: seq<Row>, c: Candidate, normalize: string -> string): seq<TrackId> {
    if c.path == "" then [] else Without(Scan(rows, Stripped(normalize(c.path))), c.duplicate)
  }

  /** The matches among the first `n` candidates. */
  ghost function Planned(rows: seq<Row>, cs: seq<Candidate>, n: nat, normalize: string -> string): seq<Match>
    requires n <= |cs|
  {
    if n == 0 then []
    else
      var hits := Hits(rows, cs[n - 1], normalize);
      Planned(rows, cs, n - 1, normalize)
      + if |hits| == 1 then [Match(cs[n - 1].id, cs[n - 1].duplicate, hits[0])] else []
  }

  /** What the listing of duplicates guarantees: the id is mapped to a placeholder track. */
  ghost predicate IsDuplicate(db: Db, id: ExternalId, duplicate: TrackId) {
    && id in db.external && db.external[id].track == duplicate
    && duplicate in db.tracks && db.tracks[duplicate].path.Navidrome?
  }

  /** `rows` lists the local tracks by normalized path, each once. */
  ghost predicate ListsLocals(db: Db, rows: seq<Row>, normalize: string -> string) {
    && DistinctIds(rows)
    && (forall i :: 0 <= i < |rows| ==>
          && rows[i].id in db.tracks && db.tracks[rows[i].id].path.Local?
          && rows[i].path == normalize(db.tracks[rows[i].id].path.file))
    && (forall t :: t in db.tracks && db.tracks[t].path.Local? ==> exists i :: 0 <= i < |rows| && rows[i].id == t)
  }

  ghost predicate IsMatch(db: Db, m: Match) {
    && IsDuplicate(db, m.id, m.duplicate)
    && m.target in db.tracks && db.tracks[m.target].path.Local?
  }

  ghost predicate IsPlan(db: Db, ms: seq<Match>) {
    forall m :: m in ms ==> IsMatch(db, m)
  }

  /** The path of a local track ends with what the candidate's path names. */
  ghost predicate Fits(db: Db, t: TrackId, c: Candidate, normalize: string -> string) {
    && t in db.tracks && db.tracks[t].path.Local?
    && c.path != "" && EndsWith(Join(Parts(normalize(db.tracks[t].path.file))), Stripped(normalize(c.path)))
  }

  /** When the track's path is tidy, it fits if it is the candidate's relative path or ends with a slash and that. */
  lemma {:induction false} FitsText(db: Db, t: TrackId, c: Candidate, normalize: string -> string)
    requires t in db.tracks && db.tracks[t].path.Local? && Tidy(normalize(db.tracks[t].path.file))
    ensures Fits(db, t, c, normalize) <==>
            c.path != "" && EndsAt(normalize(db.tracks[t].path.file), Stripped(normalize(c.path)))
  {
    TextEndings(normalize(db.tracks[t].path.file), Stripped(normalize(c.path)));
  }

  /** Of all tracks `t` alone fits. */
  ghost predicate OnlyFit(db: Db, c: Candidate, t: TrackId, normalize: string -> string) {
    forall u :: Fits(db, u, c, normalize) <==> u == t
  }

  lemma {:induction false} WithoutOther<T>(s: seq<T>, x: T)
    requires x !in s
    ensures Without(s, x) == s
  {
    if s != [] {
      assert s[|s| - 1] in s;
      WithoutOther(s[..|s| - 1], x);
    }
  }

  lemma {:induction false} HitsAreFits(db: Db, rows: seq<Row>, c: Candidate, normalize: string -> string)
    requires ListsLocals(db, rows, normalize) && IsDuplicate(db, c.id, c.duplicate)
    ensures forall u :: u in Hits(rows, c, normalize) <==> Fits(db, u, c, normalize)
    ensures forall i, j :: 0 <= i < j < |Hits(rows, c, normalize)| ==>
            Hits(rows, c, normalize)[i] != Hits(rows, c, normalize)[j]
  {
    if c.path != "" {
      var key := Stripped(normalize(c.path));
      ScanLists(rows, key);
      assert c.duplicate !in Scan(rows, key);
      WithoutOther(Scan(rows, key), c.duplicate);
      forall u ensures u in Scan(rows, key) <==> Fits(db, u, c, normalize) {
        if Fits(db, u, c, normalize) {
          var i :| 0 <= i < |rows| && rows[i].id == u;
        }
      }
    }
  }

  /** There is no hit exactly when no local track fits, and there are several exactly when two do. */
  lemma {:induction false} HitsCount(db: Db, rows: seq<Row>, c: Candidate, normalize: string -> string)
    requires ListsLocals(db, rows, normalize) && IsDuplicate(db, c.id, c.duplicate)
    ensures Hits(rows, c, normalize) == [] <==> forall u :: !Fits(db, u, c, normalize)
    ensures |Hits(rows, c, normalize)| > 1 <==>
            exists u, v :: u != v && Fits(db, u, c, normalize) && Fits(db, v, c, normalize)
  {
    hide Hits, Fits, ListsLocals, IsDuplicate;
    var hits := Hits(rows, c, normalize);
    HitsAreFits(db, rows, c, normalize);
    assert hits != [] ==> hits[0] in hits;
    if |hits| > 1 {
      assert hits[0] in hits && hits[1] in hits && hits[0] != hits[1];
    }
    if u, v :| u != v && Fits(db, u, c, normalize) && Fits(db, v, c, normalize) {
      assert u in hits && v in hits;
    }
  }

  /** A candidate has one hit exactly when one local track alone fits it, and the hit is that track. */
  lemma {:induction false} HitIsUniqueFit(db: Db, rows: seq<Row>, c: Candidate, t: TrackId, normalize: string -> string)
    requires ListsLocals(db, rows, normalize) && IsDuplicate(db, c.id, c.duplicate)
    ensures Hits(rows, c, normalize) == [t] <==> OnlyFit(db, c, t, normalize)
  {
    hide Hits, Fits, ListsLocals, IsDuplicate;
    var hits := Hits(rows, c, normalize);
    HitsAreFits(db, rows, c, normalize);
    OneElement(hits, t);
    assert (forall u :: u in hits <==> u == t) <==> forall u :: Fits(db, u, c, normalize) <==> u == t;
  }

  /** Among the first `n` candidates is one that this match is for. */
  ghost predicate Unique(db: Db, cs: seq<Candidate>, n: nat, normalize: string -> string, m: Match)
    requires n <= |cs|
  {
    exists k :: 0 <= k < n && cs[k].id == m.id && cs[k].duplicate == m.duplicate
      && OnlyFit(db, cs[k], m.target, normalize)
  }

  /** What the candidate itself adds to the plan. */
  ghost function Own(rows: seq<Row>, c: Candidate, normalize: string -> string): seq<Match> {
    var hits := Hits(rows, c, normalize);
    if |hits| == 1 then [Match(c.id, c.duplicate, hits[0])] else []
  }

  lemma {:induction false} OwnIff(db: Db, rows: seq<Row>, c: Candidate, normalize: string -> string, m: Match)
    requires ListsLocals(db, rows, normalize) && IsDuplicate(db, c.id, c.duplicate)
    ensures m in Own(rows, c, normalize) <==>
            c.id == m.id && c.duplicate == m.duplicate && OnlyFit(db, c, m.target, normalize)
  {
    HitIsUniqueFit(db, rows, c, m.target, normalize);
    hide Hits, OnlyFit;
    var hits := Hits(rows, c, normalize);
    assert hits == [m.target] <==> |hits| == 1 && hits[0] == m.target;
  }

  lemma {:induction false} PlannedStep(rows: seq<Row>, cs: seq<Candidate>, n: nat, normalize: string -> string)
    requires 0 < n <= |cs|
    ensures Planned(rows, cs, n, normalize) == Planned(rows, cs, n - 1, normalize) + Own(rows, cs[n - 1], normalize)
  {
    hide Hits;
  }

  lemma {:induction false} UniqueStep(db: Db, cs: seq<Candidate>, n: nat, normalize: string -> string, m: Match)
    requires 0 < n <= |cs|
    ensures Unique(db, cs, n, normalize, m) <==>
            || Unique(db, cs, n - 1, normalize, m)
            || (cs[n - 1].id == m.id && cs[n - 1].duplicate == m.duplicate
                && OnlyFit(db, cs[n - 1], m.target, normalize))
  {
    hide OnlyFit;
  }

  /** A match is planned exactly for a candidate that one local track alone fits. */
  lemma {:induction false} PlannedIff(db: Db, rows: seq<Row>, cs: seq<Candidate>, n: nat, normalize: string -> string,
                                      m: Match)
    requires ListsLocals(db, rows, normalize) && n <= |cs|
    requires forall c :: c in cs ==> IsDuplicate(db, c.id, c.duplicate)
    ensures m in Planned(rows, cs, n, normalize) <==> Unique(db, cs, n, normalize, m)
  {
    hide *;
    if n == 0 {
      NonePlanned(db, rows, cs, normalize, m);
    } else {
      assert cs[n - 1] in cs;
      PlannedIff(db, rows, cs, n - 1, normalize, m);
      OwnIff(db, rows, cs[n - 1], normalize, m);
      PlannedStep(rows, cs, n, normalize);
      UniqueStep(db, cs, n, normalize, m);
    }
  }

  lemma {:induction false} NonePlanned(db: Db, rows: seq<Row>, cs: seq<Candidate>, normalize: string -> string,
                                       m: Match)
    ensures Planned(rows, cs, 0, normalize) == [] && !Unique(db, cs, 0, normalize, m)
  {
  }

  lemma {:induction false} UniqueIsMatch(db: Db, cs: seq<Candidate>, n: nat, normalize: string -> string, m: Match)
    requires n <= |cs| && Unique(db, cs, n, normalize, m)
    requires forall c :: c in cs ==> IsDuplicate(db, c.id, c.duplicate)
    ensures IsMatch(db, m)
  {
    hide EndsWith, Join, Parts;
    var k :| 0 <= k < n && cs[k].id == m.id && cs[k].duplicate == m.duplicate
      && OnlyFit(db, cs[k], m.target, normalize);
    assert cs[k] in cs;
    assert Fits(db, m.target, cs[k], normalize);
  }

  /** The matches lead from placeholders to local tracks. */
  lemma {:induction false} PlannedIsPlan(db: Db, rows: seq<Row>, cs: seq<Candidate>, n: nat,
                                         normalize: string -> string)
    requires ListsLocals(db, rows, normalize) && n <= |cs|
    requires forall c :: c in cs ==> IsDuplicate(db, c.id, c.duplicate)
    ensures IsPlan(db, Planned(rows, cs, n, normalize))
  {
    hide IsMatch, Unique, ListsLocals, IsDuplicate, Planned;
    forall m | m in Planned(rows, cs, n, normalize) ensures IsMatch(db, m) {
      PlannedIff(db, rows, cs, n, normalize, m);
      UniqueIsMatch(db, cs, n, normalize, m);
    }
  }

  // ----------------------------------------------------------------- remapping

  /** The ids that keep a row when `m.target` is freed, with `m.id` moved there. */
  ghost function Moved(external: map<ExternalId, External>, m: Match): map<ExternalId, External> {
    map d | d in external && (d == m.id || external[d].track != m.target) ::
      if d == m.id then external[d].(track := m.target) else external[d]
  }

  ghost predicate Deletes(db: Db, m: Match) {
    m.duplicate in db.tracks && db.tracks[m.duplicate].path.Navidrome?
  }

  /** The three statements for one match; deleting a track deletes the ids mapped to it. */
  ghost function Remap(db: Db, m: Match): Db {
    if Deletes(db, m)
    then db.(tracks := db.tracks - {m.duplicate},
             external := map d | d in Moved(db.external, m) && Moved(db.external, m)[d].track != m.duplicate ::
                 Moved(db.external, m)[d])
    else db.(external := Moved(db.external, m))
  }

  ghost function RemapEach(db: Db, ms: seq<Match>): Db {
    Fold(Remap, db, ms)
  }

  /** A track that is local now, and the same as before. */
  ghost predicate KeptLocal(before: Db, after: Db) {
    forall t :: t in before.tracks && before.tracks[t].path.Local? ==>
        t in after.tracks && after.tracks[t] == before.tracks[t]
  }

  ghost predicate LocalTarget(db: Db, m: Match) {
    m.target in db.tracks && db.tracks[m.target].path.Local?
  }

  lemma {:induction false} RemapKeepsTracks(db: Db, m: Match)
    requires UniquePaths(db)
    ensures UniquePaths(Remap(db, m)) && KeptLocal(db, Remap(db, m))
    ensures forall t :: t in Remap(db, m).tracks ==> t in db.tracks && Remap(db, m).tracks[t] == db.tracks[t]
  {
  }

  lemma {:induction false} RemapKeepsIds(db: Db, m: Match)
    requires Injective(db) && LocalTarget(db, m)
    ensures Injective(Remap(db, m))
  {
    var after := Remap(db, m);
    assert m.target in after.tracks;
  }

  lemma {:induction false} RemapKeepsHomes(db: Db, m: Match)
    requires WellFormed(db) && LocalTarget(db, m)
    ensures WellFormed(Remap(db, m))
  {
    var after := Remap(db, m);
    RemapKeepsTracks(db, m);
    RemapKeepsIds(db, m);
    forall e | e in after.external ensures AtHome(after, e) {
      if e != m.id {
        assert AtHome(db, e);
      }
    }
  }

  /** Any list of matches onto local tracks keeps the tables well formed and every local track as it was. */
  lemma {:induction false} RemapsKeep(db: Db, ms: seq<Match>)
    requires WellFormed(db) && forall m :: m in ms ==> LocalTarget(db, m)
    ensures WellFormed(RemapEach(db, ms)) && KeptLocal(db, RemapEach(db, ms))
    ensures RemapEach(db, ms).nextId == db.nextId && RemapEach(db, ms).aliases == db.aliases
    ensures forall t :: t in RemapEach(db, ms).tracks ==> t in db.tracks && RemapEach(db, ms).tracks[t] == db.tracks[t]
  {
    if ms != [] {
      var n := |ms| - 1;
      var before := RemapEach(db, ms[..n]);
      RemapsKeep(db, ms[..n]);
      assert LocalTarget(db, ms[n]);
      RemapKeepsTracks(before, ms[n]);
      RemapKeepsHomes(before, ms[n]);
    }
  }

  /** The only tracks that go are the placeholders of the matches. */
  lemma {:induction false} DuplicatesGo(db: Db, ms: seq<Match>)
    requires IsPlan(db, ms)
    ensures RemapEach(db, ms).tracks == db.tracks - (set m | m in ms :: m.duplicate)
  {
    if ms == [] {
      assert db.tracks - {} == db.tracks;
    } else {
      var n := |ms| - 1;
      DuplicatesGo(db, ms[..n]);
      assert IsMatch(db, ms[n]);
      var front, all := set m | m in ms[..n] :: m.duplicate, set m | m in ms :: m.duplicate;
      assert ms == ms[..n] + [ms[n]];
      assert all == front + {ms[n].duplicate};
      var before := RemapEach(db, ms[..n]);
      assert Deletes(before, ms[n]) <==> ms[n].duplicate !in front;
      assert before.tracks - {ms[n].duplicate} == db.tracks - all;
    }
  }

  // --------------------------------------------------------------- the outcome

  ghost predicate Matches(ms: seq<Match>, e: ExternalId) {
    exists i :: 0 <= i < |ms| && ms[i].id == e
  }

  ghost predicate Targets(ms: seq<Match>, t: TrackId) {
    exists i :: 0 <= i < |ms| && ms[i].target == t
  }

  /** The target of an id's last match. */
  function LastTarget(ms: seq<Match>, e: ExternalId): TrackId {
    if ms == [] then 0 else if ms[|ms| - 1].id == e then ms[|ms| - 1].target else LastTarget(ms[..|ms| - 1], e)
  }

  /** Between two matches of the id, and after its last, no other id takes the target it sits on. */
  ghost predicate Unbroken(ms: seq<Match>, e: ExternalId) {
    if ms == [] then true
    else
      var front, m := ms[..|ms| - 1], ms[|ms| - 1];
      Unbroken(front, e) && (Matches(front, e) && m.id != e ==> m.target != LastTarget(front, e))
  }

  /** An id sits on its first track or on a local one. */
  ghost predicate Settled(db: Db, after: Db) {
    forall e :: e in after.external ==>
      && e in db.external
      && (after.external[e].track == db.external[e].track
          || (after.external[e].track in db.tracks && db.tracks[after.external[e].track].path.Local?))
  }

  /** What one more match does to an id's row. */
  lemma {:induction false} RemapRow(db: Db, before: Db, m: Match, e: ExternalId)
    requires WellFormed(db) && Settled(db, before) && IsMatch(db, m)
    ensures e in Remap(before, m).external <==>
            e in before.external && (e == m.id || before.external[e].track != m.target)
    ensures e in Remap(before, m).external ==>
              Remap(before, m).external[e] == if e == m.id then before.external[e].(track := m.target)
                  else before.external[e]
  {
    if e in before.external && e != m.id {
      assert db.external[e].track != db.external[m.id].track;
    }
  }

  lemma {:induction false} RemapSettled(db: Db, before: Db, m: Match)
    requires WellFormed(db) && Settled(db, before) && IsMatch(db, m)
    ensures Settled(db, Remap(before, m))
  {
    forall e | e in Remap(before, m).external
      ensures e in db.external && (Remap(before, m).external[e].track == db.external[e].track
              || (Remap(before, m).external[e].track in db.tracks
                 && db.tracks[Remap(before, m).external[e].track].path.Local?))
    {
      RemapRow(db, before, m, e);
    }
  }

  lemma {:induction false} StaySettled(db: Db, ms: seq<Match>)
    requires WellFormed(db) && IsPlan(db, ms)
    ensures Settled(db, RemapEach(db, ms))
  {
    if ms != [] {
      StaySettled(db, ms[..|ms| - 1]);
      assert IsMatch(db, ms[|ms| - 1]);
      RemapSettled(db, RemapEach(db, ms[..|ms| - 1]), ms[|ms| - 1]);
    }
  }

  /** An id that is not matched keeps its row unless its track is some match's target. */
  lemma {:induction false} UnmatchedRow(db: Db, ms: seq<Match>, e: ExternalId)
    requires WellFormed(db) && IsPlan(db, ms) && !Matches(ms, e)
    ensures e in RemapEach(db, ms).external <==> e in db.external && !Targets(ms, db.external[e].track)
    ensures e in RemapEach(db, ms).external ==> RemapEach(db, ms).external[e] == db.external[e]
  {
    if ms != [] {
      var n := |ms| - 1;
      MatchesStep(ms, e);
      assert ms[n].id != e && IsMatch(db, ms[n]);
      UnmatchedRow(db, ms[..n], e);
      StaySettled(db, ms[..n]);
      RemapRow(db, RemapEach(db, ms[..n]), ms[n], e);
    }
  }

  /** A matched id keeps its row exactly when its matches are unbroken, and then it is on its last target. */
  lemma {:induction false} MatchedRow(db: Db, ms: seq<Match>, e: ExternalId)
    requires WellFormed(db) && IsPlan(db, ms) && Matches(ms, e)
    ensures e in db.external
    ensures e in RemapEach(db, ms).external <==> Unbroken(ms, e)
    ensures Unbroken(ms, e) ==> RemapEach(db, ms).external[e] == db.external[e].(track := LastTarget(ms, e))
  {
    var n := |ms| - 1;
    var front, m := ms[..n], ms[n];
    MatchesStep(ms, e);
    assert IsMatch(db, m) && IsPlan(db, front);
    StaySettled(db, front);
    RemapRow(db, RemapEach(db, front), m, e);
    if Matches(front, e) {
      MatchedRow(db, front, e);
    } else {
      NotTargeted(db, front, m);
      UnmatchedRow(db, front, e);
      AlwaysUnbroken(front, e);
    }
  }

  lemma {:induction false} AlwaysUnbroken(ms: seq<Match>, e: ExternalId)
    requires !Matches(ms, e)
    ensures Unbroken(ms, e)
  {
    if ms != [] {
      MatchesStep(ms, e);
      AlwaysUnbroken(ms[..|ms| - 1], e);
    }
  }

  lemma {:induction false} NotTargeted(db: Db, ms: seq<Match>, m: Match)
    requires IsPlan(db, ms) && IsMatch(db, m)
    ensures !Targets(ms, m.duplicate)
  {
    forall i | 0 <= i < |ms| ensures ms[i].target != m.duplicate {
      assert IsMatch(db, ms[i]);
    }
  }

  lemma {:induction false} MatchesStep(ms: seq<Match>, e: ExternalId)
    requires ms != []
    ensures var n := |ms| - 1;
            && (Matches(ms, e) <==> Matches(ms[..n], e) || ms[n].id == e)
            && (forall t :: Targets(ms, t) <==> Targets(ms[..n], t) || ms[n].target == t)
  {
    var n := |ms| - 1;
    assert forall i :: 0 <= i < n ==> ms[..n][i] == ms[i];
    if Matches(ms[..n], e) {
      var i :| 0 <= i < n && ms[..n][i].id == e;
      assert ms[i].id == e;
    }
    forall t ensures Targets(ms, t) <==> Targets(ms[..n], t) || ms[n].target == t {
      if Targets(ms[..n], t) {
        var i :| 0 <= i < n && ms[..n][i].target == t;
        assert ms[i].target == t;
      }
    }
  }

  /** The match with this number is the last one with its target. */
  ghost predicate LastForTarget(ms: seq<Match>, i: nat)
    requires i < |ms|
  {
    forall j :: i < j < |ms| ==> ms[j].target != ms[i].target
  }

  /**
   A target ends with its last matched id exactly when that id's matches are unbroken
   and end there; then no other id is on it.
   */
  lemma {:induction false} LastMatchHolds(db: Db, ms: seq<Match>, i: nat)
    requires WellFormed(db) && IsPlan(db, ms) && i < |ms| && LastForTarget(ms, i)
    ensures var after, m := RemapEach(db, ms), ms[i];
            && WellFormed(after) && m.duplicate !in after.tracks
            && (m.id in after.external && after.external[m.id].track == m.target
                <==> Unbroken(ms, m.id) && LastTarget(ms, m.id) == m.target)
            && (m.id in after.external && after.external[m.id].track == m.target ==>
                  forall e :: e in after.external && after.external[e].track == m.target ==> e == m.id)
  {
    forall k | k in ms ensures IsMatch(db, k) && LocalTarget(db, k) {
      assert IsMatch(db, k);
    }
    RemapsKeep(db, ms);
    DuplicatesGo(db, ms);
    assert ms[i] in ms;
    MatchedRow(db, ms, ms[i].id);
  }

  ghost predicate DistinctMatches(ms: seq<Match>) {
    forall i, j :: 0 <= i < j < |ms| ==> ms[i].id != ms[j].id
  }

  /** Stored rows list every id once: then every target ends with its last matched id. */
  lemma {:induction false} DistinctHolds(ms: seq<Match>, i: nat)
    requires DistinctMatches(ms) && i < |ms|
    ensures LastTarget(ms, ms[i].id) == ms[i].target
    ensures Unbroken(ms, ms[i].id) <==> LastForTarget(ms, i)
  {
    var n := |ms| - 1;
    var front, e := ms[..n], ms[i].id;
    if i < n {
      assert ms[n].id != e && front[i].id == e;
      DistinctHolds(front, i);
    } else {
      assert !Matches(front, e);
      AlwaysUnbroken(front, e);
    }
  }

  /**
   A repeated id can lose its row to another id of the same target, and that one to the
   repeat: the target ends with none.
   */
  lemma {:induction false} RepeatedIdLosesTarget(db: Db, e: ExternalId, f: ExternalId, d: TrackId, g: TrackId,
                                                 t: TrackId)
    requires WellFormed(db) && e != f
    requires IsMatch(db, Match(e, d, t)) && IsMatch(db, Match(f, g, t))
    ensures var ms := [Match(e, d, t), Match(f, g, t), Match(e, d, t)];
            && LastForTarget(ms, 2) && e !in RemapEach(db, ms).external && f !in RemapEach(db, ms).external
  {
    var ms := [Match(e, d, t), Match(f, g, t), Match(e, d, t)];
    assert ms[..2] == [ms[0], ms[1]] && ms[..2][..1] == [ms[0]];
    assert ms[0].id == e && ms[1].id == f;
    assert LastTarget([ms[0]], e) == t;
    assert !Unbroken(ms[..2], e);
    assert LastTarget(ms[..2], f) == t && !Unbroken(ms, f) by {
      assert ms[..2][1].id == f;
    }
    MatchedRow(db, ms, e);
    MatchedRow(db, ms, f);
  }

  /**
   Whatever the batch size, the committed batches are one sequence of matches; what
   they keep holds after each of them.
   */
  lemma {:induction false} MigrationInBatches(db: Db, ms: seq<Match>, size: nat, k: nat)
    requires WellFormed(db) && IsPlan(db, ms)
    ensures var after := Batched(Remap, db, ms, size, k);
            && after == RemapEach(db, Done(ms, size, k))
            && WellFormed(after) && KeptLocal(db, after)
            && after.tracks == db.tracks - (set m | m in Done(ms, size, k) :: m.duplicate)
  {
    BatchesAreOneFold(Remap, db, ms, size, k);
    forall m | m in Done(ms, size, k) ensures IsMatch(db, m) && LocalTarget(db, m) {
      assert m in ms;
    }
    RemapsKeep(db, Done(ms, size, k));
    DuplicatesGo(db, Done(ms, size, k));
  }
}
