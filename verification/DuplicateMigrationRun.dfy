/**
 The duplicate migration as it runs (app/navidrome_migration.py:342-501):
 classifying the candidates against the index, and batches of row statements.
 */
module DuplicateMigrationRun {
  import opened Wrappers
  import opened Folds
  import opened CatalogTables
  import opened PathSuffixes
  import opened DuplicateMigration

  ghost predicate LocalTargets(db: Db, ms: seq<Match>) {
    forall m :: m in ms ==> LocalTarget(db, m)
  }

  lemma {:induction false} TargetsStay(before: Db, after: Db, ms: seq<Match>)
    requires KeptLocal(before, after) && LocalTargets(before, ms)
    ensures LocalTargets(after, ms)
  {
    forall m | m in ms ensures LocalTarget(after, m) {
      assert LocalTarget(before, m);
    }
  }

  lemma {:induction false} NextRemap(db: Db, batch: seq<Match>, i: nat)
    requires i < |batch|
    ensures RemapEach(db, batch[..i + 1]) == Remap(RemapEach(db, batch[..i]), batch[i])
  {
    FoldStep(Remap, db, batch[..i], batch[i]);
    assert batch[..i + 1] == batch[..i] + [batch[i]];
  }

  lemma {:induction false} PrefixKeeps(db: Db, batch: seq<Match>, i: nat)
    requires WellFormed(db) && LocalTargets(db, batch) && i <= |batch|
    ensures WellFormed(RemapEach(db, batch[..i])) && KeptLocal(db, RemapEach(db, batch[..i]))
    ensures LocalTargets(RemapEach(db, batch[..i]), batch)
  {
    assert forall m :: m in batch[..i] ==> m in batch && LocalTarget(db, m);
    RemapsKeep(db, batch[..i]);
    TargetsStay(db, RemapEach(db, batch[..i]), batch);
  }

  lemma {:induction false} BatchKeeps(db: Db, ms: seq<Match>, size: nat, k: nat)
    requires WellFormed(db) && LocalTargets(db, ms)
    ensures WellFormed(Batched(Remap, db, ms, size, k))
    ensures LocalTargets(Batched(Remap, db, ms, size, k), Slice(ms, size, k))
  {
    hide WellFormed, LocalTarget;
    BatchesAreOneFold(Remap, db, ms, size, k);
    PrefixKeeps(db, ms, Start(|ms|, size, k));
    assert forall m :: m in Slice(ms, size, k) ==> m in ms;
  }

  /** How many of the first `n` candidates several local tracks fit. */
  ghost function Ambiguous(rows: seq<Row>, cs: seq<Candidate>, n: nat, normalize: string -> string): nat
    requires n <= |cs|
  {
    if n == 0 then 0
    else Ambiguous(rows, cs, n - 1, normalize) + if |Hits(rows, cs[n - 1], normalize)| > 1 then 1 else 0
  }

  /** How many of the first `n` candidates no local track fits. */
  ghost function Unmatched(rows: seq<Row>, cs: seq<Candidate>, n: nat, normalize: string -> string): nat
    requires n <= |cs|
  {
    if n == 0 then 0
    else Unmatched(rows, cs, n - 1, normalize) + if Hits(rows, cs[n - 1], normalize) == [] then 1 else 0
  }

  /** `local_index.get(...)` without the duplicate itself. */
  method Lookup(rows: seq<Row>, index: Index, c: Candidate, normalize: string -> string) returns (matches: seq<TrackId>)
    requires Indexed(rows, index)
    ensures matches == Hits(rows, c, normalize)
  {
    if c.path == "" {
      matches := [];
    } else {
      matches := Without(Entry(index, Stripped(normalize(c.path))), c.duplicate);
    }
  }

  /** The classification loop. */
  method FindMatches(rows: seq<Row>, index: Index, cs: seq<Candidate>, normalize: string -> string)
    returns (matched: seq<Match>, ambiguous: nat, unmatched: nat)
    requires Indexed(rows, index)
    ensures matched == Planned(rows, cs, |cs|, normalize)
    ensures ambiguous == Ambiguous(rows, cs, |cs|, normalize)
    ensures unmatched == Unmatched(rows, cs, |cs|, normalize)
    ensures |matched| + ambiguous + unmatched == |cs|
  {
    hide Hits, Indexed;
    matched, ambiguous, unmatched := [], 0, 0;
    for i := 0 to |cs|
      invariant matched == Planned(rows, cs, i, normalize)
      invariant ambiguous == Ambiguous(rows, cs, i, normalize)
      invariant unmatched == Unmatched(rows, cs, i, normalize)
      invariant |matched| + ambiguous + unmatched == i
    {
      var matches := Lookup(rows, index, cs[i], normalize);
      if |matches| == 1 {
        matched := matched + [Match(cs[i].id, cs[i].duplicate, matches[0])];
      } else if |matches| > 1 {
        ambiguous := ambiguous + 1;
      } else {
        unmatched := unmatched + 1;
      }
    }
  }

  class Library {
    var tracks: map<TrackId, Track>
    var external: map<ExternalId, External>
    var aliases: map<ExternalId, TrackId>
    var nextId: TrackId

    constructor (db: Db)
      ensures Tables() == db
    {
      tracks, external, aliases, nextId := db.tracks, db.external, db.aliases, db.nextId;
    }

    function Tables(): Db
      reads this
    {
      Db(tracks, external, aliases, nextId)
    }

    /** The statements for one match; deleting a track deletes the ids mapped to it. */
    method RemapMatch(m: Match) returns (deleted: nat)
      requires m.target in tracks
      modifies this`tracks, this`external
      ensures Tables() == Remap(old(Tables()), m)
      ensures deleted + |tracks| == |old(tracks)|
    {
      external := map d | d in external && (d == m.id || external[d].track != m.target) :: external[d];
      if m.id in external {
        external := external[m.id := external[m.id].(track := m.target)];
      }
      assert external == Moved(old(external), m);
      deleted := 0;
      if m.duplicate in tracks && tracks[m.duplicate].path.Navidrome? {
        FewerKeys(tracks, m.duplicate);
        tracks := tracks - {m.duplicate};
        external := map d | d in external && external[d].track != m.duplicate :: external[d];
        deleted := 1;
      }
    }

    /** The loop of one transaction, up to where an exception strikes. */
    method RemapMatches(batch: seq<Match>, fails: Option<nat>) returns (deleted: Option<nat>)
      requires WellFormed(Tables()) && LocalTargets(Tables(), batch)
      modifies this
      ensures deleted.Some? <==> fails.None? || fails.value >= |batch|
      ensures deleted.Some? ==> Tables() == RemapEach(old(Tables()), batch) && deleted.value + |tracks| == |old(tracks)|
    {
      hide WellFormed, Remap, RemapEach, KeptLocal;
      ghost var begin := Tables();
      var count: nat := 0;
      assert RemapEach(begin, batch[..0]) == begin by {
        NoneRemapped(begin, batch);
      }
      for i := 0 to |batch|
        invariant Tables() == RemapEach(begin, batch[..i])
        invariant count + |tracks| == |begin.tracks|
        invariant fails.None? || fails.value >= i
      {
        if fails.Some? && fails.value == i {
          deleted := None;
          return;
        }
        PrefixKeeps(begin, batch, i);
        assert LocalTarget(Tables(), batch[i]);
        NextRemap(begin, batch, i);
        var one := RemapMatch(batch[i]);
        count := count + one;
      }
      assert batch[..|batch|] == batch;
      deleted := Some(count);
    }

    /** One transaction: all of the batch, or nothing. */
    method ApplyBatch(batch: seq<Match>, fails: Option<nat>) returns (deleted: Option<nat>)
      requires WellFormed(Tables()) && LocalTargets(Tables(), batch)
      modifies this
      ensures deleted.Some? <==> fails.None? || fails.value >= |batch|
      ensures Tables() == if deleted.Some? then RemapEach(old(Tables()), batch) else old(Tables())
      ensures deleted.Some? ==> deleted.value + |tracks| == |old(tracks)|
    {
      var begin := Tables();
      deleted := RemapMatches(batch, fails);
      if deleted.None? {
        tracks, external, aliases, nextId := begin.tracks, begin.external, begin.aliases, begin.nextId;
      }
    }

    /** `_apply_matches`; `fault` names the batch and the place in it where an exception strikes, if one does. */
    method ApplyMatches(matched: seq<Match>, size: nat, fault: Option<(nat, nat)>)
      returns (r: Result<(nat, nat), nat>, ghost batches: nat)
      requires size > 0 && WellFormed(Tables()) && LocalTargets(Tables(), matched)
      modifies this
      ensures Tables() == Batched(Remap, old(Tables()), matched, size, batches)
      ensures r.Ok? ==> Done(matched, size, batches) == matched
      ensures r.Ok? ==> r.value.0 == |matched| && r.value.1 + |tracks| == |old(tracks)|
      ensures r.Err? ==> fault.Some? && r.error == fault.value.0 == batches
    {
      hide WellFormed, LocalTargets, RemapEach, Remap, Fold;
      ghost var before := Tables();
      var start: nat, k: nat, remapped: nat, deleted: nat := 0, 0, 0, 0;
      while start < |matched|
        invariant Min(start, |matched|) == Start(|matched|, size, k) == remapped
        invariant Tables() == Batched(Remap, before, matched, size, k)
        invariant deleted + |tracks| == |before.tracks|
        decreases |matched| - start
      {
        var batch := matched[start..Min(start + size, |matched|)];
        assert batch == Slice(matched, size, k);
        BatchKeeps(before, matched, size, k);
        ghost var mid := Tables();
        var count := ApplyBatch(batch, if fault.Some? && fault.value.0 == k then Some(fault.value.1) else None);
        if count.None? {
          r, batches := Err(k), k;
          return;
        }
        NextBatch(before, matched, size, k);
        deleted := deleted + count.value;
        remapped := remapped + |batch|;
        start, k := start + size, k + 1;
      }
      r, batches := Ok((remapped, deleted)), k;
    }

    /**
     `migrate_navidrome_duplicate_tracks`; matched, ambiguous and unmatched counts, and
     the rows remapped and deleted.
     */
    method MigrateNavidromeDuplicateTracks(rows: seq<Row>, cs: seq<Candidate>, normalize: string -> string,
                                           dryRun: bool, size: int, fault: Option<(nat, nat)>)
      returns (counts: (nat, nat, nat), r: Result<(nat, nat), nat>, ghost batches: nat)
      requires WellFormed(Tables()) && ListsLocals(Tables(), rows, normalize)
      requires forall c :: c in cs ==> IsDuplicate(Tables(), c.id, c.duplicate)
      modifies this
      ensures counts.0 + counts.1 + counts.2 == |cs| && counts.0 == |Planned(rows, cs, |cs|, normalize)|
      ensures counts.1 == Ambiguous(rows, cs, |cs|, normalize) && counts.2 == Unmatched(rows, cs, |cs|, normalize)
      ensures !dryRun && r.Ok? ==>
              r.value.0 == |Planned(rows, cs, |cs|, normalize)| && r.value.1 + |tracks| == |old(tracks)|
      ensures var matched, width := Planned(rows, cs, |cs|, normalize), if size < 1 then 1 else size;
              && IsPlan(old(Tables()), matched)
              && Tables() == Batched(Remap, old(Tables()), matched, width, batches)
              && (dryRun ==> batches == 0 && r.Ok?)
              && (!dryRun && r.Ok? ==> Done(matched, width, batches) == matched)
      ensures WellFormed(Tables()) && KeptLocal(old(Tables()), Tables())
    {
      hide WellFormed, KeptLocal, ListsLocals, IsDuplicate;
      ghost var before := Tables();
      var width := if size < 1 then 1 else size;
      var index := LocalTrackSuffixIndex(rows);
      var matched, ambiguous, unmatched := FindMatches(rows, index, cs, normalize);
      counts, r, batches := (|matched|, ambiguous, unmatched), Ok((0, 0)), 0;
      PlannedIsPlan(before, rows, cs, |cs|, normalize);
      assert forall m :: m in matched ==> LocalTarget(before, m);
      if !dryRun && matched != [] {
        r, batches := ApplyMatches(matched, width, fault);
      }
      MigrationInBatches(before, matched, width, batches);
    }
  }

  lemma {:induction false} NoneRemapped(db: Db, batch: seq<Match>)
    ensures RemapEach(db, batch[..0]) == db
  {
  }

  lemma {:induction false} NextBatch(db: Db, ms: seq<Match>, size: nat, k: nat)
    ensures Batched(Remap, db, ms, size, k + 1) == RemapEach(Batched(Remap, db, ms, size, k), Slice(ms, size, k))
  {
  }
}
