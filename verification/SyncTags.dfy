/**
 The tags that tracks hold after a catalog sync (app/navidrome_sync.py:148-195,
 540-605): placeholders take those of their songs, other rows keep theirs. And
 where the ids recorded as aliases lead.
 */
module SyncTags {
  import opened Wrappers
  import opened CatalogTables
  import opened CatalogSync
  import opened SyncTheorems

  ghost predicate Holds(db: Db, path: Path, meta: Metadata) {
    exists t :: t in db.tracks && db.tracks[t].path == path && db.tracks[t].meta == meta
  }

  /** The song is handled and takes the branch that writes tags: its id is new, or on a placeholder and changed. */
  ghost predicate Upserts(all: Known, s: Song, fault: Fault) {
    && s.id.text != "" && fault != BeforeWrites
    && (s.id in all ==>
          && all[s.id].path.Some? && all[s.id].path.value.Navidrome?
          && !(all[s.id].raw == Some(s.raw) && all[s.id].path.value == Navidrome(s.id) && all[s.id].meta == s.meta))
  }

  lemma {:induction false} RecordedTracks(db: Db, s: Song, t: TrackId, fault: Fault)
    ensures Recorded(db, s, t, fault).tracks == db.tracks
  {
  }

  /** What a song does to the rows: an upsert at its placeholder, one flag, or nothing. */
  lemma {:induction false} StepTracks(db: Db, all: Known, s: Song, fault: Fault)
    ensures var after := SyncSong(db, all, s, fault).tracks;
            if Upserts(all, s, fault) then after == WithTrack(db, Navidrome(s.id), s.meta).tracks
            else
              && after.Keys == db.tracks.Keys
              && forall t :: t in after ==> after[t].path == db.tracks[t].path && after[t].meta == db.tracks[t].meta
  {
    hide Recorded, Refreshed, WithTrack, RowFor;
    RecordedTracks(db, s, if s.id in all then all[s.id].track else 0, fault);
    RecordedTracks(WithTrack(db, Navidrome(s.id), s.meta), s, RowFor(db, Navidrome(s.id)), fault);
    if s.id in all {
      RefreshedShape(db, s, all[s.id].track, fault);
    }
  }

  /** One song writes its tags to the row of its placeholder, or changes no row's tags. */
  lemma {:induction false} StepTags(db: Db, all: Known, s: Song, fault: Fault, t: TrackId)
    requires UniquePaths(db) && t in db.tracks
    ensures var after := SyncSong(db, all, s, fault);
            && t in after.tracks && after.tracks[t].path == db.tracks[t].path
            && after.tracks[t].meta == if Upserts(all, s, fault) && db.tracks[t].path == Navidrome(s.id) then s.meta
                                       else db.tracks[t].meta
  {
    UpsertUnique(db, Navidrome(s.id), s.meta);
    var row := RowFor(db, Navidrome(s.id));
    assert db.tracks[t].path == Navidrome(s.id) ==> t == row;
    hide *;
    StepTracks(db, all, s, fault);
  }

  lemma {:induction false} StepHolds(db: Db, all: Known, s: Song, fault: Fault)
    requires UniquePaths(db) && Upserts(all, s, fault)
    ensures Holds(SyncSong(db, all, s, fault), Navidrome(s.id), s.meta)
  {
    UpsertUnique(db, Navidrome(s.id), s.meta);
    hide UniquePaths, WithTrack, RowFor, SyncSong;
    StepTracks(db, all, s, fault);
    assert SyncSong(db, all, s, fault).tracks[RowFor(db, Navidrome(s.id))].meta == s.meta;
  }

  /** The tags of a placeholder are settled: those all its songs agree on, or still the ones from before. */
  ghost predicate Agree(songs: seq<Song>, e: ExternalId, meta: Metadata) {
    forall i :: 0 <= i < |songs| && songs[i].id == e ==> songs[i].meta == meta
  }

  ghost predicate SomeUpserts(all: Known, songs: seq<Song>, faults: seq<Fault>, e: ExternalId)
    requires |faults| == |songs|
  {
    exists i :: 0 <= i < |songs| && songs[i].id == e && Upserts(all, songs[i], faults[i])
  }

  lemma {:induction false} UpsertsLast(all: Known, songs: seq<Song>, faults: seq<Fault>, e: ExternalId)
    requires |faults| == |songs| && songs != []
    ensures var n := |songs| - 1;
            SomeUpserts(all, songs, faults, e) <==>
            SomeUpserts(all, songs[..n], faults[..n], e) || (songs[n].id == e && Upserts(all, songs[n], faults[n]))
  {
    hide Upserts;
    var n := |songs| - 1;
    assert forall i :: 0 <= i < n ==> songs[..n][i] == songs[i] && faults[..n][i] == faults[i];
  }

  lemma {:induction false} SongsUnique(base: Db, all: Known, songs: seq<Song>, faults: seq<Fault>)
    requires |faults| == |songs| && UniquePaths(base)
    ensures UniquePaths(SyncSongs(base, all, songs, faults))
  {
    if songs != [] {
      var n := |songs| - 1;
      hide UniquePaths, SyncSong;
      SongsUnique(base, all, songs[..n], faults[..n]);
      SyncSongUnique(SyncSongs(base, all, songs[..n], faults[..n]), all, songs[n], faults[n]);
    }
  }

  /** A row keeps its path over the loop, and its tags unless it is the placeholder of a song that writes some. */
  lemma {:induction false} TagsKept(base: Db, all: Known, songs: seq<Song>, faults: seq<Fault>, t: TrackId)
    requires |faults| == |songs| && UniquePaths(base) && t in base.tracks
    ensures var end, path := SyncSongs(base, all, songs, faults), base.tracks[t].path;
            && t in end.tracks && end.tracks[t].path == path
            && (path.Local? || !SomeUpserts(all, songs, faults, path.id) ==> end.tracks[t].meta == base.tracks[t].meta)
  {
    if songs != [] {
      hide UniquePaths, SyncSong, SomeUpserts, Upserts;
      var n := |songs| - 1;
      TagsKept(base, all, songs[..n], faults[..n], t);
      SongsUnique(base, all, songs[..n], faults[..n]);
      StepTags(SyncSongs(base, all, songs[..n], faults[..n]), all, songs[n], faults[n], t);
      UpsertsLast(all, songs, faults, songs[n].id);
      if base.tracks[t].path.Navidrome? {
        UpsertsLast(all, songs, faults, base.tracks[t].path.id);
      }
    }
  }

  /** Once one of its songs has written its tags, a placeholder holds what its songs agree on. */
  lemma {:induction false} TagsWritten(base: Db, all: Known, songs: seq<Song>, faults: seq<Fault>, e: ExternalId,
                                       meta: Metadata)
    requires |faults| == |songs| && UniquePaths(base)
    requires Agree(songs, e, meta) && SomeUpserts(all, songs, faults, e)
    ensures Holds(SyncSongs(base, all, songs, faults), Navidrome(e), meta)
  {
    var n := |songs| - 1;
    var db := SyncSongs(base, all, songs[..n], faults[..n]);
    assert Agree(songs[..n], e, meta) by {
      assert forall i :: 0 <= i < n ==> songs[..n][i] == songs[i];
    }
    hide UniquePaths, SyncSong, SomeUpserts, Upserts;
    SongsUnique(base, all, songs[..n], faults[..n]);
    UpsertsLast(all, songs, faults, e);
    if songs[n].id == e && Upserts(all, songs[n], faults[n]) {
      StepHolds(db, all, songs[n], faults[n]);
    } else {
      TagsWritten(base, all, songs[..n], faults[..n], e, meta);
      var t :| t in db.tracks && db.tracks[t].path == Navidrome(e) && db.tracks[t].meta == meta;
      StepTags(db, all, songs[n], faults[n], t);
    }
  }

  // ------------------------------------------------------------- the theorems

  /** What the run makes of the rows that were there: paths as relinking left them, tags as the loop left them. */
  lemma {:induction false} MarkingKeeps(db: Db, gone: set<TrackId>, path: Path, meta: Metadata)
    ensures Holds(WithAllMissing(db, gone), path, meta) <==> Holds(db, path, meta)
    ensures UniquePaths(WithAllMissing(db, gone)) <==> UniquePaths(db)
  {
    var after := WithAllMissing(db, gone);
    assert forall t :: t in db.tracks <==> t in after.tracks;
    assert forall t :: t in db.tracks ==> after.tracks[t].path == db.tracks[t].path;
  }

  lemma {:induction false} InjectedAgree(songs: seq<Song>, albums: Albums, e: ExternalId, meta: Metadata)
    requires Agree(songs, e, meta)
    ensures Agree(InjectAll(songs, albums), e, meta)
  {
  }

  /** Without an upsert a handled placeholder already held the tags its songs bring. */
  lemma {:induction false} UnchangedTags(all: Known, songs: seq<Song>, faults: seq<Fault>, e: ExternalId,
                                         meta: Metadata, i: nat)
    requires |faults| == |songs| && i < |songs| && songs[i].id == e && e.text != "" && faults[i] != BeforeWrites
    requires Agree(songs, e, meta) && !SomeUpserts(all, songs, faults, e)
    requires e in all ==> all[e].path.Some? && all[e].path.value.Navidrome?
    ensures e in all && all[e].path.value == Navidrome(e) && all[e].meta == meta
  {
    assert !Upserts(all, songs[i], faults[i]);
  }

  /**
   After a full run, whatever failed, the placeholder of a seen id holds the tags its
   songs agree on, once one of them was handled, in whichever branch.
   */
  lemma {:induction false} SeenTags(before: Db, songs: seq<Song>, albums: Albums, faults: seq<Fault>, pairs: Pairs,
                                    all: Known, mid: Db, after: Db, e: ExternalId, meta: Metadata, i: nat)
    requires FullRun(before, songs, albums, faults, pairs, all, mid, after)
    requires WellFormed(before) && RawsNamed(before, songs)
    requires i < |songs| && songs[i].id == e && e.text != "" && faults[i] != BeforeWrites
    requires Agree(songs, e, meta)
    requires e in all ==> all[e].path.Some? && all[e].path.value.Navidrome?
    ensures exists t ::
      && t in after.tracks && after.tracks[t].path == Navidrome(e) && after.tracks[t].meta == meta
      && (e in all ==> t == all[e].track) && (e in after.external ==> t == after.external[e].track)
  {
    var injected := InjectAll(songs, albums);
    var end := SyncSongs(mid, all, injected, faults);
    var gone := StaleTracks(before, songs, pairs);
    assert after == WithAllMissing(end, gone) && UniquePaths(mid);
    assert injected[i].id == e;
    PairsUnseen(Snapshot(before), songs, pairs);
    assert songs[i] in songs && e in SeenIds(songs) && e !in pairs;
    InjectedAgree(songs, albums, e, meta);
    hide Agree, InjectAll, SyncSongs, WithAllMissing, StaleTracks;
    if SomeUpserts(all, injected, faults, e) {
      TagsWritten(mid, all, injected, faults, e, meta);
    } else {
      UnchangedTags(all, injected, faults, e, meta, i);
      HeldBefore(before, songs, pairs, all, mid, e);
      TagsKept(mid, all, injected, faults, all[e].track);
    }
    MarkingKeeps(end, gone, Navidrome(e), meta);
    SongsUnique(mid, all, injected, faults);
    RowOf(before, songs, albums, faults, pairs, all, mid, after, e, meta);
  }

  /** After relinking, the placeholder of an id that was known all along has its path and the tags of the snapshot. */
  lemma {:induction false} HeldBefore(before: Db, songs: seq<Song>, pairs: Pairs, all: Known, mid: Db, e: ExternalId)
    requires WellFormed(before) && Relinks(before, songs, pairs, all, mid)
    requires e in all && e !in pairs && all[e].path == Some(Navidrome(e))
    ensures all[e].track in mid.tracks
    ensures mid.tracks[all[e].track].path == Navidrome(e) && mid.tracks[all[e].track].meta == all[e].meta
  {
    OriginHome(before, songs, pairs, all, mid, e);
    SameFlag(before, Snapshot(before), pairs, mid, all[e].track);
  }

  lemma {:induction false} RowOf(before: Db, songs: seq<Song>, albums: Albums, faults: seq<Fault>, pairs: Pairs,
                                 all: Known, mid: Db, after: Db, e: ExternalId, meta: Metadata)
    requires FullRun(before, songs, albums, faults, pairs, all, mid, after)
    requires WellFormed(before) && RawsNamed(before, songs)
    requires UniquePaths(after) && Holds(after, Navidrome(e), meta) && e !in pairs
    requires e in all ==> all[e].path.Some? && all[e].path.value.Navidrome?
    ensures exists t ::
      && t in after.tracks && after.tracks[t].path == Navidrome(e) && after.tracks[t].meta == meta
      && (e in all ==> t == all[e].track) && (e in after.external ==> t == after.external[e].track)
  {
    RunProgress(before, songs, albums, faults, pairs, all, mid, after);
    if e in all {
      OriginHome(before, songs, pairs, all, mid, e);
    }
    hide FullRun, WellFormed, RawsNamed, Relinks, Catalogued, Written;
    var t :| t in after.tracks && after.tracks[t].path == Navidrome(e) && after.tracks[t].meta == meta;
  }

  /**
   Other rows keep their tags: those of local files, and placeholders none of whose
   songs was handled.
   */
  lemma {:induction false} OtherTags(before: Db, songs: seq<Song>, albums: Albums, faults: seq<Fault>, pairs: Pairs,
                                     all: Known, mid: Db, after: Db, t: TrackId)
    requires FullRun(before, songs, albums, faults, pairs, all, mid, after) && t in before.tracks
    ensures t in mid.tracks && t in after.tracks && after.tracks[t].path == mid.tracks[t].path
    ensures before.tracks[t].path.Local? ==> after.tracks[t].path == before.tracks[t].path
    ensures after.tracks[t].meta == before.tracks[t].meta
         || exists i :: 0 <= i < |songs| && mid.tracks[t].path == Navidrome(songs[i].id) && faults[i] != BeforeWrites
  {
    hide IsRelinking, IsExtension, UniquePaths, SyncSongs, StaleTracks, InjectAll;
    var injected := InjectAll(songs, albums);
    SameFlag(before, Snapshot(before), pairs, mid, t);
    if before.tracks[t].path.Local? {
      LocalStays(before, Snapshot(before), pairs, mid, t);
    }
    TagsKept(mid, all, injected, faults, t);
    hide Relinks, RelinkEffect;
    if after.tracks[t].meta != before.tracks[t].meta {
      var e := mid.tracks[t].path.id;
      var i :| 0 <= i < |injected| && injected[i].id == e && Upserts(all, injected[i], faults[i]);
      InjectedId(songs, albums, i);
    }
  }

  lemma {:induction false} InjectedId(songs: seq<Song>, albums: Albums, i: nat)
    requires i < |songs|
    ensures InjectAll(songs, albums)[i].id == songs[i].id
  {
  }

  /** Relinking renames placeholders only. */
  lemma {:induction false} LocalStays(before: Db, known: Known, pairs: Pairs, mid: Db, t: TrackId)
    requires known == Snapshot(before) && pairs.Keys <= known.Keys && RelinkEffect(before, known, pairs, mid)
    requires t in before.tracks && before.tracks[t].path.Local?
    ensures t in mid.tracks && mid.tracks[t].path == before.tracks[t].path
  {
    if o :| o in pairs && known[o].track == t {
      assert mid.tracks[t] == Moved(before.tracks[t], known[o], pairs[o]);
    }
  }

  // ---------------------------------------------------------------- the aliases

  /** Once its alias was written, an id is an alias of the track it is mapped to. */
  ghost predicate AliasSet(db: Db, e: ExternalId) {
    e in db.external && e in db.aliases && db.aliases[e] == db.external[e].track
  }

  ghost predicate Records(s: Song, fault: Fault, e: ExternalId) {
    s.id == e && e.text != "" && fault == NoFault
  }

  lemma {:induction false} OtherAlias(db: Db, all: Known, s: Song, fault: Fault, e: ExternalId)
    requires s.id != e && e in db.aliases
    ensures var after := SyncSong(db, all, s, fault); e in after.aliases && after.aliases[e] == db.aliases[e]
  {
    hide RowFor;
  }

  /** The row a changed song of an id that is mapped already goes to is that id's. */
  lemma {:induction false} SameRow(base: Db, all: Known, pairs: Pairs, novel: set<ExternalId>, done: set<ExternalId>,
                                   db: Db, s: Song, fault: Fault, d: Db, t: TrackId)
    requires Base(base, all, pairs, novel) && Progress(base, all, pairs, novel, done, db)
    requires Changes(all, s, fault) && Shape(db, all, s, fault, d, t) && s.id in db.external
    ensures db.external[s.id].track == t
  {
    if s.id !in all {
      assert db.tracks[db.external[s.id].track].path == Navidrome(s.id);
    }
  }

  lemma {:induction false} ShapeAlias(db: Db, all: Known, s: Song, fault: Fault, d: Db, t: TrackId)
    requires Changes(all, s, fault) && Shape(db, all, s, fault, d, t)
    ensures var after := SyncSong(db, all, s, fault);
            after.aliases == if fault == NoFault then db.aliases[s.id := t] else db.aliases
  {
  }

  lemma {:induction false} ChangedAlias(base: Db, all: Known, pairs: Pairs, novel: set<ExternalId>,
                                        done: set<ExternalId>, db: Db, s: Song, fault: Fault)
    requires Base(base, all, pairs, novel) && Progress(base, all, pairs, novel, done, db)
    requires Tells(all, pairs, novel, s) && Changes(all, s, fault)
    requires AliasSet(db, s.id) || fault == NoFault
    ensures AliasSet(SyncSong(db, all, s, fault), s.id)
  {
    var d, t := StepShape(base, all, pairs, novel, done, db, s, fault);
    if s.id in db.external {
      SameRow(base, all, pairs, novel, done, db, s, fault, d, t);
    }
    ExternalFromShape(db, all, s, fault, d, t);
    ShapeAlias(db, all, s, fault, d, t);
    hide *;
  }

  /** An unchanged song is on the track its id is mapped to. */
  lemma {:induction false} UnchangedAlias(base: Db, all: Known, pairs: Pairs, novel: set<ExternalId>,
                                          done: set<ExternalId>, db: Db, s: Song, fault: Fault)
    requires Base(base, all, pairs, novel) && Progress(base, all, pairs, novel, done, db)
    requires Tells(all, pairs, novel, s) && !Changes(all, s, fault)
    requires s.id.text != "" && fault != BeforeWrites
    requires AliasSet(db, s.id) || fault == NoFault
    ensures AliasSet(SyncSong(db, all, s, fault), s.id)
  {
    assert s.id in db.external && db.external[s.id].track == all[s.id].track;
    assert all[s.id].track in db.tracks;
    hide Base, Progress;
  }

  lemma {:induction false} StepAlias(base: Db, all: Known, pairs: Pairs, novel: set<ExternalId>, done: set<ExternalId>,
                                     db: Db, s: Song, fault: Fault, e: ExternalId)
    requires Base(base, all, pairs, novel) && Progress(base, all, pairs, novel, done, db)
    requires Tells(all, pairs, novel, s) && e !in pairs
    requires AliasSet(db, e) || Records(s, fault, e)
    ensures AliasSet(SyncSong(db, all, s, fault), e)
  {
    hide Base, Progress, RowFor, WithTrack, WithExternal, Tells;
    var after := SyncSong(db, all, s, fault);
    if s.id != e {
      StepKeepsOthers(base, all, pairs, novel, done, db, s, fault, e);
      OtherAlias(db, all, s, fault, e);
    } else if Changes(all, s, fault) {
      ChangedAlias(base, all, pairs, novel, done, db, s, fault);
    } else if e.text != "" && fault != BeforeWrites {
      UnchangedAlias(base, all, pairs, novel, done, db, s, fault);
    }
  }

  lemma {:induction false} AliasAfter(base: Db, all: Known, pairs: Pairs, novel: set<ExternalId>, songs: seq<Song>,
                                      faults: seq<Fault>, e: ExternalId, i: nat)
    requires |faults| == |songs| && e !in pairs
    requires Base(base, all, pairs, novel) && Progress(base, all, pairs, novel, {}, base)
    requires Catalogued(songs, all, pairs, novel)
    requires i < |songs| && Records(songs[i], faults[i], e)
    ensures AliasSet(SyncSongs(base, all, songs, faults), e)
  {
    hide Base, Progress, AliasSet, SyncSong, Tells;
    var n := |songs| - 1;
    assert forall k :: 0 <= k < n ==> songs[..n][k] == songs[k];
    var db := SyncSongs(base, all, songs[..n], faults[..n]);
    SongsKeep(base, all, pairs, novel, songs[..n], faults[..n]);
    if i < n {
      AliasAfter(base, all, pairs, novel, songs[..n], faults[..n], e, i);
    }
    StepAlias(base, all, pairs, novel, AllDone(songs[..n], faults[..n]), db, songs[n], faults[n], e);
  }

  /** An id one of whose songs was handled without failure is an alias of the track it is mapped to. */
  lemma {:induction false} AliasLeads(before: Db, songs: seq<Song>, albums: Albums, faults: seq<Fault>, pairs: Pairs,
                                      all: Known, mid: Db, after: Db, i: nat)
    requires FullRun(before, songs, albums, faults, pairs, all, mid, after)
    requires WellFormed(before) && RawsNamed(before, songs)
    requires i < |songs| && songs[i].id.text != "" && faults[i] == NoFault
    ensures AliasSet(after, songs[i].id)
  {
    hide WellFormed, RawsNamed, SyncSongs, StaleTracks, InjectAll, Written, RelinkEffect, UniquePaths, IsExtension;
    var injected := InjectAll(songs, albums);
    RunProgress(before, songs, albums, faults, pairs, all, mid, after);
    PairsUnseen(Snapshot(before), songs, pairs);
    assert songs[i] in songs && songs[i].id in SeenIds(songs);
    hide IsRelinking, Base, Progress, Catalogued;
    InjectedId(songs, albums, i);
    AliasAfter(mid, all, pairs, pairs.Values, injected, faults, songs[i].id, i);
  }
}
