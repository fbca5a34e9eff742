/**
 The catalog sync as steps on the tables, and what every step keeps
 (app/navidrome_sync.py). `Catalog.dfy` is the code itself.
 */
module CatalogSync {
  import opened Wrappers
  import opened CatalogTables

  type Known = map<ExternalId, Mapping>

  /** Relinked ids, old to new. */
  type Pairs = map<ExternalId, ExternalId>

  /** Where handling one song may raise; each song has its own handler, and nothing is rolled back. */
  datatype Fault = NoFault | BeforeWrites | AfterTrack | AfterExternal

  // ---------------------------------------------------------------- relinking

  ghost function SeenIds(songs: seq<Song>): set<ExternalId> {
    set s | s in songs && s.id.text != "" :: s.id
  }

  ghost predicate Vanished(known: Known, songs: seq<Song>, e: ExternalId) {
    && e in known && e !in SeenIds(songs) && known[e].path.Some?
    && known[e].raw.Some? && known[e].raw.value.path != ""
  }

  ghost predicate Claims(songs: seq<Song>, i: nat, path: string) {
    i < |songs| && songs[i].id.text != "" && songs[i].raw.path == path
  }

  /** One catalog entry, with id `n`, claims the path, and no other entry does. */
  ghost predicate SoleClaimant(songs: seq<Song>, path: string, n: ExternalId) {
    exists i: nat :: Claims(songs, i, path) && songs[i].id == n && forall j: nat :: Claims(songs, j, path) ==> j == i
  }

  /** `o` is the only vanished owner of its source path and `n` its only claimant. */
  ghost predicate Rotated(known: Known, songs: seq<Song>, o: ExternalId, n: ExternalId) {
    && Vanished(known, songs, o)
    && (forall d :: Vanished(known, songs, d) && known[d].raw.value.path == known[o].raw.value.path ==> d == o)
    && SoleClaimant(songs, known[o].raw.value.path, n)
  }

  /**
   The relinked ids: an injection from vanished ids into ids never known before,
   as large as the rule allows.
   */
  ghost predicate IsRelinking(known: Known, songs: seq<Song>, pairs: Pairs) {
    && (forall o {:trigger pairs[o]} :: o in pairs ==> Rotated(known, songs, o, pairs[o]) && pairs[o] !in known)
    && (forall o, p {:trigger pairs[o], pairs[p]} :: o in pairs && p in pairs && pairs[o] == pairs[p] ==> o == p)
    && (forall o, n :: Rotated(known, songs, o, n) && n !in known ==> n in pairs.Values)
  }

  /** The snapshot after the relink loop has added the new ids to it. */
  ghost predicate IsExtension(known: Known, pairs: Pairs, all: Known)
    requires pairs.Keys <= known.Keys
  {
    && all.Keys == known.Keys + pairs.Values
    && (forall e :: e in known ==> all[e] == known[e])
    && (forall o {:trigger pairs[o]} :: o in pairs ==> all[pairs[o]] == known[o])
  }

  /** A relinked row: a placeholder follows the new id, a local file stays. */
  ghost function Moved(row: Track, mapping: Mapping, n: ExternalId): Track {
    if mapping.path.Some? && mapping.path.value.Navidrome? then row.(path := Navidrome(n)) else row
  }

  /** What the relink loop writes. */
  ghost predicate RelinkEffect(before: Db, known: Known, pairs: Pairs, after: Db)
    requires pairs.Keys <= known.Keys
  {
    && after.external == before.external && after.nextId == before.nextId
    && after.tracks.Keys == before.tracks.Keys
    && (forall t :: t in before.tracks && (forall o {:trigger pairs[o]} :: o in pairs ==> known[o].track != t) ==>
          after.tracks[t] == before.tracks[t])
    && (forall o {:trigger pairs[o]} :: o in pairs && known[o].track in before.tracks ==>
          after.tracks[known[o].track] == Moved(before.tracks[known[o].track], known[o], pairs[o]))
    && (forall a :: a in after.aliases <==> a in before.aliases && !(a in pairs && before.aliases[a] == known[a].track))
    && (forall a :: a in after.aliases ==> after.aliases[a] == before.aliases[a])
  }

  // ------------------------------------------------------------ one song's step

  ghost function Refreshed(db: Db, s: Song, t: TrackId, fault: Fault): Db {
    var d := WithMissing(db, t, false);
    if fault != NoFault || t !in db.tracks then d else WithAlias(d, s.id, t)
  }

  ghost function Recorded(db: Db, s: Song, t: TrackId, fault: Fault): Db {
    if fault == AfterTrack || t !in db.tracks then db
    else
      var d := WithExternal(db, s.id, t, s.raw);
      if fault == AfterExternal then d else WithAlias(d, s.id, t)
  }

  /** Nothing has changed for this song since it was last written. */
  ghost predicate Unchanged(m: Mapping, s: Song) {
    && m.raw == Some(s.raw)
    && m.path.Some? && (m.path.value.Local? || (m.path.value == Navidrome(s.id) && m.meta == s.meta))
  }

  /** The body of the catalog loop for one song, album fields already injected. */
  ghost function SyncSong(db: Db, all: Known, s: Song, fault: Fault): Db {
    if s.id.text == "" || fault == BeforeWrites || (s.id in all && all[s.id].path.None?) then db
    else if s.id in all && Unchanged(all[s.id], s) then
      Refreshed(db, s, all[s.id].track, fault)
    else if s.id in all && all[s.id].path.value.Local? then
      Recorded(db, s, all[s.id].track, fault)
    else
      Recorded(WithTrack(db, Navidrome(s.id), s.meta), s, RowFor(db, Navidrome(s.id)), fault)
  }

  ghost function SyncSongs(db: Db, all: Known, songs: seq<Song>, faults: seq<Fault>): Db
    requires |faults| == |songs|
  {
    if songs == [] then db
    else
      var n := |songs| - 1;
      SyncSong(SyncSongs(db, all, songs[..n], faults[..n]), all, songs[n], faults[n])
  }

  ghost function WithAllMissing(db: Db, gone: set<TrackId>): Db {
    db.(tracks := map t | t in db.tracks :: if t in gone then db.tracks[t].(missing := true) else db.tracks[t])
  }

  // ---------------------------------------------------------- the loop invariant

  ghost predicate HasHome(path: Path, snapshot: Path, e: ExternalId) {
    if snapshot.Local? then path == snapshot else path == Navidrome(e)
  }

  /** What relinking leaves behind; `novel` are the new ids of the pairs. */
  ghost predicate Base(db: Db, all: Known, pairs: Pairs, novel: set<ExternalId>) {
    && UniquePaths(db)
    && (forall d {:trigger pairs[d]} :: d in pairs ==>
          d in all && pairs[d] in all && pairs[d] !in pairs && pairs[d] in novel && all[pairs[d]].track == all[d].track)
    && (forall c, d {:trigger pairs[c], pairs[d]} :: c in pairs && d in pairs && pairs[c] == pairs[d] ==> c == d)
    && (forall e :: e in all ==> all[e].track in db.tracks && all[e].path.Some?)
    && (forall d, e {:trigger all[d].track, all[e].track} ::
          d in all && e in all && d !in pairs && e !in pairs && all[d].track == all[e].track ==> d == e)
    && (forall e :: e in all && e !in pairs ==> HasHome(db.tracks[all[e].track].path, all[e].path.value, e))
  }

  /** Rows persist with their path, and a row the loop added is at the placeholder of a new id. */
  ghost predicate TracksKept(base: Db, all: Known, db: Db) {
    && UniquePaths(db) && base.nextId <= db.nextId
    && (forall t :: t in base.tracks ==> t in db.tracks && db.tracks[t].path == base.tracks[t].path)
    && (forall t :: t in db.tracks && t !in base.tracks ==>
          db.tracks[t].path.Navidrome? && db.tracks[t].path.id !in all)
  }

  /** Each live id keeps its track; a retired id stands in until its successor, in `done`, is written. */
  ghost predicate IdsKept(all: Known, pairs: Pairs, novel: set<ExternalId>, done: set<ExternalId>, db: Db) {
    && (forall e :: e in all && e in db.external ==> db.external[e].track == all[e].track)
    && (forall e :: e in all && e !in novel && e !in pairs ==> e in db.external)
    && (forall e :: e in done && e !in pairs ==> e in db.external)
    && (forall d {:trigger pairs[d]} :: d in pairs && pairs[d] !in done ==> d in db.external)
  }

  /** Every other id is at its own placeholder. */
  ghost predicate NewIdsAtHome(all: Known, db: Db) {
    forall e :: e in db.external && e !in all ==>
      db.external[e].track in db.tracks && db.tracks[db.external[e].track].path == Navidrome(e)
  }

  /** Holds before every song. */
  ghost predicate Progress(base: Db, all: Known, pairs: Pairs, novel: set<ExternalId>, done: set<ExternalId>, db: Db) {
    TracksKept(base, all, db) && Injective(db) && IdsKept(all, pairs, novel, done, db) && NewIdsAtHome(all, db)
  }

  /** The song's external row is written before anything can raise. */
  ghost predicate Writes(s: Song, fault: Fault) {
    s.id.text != "" && fault != BeforeWrites && fault != AfterTrack
  }

  /** The song is not retired, and if it replaces an id its raw JSON differs from what that id stored. */
  ghost predicate Tells(all: Known, pairs: Pairs, novel: set<ExternalId>, s: Song) {
    s.id.text != "" ==> s.id !in pairs && (s.id in novel && s.id in all ==> all[s.id].raw != Some(s.raw))
  }

  // -------------------------------------------------------------- step by step

  /** The row an upsert at a placeholder path touches. */
  lemma {:induction false} RowForFound(db: Db, path: Path, t: TrackId)
    requires UniquePaths(db) && t in db.tracks && db.tracks[t].path == path
    ensures RowFor(db, path) == t
  {
  }

  /** An upsert keeps both UNIQUE constraints. */
  lemma {:induction false} UpsertUnique(db: Db, path: Path, meta: Metadata)
    requires UniquePaths(db)
    ensures var after := WithTrack(db, path, meta);
            var t := RowFor(db, path);
            && UniquePaths(after) && after.nextId >= db.nextId && after.external == db.external
               && after.aliases == db.aliases
            && t in after.tracks && after.tracks[t] == Track(path, meta, false)
            && (t in db.tracks ==> db.tracks[t].path == path)
            && (forall u :: u in db.tracks && u != t ==> u in after.tracks && after.tracks[u] == db.tracks[u])
            && (forall u :: u in after.tracks && u != t ==> u in db.tracks)
  {
  }

  /** `Progress` reads ids and paths, not flags, metadata or aliases. */
  lemma {:induction false} ProgressFrame(base: Db, all: Known, pairs: Pairs, novel: set<ExternalId>,
                                         done: set<ExternalId>, db: Db, after: Db)
    requires Progress(base, all, pairs, novel, done, db)
    requires after.external == db.external && after.nextId == db.nextId && after.tracks.Keys == db.tracks.Keys
    requires forall u :: u in db.tracks ==> after.tracks[u].path == db.tracks[u].path
    ensures Progress(base, all, pairs, novel, done, after)
  {
    assert UniquePaths(after);
    assert TracksKept(base, all, after);
    assert Injective(after) && NewIdsAtHome(all, after);
  }

  /** What an upsert at a placeholder does to the rows, told by its row. */
  ghost predicate Upserted(db: Db, after: Db, id: ExternalId, t: TrackId) {
    && UniquePaths(after) && after.nextId >= db.nextId && after.external == db.external
    && t in after.tracks && after.tracks[t].path == Navidrome(id)
    && (t in db.tracks ==> db.tracks[t].path == Navidrome(id))
    && (forall u :: u in db.tracks && u != t ==> u in after.tracks && after.tracks[u].path == db.tracks[u].path)
    && (forall u :: u in after.tracks && u != t ==> u in db.tracks)
  }

  lemma {:induction false} UpsertedKeeps(base: Db, all: Known, pairs: Pairs, novel: set<ExternalId>,
                                         done: set<ExternalId>, db: Db, after: Db, id: ExternalId, t: TrackId)
    requires Progress(base, all, pairs, novel, done, db) && Upserted(db, after, id, t)
    requires t in db.tracks || id !in all
    ensures Progress(base, all, pairs, novel, done, after)
  {
    hide UniquePaths;
    assert TracksKept(base, all, after);
    assert Injective(after) && NewIdsAtHome(all, after) by {
      hide TracksKept, IdsKept;
    }
  }

  /** An upsert at a placeholder path that exists, or whose id is new to the catalog. */
  lemma {:induction false} UpsertKeeps(base: Db, all: Known, pairs: Pairs, novel: set<ExternalId>,
                                       done: set<ExternalId>, db: Db, id: ExternalId, meta: Metadata)
    requires Progress(base, all, pairs, novel, done, db)
    requires RowFor(db, Navidrome(id)) in db.tracks || id !in all
    ensures Progress(base, all, pairs, novel, done, WithTrack(db, Navidrome(id), meta))
  {
    UpsertUnique(db, Navidrome(id), meta);
    hide RowFor, WithTrack, IdsKept, NewIdsAtHome, Injective;
    UpsertedKeeps(base, all, pairs, novel, done, db, WithTrack(db, Navidrome(id), meta), id, RowFor(db, Navidrome(id)));
  }

  /** The only other id that can hold the track of a live id is the retired one it replaces. */
  lemma {:induction false} HolderOf(base: Db, all: Known, pairs: Pairs, novel: set<ExternalId>, done: set<ExternalId>,
                                    db: Db, e: ExternalId, d: ExternalId)
    requires Base(base, all, pairs, novel) && Progress(base, all, pairs, novel, done, db)
    requires e in all && e !in pairs
    requires d in db.external && db.external[d].track == all[e].track
    ensures d == e || (d in pairs && pairs[d] == e)
  {
    assert HasHome(base.tracks[all[e].track].path, all[e].path.value, e);
    if d in all && d in pairs {
      assert all[pairs[d]].track == all[e].track;
    }
  }

  lemma {:induction false} RecordInjective(db: Db, e: ExternalId, t: TrackId, raw: Raw)
    requires Injective(db) && t in db.tracks
    ensures Injective(WithExternal(db, e, t, raw))
  {
  }

  /** Writing the row of a live id: it takes the track over, and the retired id goes. */
  lemma {:induction false} RecordIds(base: Db, all: Known, pairs: Pairs, novel: set<ExternalId>, done: set<ExternalId>,
                                     db: Db, s: Song)
    requires Base(base, all, pairs, novel) && Progress(base, all, pairs, novel, done, db)
    requires s.id in all && s.id !in pairs
    ensures IdsKept(all, pairs, novel, done + {s.id}, WithExternal(db, s.id, all[s.id].track, s.raw))
  {
    var t := all[s.id].track;
    forall d | d in db.external && db.external[d].track == t
      ensures d == s.id || (d in pairs && pairs[d] == s.id)
    {
      HolderOf(base, all, pairs, novel, done, db, s.id, d);
    }
  }

  lemma {:induction false} RecordKeeps(base: Db, all: Known, pairs: Pairs, novel: set<ExternalId>,
                                       done: set<ExternalId>, db: Db, s: Song)
    requires Base(base, all, pairs, novel) && Progress(base, all, pairs, novel, done, db)
    requires s.id in all && s.id !in pairs
    ensures Progress(base, all, pairs, novel, done + {s.id}, WithExternal(db, s.id, all[s.id].track, s.raw))
  {
    RecordIds(base, all, pairs, novel, done, db, s);
    RecordInjective(db, s.id, all[s.id].track, s.raw);
  }

  /** No known id holds a track at the placeholder of an unknown one. */
  lemma {:induction false} NotHeld(base: Db, all: Known, pairs: Pairs, novel: set<ExternalId>, done: set<ExternalId>,
                                   db: Db, e: ExternalId, t: TrackId, d: ExternalId)
    requires Base(base, all, pairs, novel) && Progress(base, all, pairs, novel, done, db)
    requires e !in all && t in db.tracks && db.tracks[t].path == Navidrome(e)
    requires d in db.external && d in all
    ensures db.external[d].track != t
  {
    var live := if d in pairs then pairs[d] else d;
    assert HasHome(base.tracks[all[live].track].path, all[live].path.value, live);
  }

  /** What `WithExternal` leaves, row by row, when no other known id holds the track. */
  lemma {:induction false} RecordNewIds(all: Known, pairs: Pairs, novel: set<ExternalId>, done: set<ExternalId>,
                                        db: Db, e: ExternalId, t: TrackId, raw: Raw)
    requires IdsKept(all, pairs, novel, done, db) && NewIdsAtHome(all, db) && e !in all
    requires t in db.tracks && db.tracks[t].path == Navidrome(e)
    requires forall d :: d in db.external && d in all ==> db.external[d].track != t
    ensures IdsKept(all, pairs, novel, done + {e}, WithExternal(db, e, t, raw))
    ensures NewIdsAtHome(all, WithExternal(db, e, t, raw))
  {
    var after := WithExternal(db, e, t, raw);
    assert forall d :: d in db.external && d in all ==> d in after.external && after.external[d] == db.external[d];
    assert forall d :: d in db.external && d !in all && d != e ==> db.external[d].track != t;
  }

  /** Writing the row of an id the catalog never knew. */
  lemma {:induction false} RecordNewKeeps(base: Db, all: Known, pairs: Pairs, novel: set<ExternalId>,
                                          done: set<ExternalId>, db: Db, s: Song, t: TrackId)
    requires Base(base, all, pairs, novel) && Progress(base, all, pairs, novel, done, db)
    requires s.id !in all && t in db.tracks && db.tracks[t].path == Navidrome(s.id)
    ensures Progress(base, all, pairs, novel, done + {s.id}, WithExternal(db, s.id, t, s.raw))
  {
    forall d | d in db.external && d in all ensures db.external[d].track != t {
      NotHeld(base, all, pairs, novel, done, db, s.id, t, d);
    }
    RecordNewIds(all, pairs, novel, done, db, s.id, t, s.raw);
    RecordInjective(db, s.id, t, s.raw);
  }

  /** The id whose external row this song writes. */
  ghost function Done(s: Song, fault: Fault): set<ExternalId> {
    if Writes(s, fault) then {s.id} else {}
  }

  /** An alias is all that `Recorded` adds to the external row. */
  lemma {:induction false} RecordedShape(db: Db, s: Song, t: TrackId, fault: Fault)
    requires t in db.tracks && fault != AfterTrack
    ensures var d := WithExternal(db, s.id, t, s.raw);
            var after := Recorded(db, s, t, fault);
            after.tracks == db.tracks && after.external == d.external && after.nextId == db.nextId
  {
  }

  lemma {:induction false} RecordedKeeps(base: Db, all: Known, pairs: Pairs, novel: set<ExternalId>,
                                         done: set<ExternalId>, db: Db, s: Song, fault: Fault)
    requires Base(base, all, pairs, novel) && Progress(base, all, pairs, novel, done, db)
    requires s.id in all && s.id !in pairs && Writes(s, fault)
    ensures Progress(base, all, pairs, novel, done + {s.id}, Recorded(db, s, all[s.id].track, fault))
  {
    RecordKeeps(base, all, pairs, novel, done, db, s);
    RecordedShape(db, s, all[s.id].track, fault);
    ProgressFrame(base, all, pairs, novel, done + {s.id}, WithExternal(db, s.id, all[s.id].track, s.raw),
                  Recorded(db, s, all[s.id].track, fault));
  }

  /** Writing an id that replaces none makes no difference to `done`. */
  lemma {:induction false} DoneGrows(base: Db, all: Known, pairs: Pairs, novel: set<ExternalId>, done: set<ExternalId>,
                                     db: Db, e: ExternalId)
    requires Base(base, all, pairs, novel) && Progress(base, all, pairs, novel, done, db)
    requires e in all && e !in novel
    ensures Progress(base, all, pairs, novel, done + {e}, db)
  {
    assert IdsKept(all, pairs, novel, done + {e}, db);
  }

  lemma {:induction false} StepNew(base: Db, all: Known, pairs: Pairs, novel: set<ExternalId>, done: set<ExternalId>,
                                   db: Db, s: Song, fault: Fault)
    requires Base(base, all, pairs, novel) && Progress(base, all, pairs, novel, done, db)
    requires s.id !in all && s.id.text != "" && fault != BeforeWrites
    ensures Progress(base, all, pairs, novel, done + Done(s, fault), SyncSong(db, all, s, fault))
  {
    var t := RowFor(db, Navidrome(s.id));
    var d := WithTrack(db, Navidrome(s.id), s.meta);
    UpsertUnique(db, Navidrome(s.id), s.meta);
    UpsertKeeps(base, all, pairs, novel, done, db, s.id, s.meta);
    if fault == AfterTrack {
      assert done + Done(s, fault) == done;
    } else {
      RecordNewKeeps(base, all, pairs, novel, done, d, s, t);
      ProgressFrame(base, all, pairs, novel, done + {s.id}, WithExternal(d, s.id, t, s.raw), Recorded(d, s, t, fault));
    }
  }

  /** A refresh touches one flag and one alias. */
  lemma {:induction false} RefreshedShape(db: Db, s: Song, t: TrackId, fault: Fault)
    ensures var after := Refreshed(db, s, t, fault);
            && after.external == db.external && after.nextId == db.nextId && after.tracks.Keys == db.tracks.Keys
            && (forall u :: u in db.tracks ==>
                  after.tracks[u] == if u == t then db.tracks[u].(missing := false) else db.tracks[u])
  {
  }

  lemma {:induction false} RefreshedKeeps(base: Db, all: Known, pairs: Pairs, novel: set<ExternalId>,
                                          done: set<ExternalId>, db: Db, s: Song, t: TrackId, fault: Fault)
    requires Progress(base, all, pairs, novel, done, db)
    ensures Progress(base, all, pairs, novel, done, Refreshed(db, s, t, fault))
  {
    RefreshedShape(db, s, t, fault);
    ProgressFrame(base, all, pairs, novel, done, db, Refreshed(db, s, t, fault));
  }

  lemma {:induction false} StepKnown(base: Db, all: Known, pairs: Pairs, novel: set<ExternalId>, done: set<ExternalId>,
                                     db: Db, s: Song, fault: Fault)
    requires Base(base, all, pairs, novel) && Progress(base, all, pairs, novel, done, db)
    requires s.id in all && Tells(all, pairs, novel, s)
    requires s.id.text != "" && fault != BeforeWrites
    ensures Progress(base, all, pairs, novel, done + Done(s, fault), SyncSong(db, all, s, fault))
  {
    hide Progress, Base, Refreshed;
    if Unchanged(all[s.id], s) {
      var after := Refreshed(db, s, all[s.id].track, fault);
      RefreshedKeeps(base, all, pairs, novel, done, db, s, all[s.id].track, fault);
      if Writes(s, fault) {
        DoneGrows(base, all, pairs, novel, done, after, s.id);
      } else {
        assert done + Done(s, fault) == done;
      }
    } else {
      StepChanged(base, all, pairs, novel, done, db, s, fault);
    }
  }

  /** The row of a live id whose snapshot is a placeholder is at its placeholder. */
  lemma {:induction false} PlaceholderRow(base: Db, all: Known, pairs: Pairs, novel: set<ExternalId>,
                                          done: set<ExternalId>, db: Db, e: ExternalId)
    requires Base(base, all, pairs, novel) && Progress(base, all, pairs, novel, done, db)
    requires e in all && e !in pairs
    ensures all[e].path.Some? && all[e].track in db.tracks
    ensures all[e].path.value.Navidrome? ==> RowFor(db, Navidrome(e)) == all[e].track
  {
    var t := all[e].track;
    assert HasHome(base.tracks[t].path, all[e].path.value, e);
    if all[e].path.value.Navidrome? {
      RowForFound(db, Navidrome(e), t);
    }
  }

  lemma {:induction false} StepChanged(base: Db, all: Known, pairs: Pairs, novel: set<ExternalId>,
                                       done: set<ExternalId>, db: Db, s: Song, fault: Fault)
    requires Base(base, all, pairs, novel) && Progress(base, all, pairs, novel, done, db)
    requires s.id in all && s.id !in pairs && !Unchanged(all[s.id], s)
    requires s.id.text != "" && fault != BeforeWrites
    ensures Progress(base, all, pairs, novel, done + Done(s, fault), SyncSong(db, all, s, fault))
  {
    hide Progress, Base, RowFor, WithTrack, WithExternal, Unchanged;
    var d := db;
    PlaceholderRow(base, all, pairs, novel, done, db, s.id);
    if all[s.id].path.value.Navidrome? {
      UpsertKeeps(base, all, pairs, novel, done, db, s.id, s.meta);
      d := WithTrack(db, Navidrome(s.id), s.meta);
    }
    if Writes(s, fault) {
      RecordedKeeps(base, all, pairs, novel, done, d, s, fault);
    } else {
      assert done + Done(s, fault) == done;
    }
  }

  /** Each song, failing or not, keeps the invariant. */
  lemma {:induction false} StepKeeps(base: Db, all: Known, pairs: Pairs, novel: set<ExternalId>, done: set<ExternalId>,
                                     db: Db, s: Song, fault: Fault)
    requires Base(base, all, pairs, novel) && Progress(base, all, pairs, novel, done, db)
    requires Tells(all, pairs, novel, s)
    ensures Progress(base, all, pairs, novel, done + Done(s, fault), SyncSong(db, all, s, fault))
  {
    hide Progress, Base;
    if s.id.text == "" || fault == BeforeWrites {
      assert done + Done(s, fault) == done;
    } else if s.id !in all {
      StepNew(base, all, pairs, novel, done, db, s, fault);
    } else {
      StepKnown(base, all, pairs, novel, done, db, s, fault);
    }
  }

  /** The ids a run of songs writes. */
  ghost function AllDone(songs: seq<Song>, faults: seq<Fault>): set<ExternalId>
    requires |faults| == |songs|
  {
    if songs == [] then {}
    else
      var n := |songs| - 1;
      AllDone(songs[..n], faults[..n]) + Done(songs[n], faults[n])
  }

  ghost predicate Catalogued(songs: seq<Song>, all: Known, pairs: Pairs, novel: set<ExternalId>) {
    forall i :: 0 <= i < |songs| ==> Tells(all, pairs, novel, songs[i])
  }

  lemma {:induction false} SongsKeep(base: Db, all: Known, pairs: Pairs, novel: set<ExternalId>, songs: seq<Song>,
                                     faults: seq<Fault>)
    requires |faults| == |songs|
    requires Base(base, all, pairs, novel) && Progress(base, all, pairs, novel, {}, base)
    requires Catalogued(songs, all, pairs, novel)
    ensures Progress(base, all, pairs, novel, AllDone(songs, faults), SyncSongs(base, all, songs, faults))
  {
    if songs != [] {
      var n := |songs| - 1;
      SongsKeep(base, all, pairs, novel, songs[..n], faults[..n]);
      StepKeeps(base, all, pairs, novel, AllDone(songs[..n], faults[..n]),
                SyncSongs(base, all, songs[..n], faults[..n]), songs[n], faults[n]);
    }
  }

  lemma {:induction false} AllDoneIs(songs: seq<Song>, faults: seq<Fault>, e: ExternalId)
    requires |faults| == |songs|
    ensures e in AllDone(songs, faults) <==>
            exists i :: 0 <= i < |songs| && songs[i].id == e && Writes(songs[i], faults[i])
  {
    if songs != [] {
      var n := |songs| - 1;
      AllDoneIs(songs[..n], faults[..n], e);
      assert forall i :: 0 <= i < n ==> songs[..n][i] == songs[i] && faults[..n][i] == faults[i];
    }
  }

  // ------------------------------------------------------------- missing flags

  /** The song clears the missing flag of a row that was there before the loop. */
  ghost predicate Touches(base: Db, all: Known, s: Song, fault: Fault, t: TrackId) {
    && s.id.text != "" && fault != BeforeWrites
    && if s.id in all
       then all[s.id].track == t && all[s.id].path.Some? && (Unchanged(all[s.id], s) || all[s.id].path.value.Navidrome?)
       else t in base.tracks && base.tracks[t].path == Navidrome(s.id)
  }

  /** The song is handled and differs from what was stored. */
  ghost predicate Changes(all: Known, s: Song, fault: Fault) {
    s.id.text != "" && fault != BeforeWrites && !(s.id in all && Unchanged(all[s.id], s))
  }

  /** A changed song goes to row `t`, and `d` are the tables once that row is up to date. */
  ghost predicate Shape(db: Db, all: Known, s: Song, fault: Fault, d: Db, t: TrackId) {
    && SyncSong(db, all, s, fault) == Recorded(d, s, t, fault)
    && t in d.tracks && d.external == db.external && d.aliases == db.aliases
    && (forall u :: u in db.tracks && u != t ==> u in d.tracks && d.tracks[u] == db.tracks[u])
    && (s.id in all ==> t == all[s.id].track && all[s.id].path.Some?)
    && (s.id in all ==> if all[s.id].path.value.Local? then d == db else !d.tracks[t].missing)
    && (s.id !in all ==> d.tracks[t] == Track(Navidrome(s.id), s.meta, false))
    && (s.id !in all && t in db.tracks ==> db.tracks[t].path == Navidrome(s.id))
    && (s.id !in all ==> forall u :: u in db.tracks && db.tracks[u].path == Navidrome(s.id) ==> u == t)
  }

  lemma {:induction false} StepShape(base: Db, all: Known, pairs: Pairs, novel: set<ExternalId>, done: set<ExternalId>,
                                     db: Db, s: Song, fault: Fault) returns (d: Db, t: TrackId)
    requires Base(base, all, pairs, novel) && Progress(base, all, pairs, novel, done, db)
    requires Tells(all, pairs, novel, s) && Changes(all, s, fault)
    ensures Shape(db, all, s, fault, d, t)
  {
    if s.id in all && all[s.id].path.value.Local? {
      d, t := db, all[s.id].track;
    } else {
      var path := Navidrome(s.id);
      UpsertUnique(db, path, s.meta);
      d, t := WithTrack(db, path, s.meta), RowFor(db, path);
      if s.id in all {
        assert HasHome(base.tracks[all[s.id].track].path, all[s.id].path.value, s.id);
        RowForFound(db, path, all[s.id].track);
      }
    }
  }

  /** Every song keeps paths unique. */
  lemma {:induction false} SyncSongUnique(db: Db, all: Known, s: Song, fault: Fault)
    requires UniquePaths(db)
    ensures UniquePaths(SyncSong(db, all, s, fault))
  {
    UpsertUnique(db, Navidrome(s.id), s.meta);
    var up := WithTrack(db, Navidrome(s.id), s.meta);
    if Changes(all, s, fault) && (s.id !in all || all[s.id].path.Some?) {
      var local := s.id in all && all[s.id].path.value.Local?;
      var d, t := if local then db else up, if local then all[s.id].track else RowFor(db, Navidrome(s.id));
      if t in d.tracks && fault != AfterTrack {
        RecordedShape(d, s, t, fault);
      }
    } else if s.id in all {
      RefreshedShape(db, s, all[s.id].track, fault);
    }
  }

  lemma {:induction false} FlagFromShape(base: Db, all: Known, db: Db, s: Song, fault: Fault, d: Db, row: TrackId,
                                         t: TrackId)
    requires Changes(all, s, fault) && Shape(db, all, s, fault, d, row)
    requires t in base.tracks && t in db.tracks && db.tracks[t].path == base.tracks[t].path
    ensures var after := SyncSong(db, all, s, fault);
            t in after.tracks && after.tracks[t].missing == (db.tracks[t].missing && !Touches(base, all, s, fault, t))
  {
    assert Recorded(d, s, row, fault).tracks == d.tracks;
  }

  /** An unchanged or skipped song. */
  lemma {:induction false} FlagUnchanged(base: Db, all: Known, db: Db, s: Song, fault: Fault, t: TrackId)
    requires !Changes(all, s, fault) && t in base.tracks && t in db.tracks
    requires s.id in all ==> all[s.id].path.Some?
    ensures var after := SyncSong(db, all, s, fault);
            t in after.tracks && after.tracks[t].missing == (db.tracks[t].missing && !Touches(base, all, s, fault, t))
  {
    if s.id.text != "" && fault != BeforeWrites {
      RefreshedShape(db, s, all[s.id].track, fault);
    }
  }

  lemma {:induction false} StepFlag(base: Db, all: Known, pairs: Pairs, novel: set<ExternalId>, done: set<ExternalId>,
                                    db: Db, s: Song, fault: Fault, t: TrackId)
    requires Base(base, all, pairs, novel) && Progress(base, all, pairs, novel, done, db)
    requires Tells(all, pairs, novel, s) && t in base.tracks
    ensures var after := SyncSong(db, all, s, fault);
            t in after.tracks && after.tracks[t].missing == (db.tracks[t].missing && !Touches(base, all, s, fault, t))
  {
    hide SyncSong, Touches, Shape, Changes, Tells, Injective, IdsKept, NewIdsAtHome, UniquePaths;
    if Changes(all, s, fault) {
      var d, row := StepShape(base, all, pairs, novel, done, db, s, fault);
      FlagFromShape(base, all, db, s, fault, d, row, t);
    } else {
      FlagUnchanged(base, all, db, s, fault, t);
    }
  }

  /** Some song of the run touches the row. */
  ghost predicate Touched(base: Db, all: Known, songs: seq<Song>, faults: seq<Fault>, t: TrackId)
    requires |faults| == |songs|
  {
    exists i :: 0 <= i < |songs| && Touches(base, all, songs[i], faults[i], t)
  }

  lemma {:induction false} TouchedLast(base: Db, all: Known, songs: seq<Song>, faults: seq<Fault>, t: TrackId)
    requires |faults| == |songs| && songs != []
    ensures var n := |songs| - 1;
            Touched(base, all, songs, faults, t) <==>
            Touched(base, all, songs[..n], faults[..n], t) || Touches(base, all, songs[n], faults[n], t)
  {
    var n := |songs| - 1;
    assert forall i :: 0 <= i < n ==> songs[..n][i] == songs[i] && faults[..n][i] == faults[i];
  }

  /** A row's flag after the loop: cleared exactly when some song touches the row. */
  lemma {:induction false} FlagsAfter(base: Db, all: Known, pairs: Pairs, novel: set<ExternalId>,
                                      songs: seq<Song>, faults: seq<Fault>, t: TrackId)
    requires |faults| == |songs|
    requires Base(base, all, pairs, novel) && Progress(base, all, pairs, novel, {}, base)
    requires Catalogued(songs, all, pairs, novel) && t in base.tracks
    ensures var after := SyncSongs(base, all, songs, faults);
            && t in after.tracks
            && after.tracks[t].missing == (base.tracks[t].missing && !Touched(base, all, songs, faults, t))
  {
    if songs != [] {
      var n := |songs| - 1;
      FlagsAfter(base, all, pairs, novel, songs[..n], faults[..n], t);
      SongsKeep(base, all, pairs, novel, songs[..n], faults[..n]);
      StepFlag(base, all, pairs, novel, AllDone(songs[..n], faults[..n]),
               SyncSongs(base, all, songs[..n], faults[..n]), songs[n], faults[n], t);
      TouchedLast(base, all, songs, faults, t);
    }
  }

  // ----------------------------------------------------------- stored raw JSON

  /** No other live id holds the row a changed song goes to. */
  lemma {:induction false} OthersApart(base: Db, all: Known, pairs: Pairs, novel: set<ExternalId>,
                                       done: set<ExternalId>, db: Db, s: Song, fault: Fault, d: Db, t: TrackId,
                                       e: ExternalId)
    requires Base(base, all, pairs, novel) && Progress(base, all, pairs, novel, done, db)
    requires Tells(all, pairs, novel, s) && Changes(all, s, fault) && Shape(db, all, s, fault, d, t)
    requires e in db.external && e !in pairs && e != s.id
    ensures db.external[e].track != t
  {
    if db.external[e].track == t {
      if s.id in all {
        HolderOf(base, all, pairs, novel, done, db, s.id, e);
      } else if e in all {
        NotHeld(base, all, pairs, novel, done, db, s.id, t, e);
      }
    }
  }

  /** What the external table is after a changed song. */
  lemma {:induction false} ExternalFromShape(db: Db, all: Known, s: Song, fault: Fault, d: Db, t: TrackId)
    requires Changes(all, s, fault) && Shape(db, all, s, fault, d, t)
    ensures var after := SyncSong(db, all, s, fault);
            if fault == AfterTrack then after.external == db.external
            else
              && s.id in after.external && after.external[s.id] == External(t, Some(s.raw))
              && forall e :: e != s.id ==>
                   (e in after.external <==> e in db.external && db.external[e].track != t)
                   && (e in after.external ==> after.external[e] == db.external[e])
  {
    if fault != AfterTrack {
      RecordedShape(d, s, t, fault);
    }
  }

  /** A song leaves the rows of all other live ids alone, and writes only its own. */
  lemma {:induction false} StepKeepsOthers(base: Db, all: Known, pairs: Pairs, novel: set<ExternalId>,
                                           done: set<ExternalId>, db: Db, s: Song, fault: Fault, e: ExternalId)
    requires Base(base, all, pairs, novel) && Progress(base, all, pairs, novel, done, db)
    requires Tells(all, pairs, novel, s) && e !in pairs && e != s.id
    ensures e in SyncSong(db, all, s, fault).external <==> e in db.external
    ensures e in db.external ==> SyncSong(db, all, s, fault).external[e] == db.external[e]
  {
    if Changes(all, s, fault) {
      var d, t := StepShape(base, all, pairs, novel, done, db, s, fault);
      if e in db.external {
        OthersApart(base, all, pairs, novel, done, db, s, fault, d, t, e);
      }
      ExternalFromShape(db, all, s, fault, d, t);
    }
  }

  /** The row of an id before its songs are written: nothing, or what was stored. */
  ghost predicate RawSettled(all: Known, novel: set<ExternalId>, db: Db, e: ExternalId, raw: Raw) {
    e in db.external && e in all && e !in novel ==> db.external[e].raw == all[e].raw || db.external[e].raw == Some(raw)
  }

  /** After the loop an id stores the raw JSON its songs agree on. */
  lemma {:induction false} RawAfter(base: Db, all: Known, pairs: Pairs, novel: set<ExternalId>,
                                    songs: seq<Song>, faults: seq<Fault>, e: ExternalId, raw: Raw)
    requires |faults| == |songs|
    requires Base(base, all, pairs, novel) && Progress(base, all, pairs, novel, {}, base)
    requires Catalogued(songs, all, pairs, novel) && e !in pairs
    requires RawSettled(all, novel, base, e, raw)
    requires forall i :: 0 <= i < |songs| && songs[i].id == e ==> songs[i].raw == raw
    ensures var after := SyncSongs(base, all, songs, faults);
            && RawSettled(all, novel, after, e, raw)
            && (e in AllDone(songs, faults) ==> e in after.external && after.external[e].raw == Some(raw))
  {
    if songs != [] {
      var n := |songs| - 1;
      assert forall i :: 0 <= i < n ==> songs[..n][i] == songs[i];
      RawAfter(base, all, pairs, novel, songs[..n], faults[..n], e, raw);
      SongsKeep(base, all, pairs, novel, songs[..n], faults[..n]);
      var db := SyncSongs(base, all, songs[..n], faults[..n]);
      RawStep(base, all, pairs, novel, AllDone(songs[..n], faults[..n]), db, songs[n], faults[n], e, raw);
    }
  }

  lemma {:induction false} RawStep(base: Db, all: Known, pairs: Pairs, novel: set<ExternalId>, done: set<ExternalId>,
                                   db: Db, s: Song, fault: Fault, e: ExternalId, raw: Raw)
    requires Base(base, all, pairs, novel) && Progress(base, all, pairs, novel, done, db)
    requires Tells(all, pairs, novel, s) && e !in pairs && (s.id == e ==> s.raw == raw)
    requires RawSettled(all, novel, db, e, raw)
    requires e in done ==> e in db.external && db.external[e].raw == Some(raw)
    ensures var after := SyncSong(db, all, s, fault);
            && RawSettled(all, novel, after, e, raw)
            && (e in done + Done(s, fault) ==> e in after.external && after.external[e].raw == Some(raw))
  {
    hide RowFor, WithTrack, WithExternal, Base, Shape, TracksKept, Injective, NewIdsAtHome;
    if s.id != e {
      StepKeepsOthers(base, all, pairs, novel, done, db, s, fault, e);
    } else if Changes(all, s, fault) {
      var d, t := StepShape(base, all, pairs, novel, done, db, s, fault);
      ExternalFromShape(db, all, s, fault, d, t);
    } else if Writes(s, fault) {
      assert e in db.external;
    }
  }
}
