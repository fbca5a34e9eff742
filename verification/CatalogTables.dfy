/**
 The tables a Navidrome catalog sync reads and writes, and what each of its SQL
 statements does to them (app/navidrome_sync.py, schema in app/store/base.py).
 */
module CatalogTables {
  import opened Wrappers

  type TrackId = nat

  /** A Navidrome song id; one with empty text is no id. */
  datatype ExternalId = ExternalId(text: string)

  /** A track path: a file on disk, or the placeholder `navidrome://<id>`. */
  datatype Path = Local(file: string) | Navidrome(id: ExternalId)

  /** The raw JSON of a song; an empty `path` or `albumId` is an absent one. */
  datatype Raw = Raw(id: ExternalId, path: string, albumId: string, rest: map<string, string>)

  /** The columns a scan compares: tags, duration, size and mtime together. */
  datatype Metadata = Metadata(columns: string)

  datatype Song = Song(id: ExternalId, raw: Raw, meta: Metadata)

  datatype Track = Track(path: Path, meta: Metadata, missing: bool)

  /** A row of `external_tracks`; `raw` is `None` when the stored text is no JSON object. */
  datatype External = External(track: TrackId, raw: Option<Raw>)

  /** A row of the snapshot the sync loads first: the external row joined with its track. */
  datatype Mapping = Mapping(track: TrackId, raw: Option<Raw>, path: Option<Path>, meta: Metadata)

  /** `aliases` is the `external_ids` table restricted to tracks; `nextId` is the next free row id. */
  datatype Db = Db(
    tracks: map<TrackId, Track>,
    external: map<ExternalId, External>,
    aliases: map<ExternalId, TrackId>,
    nextId: TrackId)

  /** `tracks.path` is UNIQUE, and row ids are handed out once. */
  ghost predicate UniquePaths(db: Db) {
    && (forall s, t {:trigger db.tracks[s].path, db.tracks[t].path} ::
          s in db.tracks && t in db.tracks && db.tracks[s].path == db.tracks[t].path ==> s == t)
    && (forall t :: t in db.tracks ==> t < db.nextId)
  }

  /** `external_tracks` is UNIQUE on its track and references an existing one. */
  ghost predicate Injective(db: Db) {
    && (forall e :: e in db.external ==> db.external[e].track in db.tracks)
    && (forall d, e {:trigger db.external[d].track, db.external[e].track} ::
          d in db.external && e in db.external && db.external[d].track == db.external[e].track ==> d == e)
  }

  /** A mapped track is a local file or the placeholder of its own id. */
  ghost predicate AtHome(db: Db, e: ExternalId)
    requires e in db.external && db.external[e].track in db.tracks
  {
    var path := db.tracks[db.external[e].track].path;
    path.Local? || path == Navidrome(e)
  }

  ghost predicate WellFormed(db: Db) {
    && UniquePaths(db)
    && Injective(db)
    && forall e :: e in db.external ==> AtHome(db, e)
  }

  /** The stored raw JSON of an id names that id. */
  ghost predicate RawNamesId(db: Db) {
    forall e :: e in db.external && db.external[e].raw.Some? ==> db.external[e].raw.value.id == e
  }

  /** The snapshot a sync works from. */
  ghost function Snapshot(db: Db): map<ExternalId, Mapping> {
    map e | e in db.external ::
      var row := db.external[e];
      if row.track in db.tracks
      then Mapping(row.track, row.raw, Some(db.tracks[row.track].path), db.tracks[row.track].meta)
      else Mapping(row.track, row.raw, None, Metadata(""))
  }

  /** The row at a path, or the row an INSERT at that path creates. */
  ghost function RowFor(db: Db, path: Path): TrackId {
    if exists t :: t in db.tracks && db.tracks[t].path == path
    then var t :| t in db.tracks && db.tracks[t].path == path; t
    else db.nextId
  }

  /** `_upsert_track`: refresh the row at the path, or insert one. */
  ghost function WithTrack(db: Db, path: Path, meta: Metadata): Db {
    var t := RowFor(db, path);
    db.(tracks := db.tracks[t := Track(path, meta, false)],
        nextId := if t == db.nextId then db.nextId + 1 else db.nextId)
  }

  /** `_upsert_external_track`: one id per track, then insert or update the id's row. */
  ghost function WithExternal(db: Db, e: ExternalId, t: TrackId, raw: Raw): Db {
    db.(external := (map d | d in db.external && (d == e || db.external[d].track != t) :: db.external[d])
                    [e := External(t, Some(raw))])
  }

  /** `_mark_track_missing` and `_mark_track_available`: an UPDATE by id. */
  ghost function WithMissing(db: Db, t: TrackId, missing: bool): Db {
    if t in db.tracks then db.(tracks := db.tracks[t := db.tracks[t].(missing := missing)]) else db
  }

  ghost function WithAlias(db: Db, e: ExternalId, t: TrackId): Db {
    db.(aliases := db.aliases[e := t])
  }
}
