/** What a full catalog sync promises (app/navidrome_sync.py:98-222), over every input and every pattern of failures. */
module SyncTheorems {
  import opened Wrappers
  import opened CatalogTables
  import opened CatalogSync

  type Albums = map<string, map<string, string>>

  /** `_inject_album_metadata`: the album's fields are laid over the song's raw JSON. */
  function Inject(s: Song, albums: Albums): Song {
    if s.raw.albumId != "" && s.raw.albumId in albums
    then s.(raw := s.raw.(rest := s.raw.rest + albums[s.raw.albumId]))
    else s
  }

  /** A field of the song's raw JSON is the album's where the song names a listed album that has it, else its own. */
  lemma {:induction false} InjectedFields(s: Song, albums: Albums, field: string)
    ensures var r := Inject(s, albums);
            var own, of := s.raw.rest, if s.raw.albumId in albums then albums[s.raw.albumId] else map[];
            && r.id == s.id && r.meta == s.meta
            && r.raw.id == s.raw.id && r.raw.path == s.raw.path && r.raw.albumId == s.raw.albumId
            && (field in r.raw.rest <==> field in own || (s.raw.albumId != "" && field in of))
            && (field in r.raw.rest ==>
                  r.raw.rest[field] == if s.raw.albumId != "" && field in of then of[field] else own[field])
  {
  }

  function InjectAll(songs: seq<Song>, albums: Albums): (r: seq<Song>)
    ensures |r| == |songs|
  {
    seq(|songs|, i requires 0 <= i < |songs| => Inject(songs[i], albums))
  }

  /** The ids a full run marks stale: known before, not seen, not relinked. */
  ghost function StaleIds(before: Db, songs: seq<Song>, pairs: Pairs): set<ExternalId> {
    before.external.Keys - SeenIds(songs) - pairs.Keys
  }

  ghost function StaleTracks(before: Db, songs: seq<Song>, pairs: Pairs): set<TrackId> {
    set e | e in StaleIds(before, songs, pairs) && e in before.external :: before.external[e].track
  }

  /** The tables a full run (no limit, stale marking on) can end with. */
  ghost predicate FullRun(before: Db, songs: seq<Song>, albums: Albums, faults: seq<Fault>,
                          pairs: Pairs, all: Known, mid: Db, after: Db) {
    && |faults| == |songs|
    && Relinks(before, songs, pairs, all, mid)
    && after == WithAllMissing(SyncSongs(mid, all, InjectAll(songs, albums), faults), StaleTracks(before, songs, pairs))
  }

  /** Raw JSON names the song it belongs to, in the catalog and in the tables. */
  ghost predicate RawsNamed(before: Db, songs: seq<Song>) {
    RawNamesId(before) && forall s :: s in songs ==> s.raw.id == s.id
  }

  /** The ids whose row the run wrote. */
  ghost function Written(songs: seq<Song>, faults: seq<Fault>): set<ExternalId>
    requires |faults| == |songs|
  {
    set i | 0 <= i < |songs| && Writes(songs[i], faults[i]) :: songs[i].id
  }

  /** The id a live id had before the run. */
  ghost function Origin(known: Known, pairs: Pairs, e: ExternalId): ExternalId
    requires e in known || e in pairs.Values
  {
    if e in known then e else (var o :| o in pairs && pairs[o] == e; o)
  }

  ghost predicate Relinks(before: Db, songs: seq<Song>, pairs: Pairs, all: Known, mid: Db) {
    && IsRelinking(Snapshot(before), songs, pairs) && pairs.Keys <= before.external.Keys
    && RelinkEffect(before, Snapshot(before), pairs, mid) && UniquePaths(mid)
    && IsExtension(Snapshot(before), pairs, all)
  }

  lemma {:induction false} OriginKnown(before: Db, songs: seq<Song>, pairs: Pairs, all: Known, mid: Db, e: ExternalId)
    requires Injective(before) && Relinks(before, songs, pairs, all, mid)
    requires e in before.external && e !in pairs
    ensures e in all && all[e] == Snapshot(before)[e] && before.external[e].track in mid.tracks
    ensures mid.tracks[before.external[e].track] == before.tracks[before.external[e].track]
  {
    hide IsRelinking, UniquePaths;
    var known := Snapshot(before);
    forall p {:trigger pairs[p]} | p in pairs ensures known[p].track != known[e].track {
      assert p in before.external && before.external[p].track == known[p].track;
    }
  }

  lemma {:induction false} OriginNew(before: Db, songs: seq<Song>, pairs: Pairs, all: Known, mid: Db, o: ExternalId)
    requires Injective(before) && Relinks(before, songs, pairs, all, mid) && o in pairs
    ensures o in before.external && pairs[o] in all && all[pairs[o]] == Snapshot(before)[o]
    ensures before.external[o].track in mid.tracks
    ensures mid.tracks[before.external[o].track] ==
            Moved(before.tracks[before.external[o].track], Snapshot(before)[o], pairs[o])
  {
    hide IsRelinking, UniquePaths;
    assert Snapshot(before)[o].track == before.external[o].track;
  }

  /** After relinking, a live id's track is the track of its origin, at home under the live id. */
  lemma {:induction false} OriginHome(before: Db, songs: seq<Song>, pairs: Pairs, all: Known, mid: Db, e: ExternalId)
    requires WellFormed(before) && Relinks(before, songs, pairs, all, mid)
    requires e in all && e !in pairs
    ensures Origin(Snapshot(before), pairs, e) in before.external
    ensures all[e] == Snapshot(before)[Origin(Snapshot(before), pairs, e)]
    ensures all[e].track == before.external[Origin(Snapshot(before), pairs, e)].track
    ensures all[e].track in mid.tracks && all[e].path.Some?
    ensures HasHome(mid.tracks[all[e].track].path, all[e].path.value, e)
  {
    hide IsRelinking, UniquePaths, RelinkEffect;
    var o := Origin(Snapshot(before), pairs, e);
    if e in Snapshot(before) {
      OriginKnown(before, songs, pairs, all, mid, e);
    } else {
      OriginNew(before, songs, pairs, all, mid, o);
    }
    assert AtHome(before, o);
    hide Relinks, UniquePaths, Injective, Snapshot;
  }

  lemma {:induction false} PairsRetire(before: Db, songs: seq<Song>, pairs: Pairs, all: Known, mid: Db)
    requires Relinks(before, songs, pairs, all, mid)
    ensures forall o {:trigger pairs[o]} :: o in pairs ==>
              o in all && pairs[o] in all && pairs[o] !in pairs && all[pairs[o]].track == all[o].track
  {
    forall o {:trigger pairs[o]} | o in pairs ensures pairs[o] !in pairs {
      assert pairs[o] !in Snapshot(before);
    }
  }

  lemma {:induction false} LiveIdsApart(before: Db, songs: seq<Song>, pairs: Pairs, all: Known, mid: Db, d: ExternalId,
                                        e: ExternalId)
    requires WellFormed(before) && Relinks(before, songs, pairs, all, mid)
    requires d in all && e in all && d !in pairs && e !in pairs && all[d].track == all[e].track
    ensures d == e
  {
    OriginHome(before, songs, pairs, all, mid, d);
    OriginHome(before, songs, pairs, all, mid, e);
  }

  lemma {:induction false} AllHome(before: Db, songs: seq<Song>, pairs: Pairs, all: Known, mid: Db)
    requires WellFormed(before) && Relinks(before, songs, pairs, all, mid)
    ensures forall e :: e in all ==> all[e].track in mid.tracks && all[e].path.Some?
    ensures forall e :: e in all && e !in pairs ==> HasHome(mid.tracks[all[e].track].path, all[e].path.value, e)
  {
    forall e | e in all
      ensures all[e].track in mid.tracks && all[e].path.Some?
      ensures e !in pairs ==> HasHome(mid.tracks[all[e].track].path, all[e].path.value, e)
    {
      if e in pairs {
        assert e in before.external && all[e] == Snapshot(before)[e];
      } else {
        OriginHome(before, songs, pairs, all, mid, e);
      }
    }
  }

  /** Relinking establishes the loop invariant. */
  lemma {:induction false} RelinkBase(before: Db, songs: seq<Song>, pairs: Pairs, all: Known, mid: Db)
    requires WellFormed(before) && Relinks(before, songs, pairs, all, mid)
    ensures Base(mid, all, pairs, pairs.Values)
  {
    PairsRetire(before, songs, pairs, all, mid);
    AllHome(before, songs, pairs, all, mid);
    forall d, e {:trigger all[d].track, all[e].track} | d in all && e in all && d !in pairs && e !in pairs
        && all[d].track == all[e].track
      ensures d == e
    {
      LiveIdsApart(before, songs, pairs, all, mid, d, e);
    }
  }

  lemma {:induction false} RelinkProgress(before: Db, songs: seq<Song>, pairs: Pairs, all: Known, mid: Db)
    requires WellFormed(before) && Relinks(before, songs, pairs, all, mid)
    ensures Progress(mid, all, pairs, pairs.Values, {}, mid)
  {
    RelinkKeepsIds(before, songs, pairs, all, mid);
  }

  lemma {:induction false} RelinkKeepsIds(before: Db, songs: seq<Song>, pairs: Pairs, all: Known, mid: Db)
    requires Relinks(before, songs, pairs, all, mid)
    ensures IdsKept(all, pairs, pairs.Values, {}, mid) && NewIdsAtHome(all, mid)
  {
    forall e | e in before.external ensures e in all && all[e].track == before.external[e].track {
      assert e in Snapshot(before);
    }
  }

  /** A relinked id has vanished from the catalog. */
  lemma {:induction false} PairsUnseen(known: Known, songs: seq<Song>, pairs: Pairs)
    requires IsRelinking(known, songs, pairs)
    ensures forall o :: o in pairs ==> o !in SeenIds(songs)
  {
    forall o | o in pairs ensures o !in SeenIds(songs) {
      assert Rotated(known, songs, o, pairs[o]);
    }
  }

  lemma {:induction false} RelinkTells(before: Db, songs: seq<Song>, albums: Albums, pairs: Pairs, all: Known)
    requires RawsNamed(before, songs) && IsRelinking(Snapshot(before), songs, pairs)
    requires pairs.Keys <= before.external.Keys && IsExtension(Snapshot(before), pairs, all)
    ensures Catalogued(InjectAll(songs, albums), all, pairs, pairs.Values)
  {
    var known := Snapshot(before);
    PairsUnseen(known, songs, pairs);
    forall i | 0 <= i < |songs| ensures Tells(all, pairs, pairs.Values, InjectAll(songs, albums)[i]) {
      var s := InjectAll(songs, albums)[i];
      assert songs[i] in songs && s.id == songs[i].id && s.raw.id == s.id;
      if s.id.text != "" {
        assert s.id in SeenIds(songs);
        if s.id in pairs.Values && s.id in all {
          var o :| o in pairs && pairs[o] == s.id;
          assert all[s.id] == known[o];
        }
      }
    }
  }

  lemma {:induction false} WrittenIs(songs: seq<Song>, albums: Albums, faults: seq<Fault>)
    requires |faults| == |songs|
    ensures AllDone(InjectAll(songs, albums), faults) == Written(songs, faults)
  {
    var injected := InjectAll(songs, albums);
    forall e ensures e in AllDone(injected, faults) <==> e in Written(songs, faults) {
      AllDoneIs(injected, faults, e);
      if e in AllDone(injected, faults) {
        var i :| 0 <= i < |injected| && injected[i].id == e && Writes(injected[i], faults[i]);
        assert Writes(songs[i], faults[i]) && songs[i].id == e;
      }
      if e in Written(songs, faults) {
        var i :| 0 <= i < |songs| && Writes(songs[i], faults[i]) && songs[i].id == e;
        assert Writes(injected[i], faults[i]) && injected[i].id == e;
      }
    }
  }

  /** The tables just before stale marking meet the loop invariant. */
  lemma {:induction false} RunProgress(before: Db, songs: seq<Song>, albums: Albums, faults: seq<Fault>,
                                       pairs: Pairs, all: Known, mid: Db, after: Db)
    requires FullRun(before, songs, albums, faults, pairs, all, mid, after)
    requires WellFormed(before) && RawsNamed(before, songs)
    ensures Base(mid, all, pairs, pairs.Values) && Progress(mid, all, pairs, pairs.Values, {}, mid)
    ensures Catalogued(InjectAll(songs, albums), all, pairs, pairs.Values)
    ensures Progress(mid, all, pairs, pairs.Values, Written(songs, faults), after)
  {
    RelinkBase(before, songs, pairs, all, mid);
    RelinkProgress(before, songs, pairs, all, mid);
    RelinkTells(before, songs, albums, pairs, all);
    SongsKeep(mid, all, pairs, pairs.Values, InjectAll(songs, albums), faults);
    WrittenIs(songs, albums, faults);
    ProgressFrame(mid, all, pairs, pairs.Values, Written(songs, faults),
                  SyncSongs(mid, all, InjectAll(songs, albums), faults), after);
  }

  // ------------------------------------------------------------- the theorems

  /**
   A relinked track takes over the new id: if the new id's song is written, the id
   maps to the original track and the old id is gone; if it is not, the old id stays.
   */
  lemma {:induction false} RelinkCarriesTrack(before: Db, songs: seq<Song>, albums: Albums, faults: seq<Fault>,
                                              pairs: Pairs, all: Known, mid: Db, after: Db, o: ExternalId)
    requires FullRun(before, songs, albums, faults, pairs, all, mid, after)
    requires WellFormed(before) && RawsNamed(before, songs) && o in pairs
    ensures pairs[o] in Written(songs, faults) ==>
              && o !in after.external
              && pairs[o] in after.external && after.external[pairs[o]].track == before.external[o].track
    ensures pairs[o] !in Written(songs, faults) ==>
              && pairs[o] !in after.external
              && o in after.external && after.external[o].track == before.external[o].track
  {
    RunProgress(before, songs, albums, faults, pairs, all, mid, after);
    assert all[pairs[o]].track == all[o].track == before.external[o].track;
  }

  /**
   Both UNIQUE constraints survive any failures, and every mapped track is a local
   file or the placeholder of its own id, except a relinked placeholder whose song
   could not be written.
   */
  lemma {:induction false} RunKeepsWellFormed(before: Db, songs: seq<Song>, albums: Albums, faults: seq<Fault>,
                                              pairs: Pairs, all: Known, mid: Db, after: Db)
    requires FullRun(before, songs, albums, faults, pairs, all, mid, after)
    requires WellFormed(before) && RawsNamed(before, songs)
    ensures UniquePaths(after) && Injective(after)
    ensures forall e :: e in after.external ==>
              (AtHome(after, e) <==> !(e in pairs && before.tracks[before.external[e].track].path.Navidrome?))
    ensures (forall o {:trigger pairs[o]} :: o in pairs ==> pairs[o] in Written(songs, faults)) ==> WellFormed(after)
  {
    RunProgress(before, songs, albums, faults, pairs, all, mid, after);
    forall e | e in after.external
      ensures AtHome(after, e) <==> !(e in pairs && before.tracks[before.external[e].track].path.Navidrome?)
      ensures e in pairs ==> pairs[e] !in Written(songs, faults)
    {
      HomeAfter(before, songs, albums, faults, pairs, all, mid, after, e);
    }
    hide FullRun, UniquePaths, Injective, AtHome, TracksKept, IdsKept, NewIdsAtHome, Base, Written, RawsNamed;
  }

  lemma {:induction false} HomeAfter(before: Db, songs: seq<Song>, albums: Albums, faults: seq<Fault>,
                                     pairs: Pairs, all: Known, mid: Db, after: Db, e: ExternalId)
    requires FullRun(before, songs, albums, faults, pairs, all, mid, after)
    requires WellFormed(before) && RawsNamed(before, songs)
    requires Progress(mid, all, pairs, pairs.Values, Written(songs, faults), after) && e in after.external
    ensures after.external[e].track in after.tracks
    ensures e in pairs ==>
            e in before.external && before.external[e].track in before.tracks && pairs[e] !in Written(songs, faults)
    ensures AtHome(after, e) <==> !(e in pairs && before.tracks[before.external[e].track].path.Navidrome?)
  {
    if e in pairs {
      RetiredHomeAfter(before, songs, albums, faults, pairs, all, mid, after, e);
    } else {
      hide RawsNamed, Written;
      if e in all {
        OriginHome(before, songs, pairs, all, mid, e);
      }
      hide FullRun, Relinks, UniquePaths, WellFormed;
    }
  }

  lemma {:induction false} RetiredHomeAfter(before: Db, songs: seq<Song>, albums: Albums, faults: seq<Fault>,
                                            pairs: Pairs, all: Known, mid: Db, after: Db, o: ExternalId)
    requires FullRun(before, songs, albums, faults, pairs, all, mid, after)
    requires WellFormed(before) && RawsNamed(before, songs)
    requires Progress(mid, all, pairs, pairs.Values, Written(songs, faults), after) && o in after.external && o in pairs
    ensures o in before.external && before.external[o].track in before.tracks && pairs[o] !in Written(songs, faults)
    ensures after.external[o].track in after.tracks
    ensures AtHome(after, o) <==> before.tracks[before.external[o].track].path.Local?
  {
    hide RawsNamed, Written;
    RelinkCarriesTrack(before, songs, albums, faults, pairs, all, mid, after, o);
    RetiredHome(before, songs, pairs, all, mid, o);
    hide FullRun, IsRelinking, IsExtension, RelinkEffect, UniquePaths, IdsKept, NewIdsAtHome;
  }

  /** A relinked id's track is at home under the new id, so not under the old one. */
  lemma {:induction false} RetiredHome(before: Db, songs: seq<Song>, pairs: Pairs, all: Known, mid: Db, o: ExternalId)
    requires WellFormed(before) && Relinks(before, songs, pairs, all, mid) && o in pairs
    ensures all[o].track == before.external[o].track && all[o].track in mid.tracks
    ensures var was := before.tracks[before.external[o].track].path;
            mid.tracks[all[o].track].path == if was.Local? then was else Navidrome(pairs[o])
    ensures pairs[o] != o
  {
    assert AtHome(before, o);
    assert mid.tracks[Snapshot(before)[o].track] ==
        Moved(before.tracks[Snapshot(before)[o].track], Snapshot(before)[o], pairs[o]);
  }

  /** A track's flag after the run: set when its id is stale, else kept unless a song touched the track. */
  lemma {:induction false} MissingExactly(before: Db, songs: seq<Song>, albums: Albums, faults: seq<Fault>,
                                          pairs: Pairs, all: Known, mid: Db, after: Db, t: TrackId)
    requires FullRun(before, songs, albums, faults, pairs, all, mid, after)
    requires WellFormed(before) && RawsNamed(before, songs) && t in before.tracks
    ensures t in after.tracks
    ensures after.tracks[t].missing ==
            (t in StaleTracks(before, songs, pairs)
             || (before.tracks[t].missing && !Touched(mid, all, InjectAll(songs, albums), faults, t)))
  {
    RunProgress(before, songs, albums, faults, pairs, all, mid, after);
    FlagsAfter(mid, all, pairs, pairs.Values, InjectAll(songs, albums), faults, t);
    SameFlag(before, Snapshot(before), pairs, mid, t);
  }

  /** No song of the catalog has the id. */
  ghost predicate Unlisted(songs: seq<Song>, e: ExternalId) {
    forall i :: 0 <= i < |songs| ==> songs[i].id != e || e.text == ""
  }

  /** A track becomes missing exactly when its id is neither in the catalog nor relinked. */
  lemma {:induction false} MarkedIff(before: Db, songs: seq<Song>, albums: Albums, faults: seq<Fault>, pairs: Pairs,
                                     all: Known, mid: Db, after: Db, t: TrackId)
    requires FullRun(before, songs, albums, faults, pairs, all, mid, after)
    requires WellFormed(before) && RawsNamed(before, songs) && t in before.tracks && !before.tracks[t].missing
    ensures t in after.tracks
    ensures after.tracks[t].missing <==>
            exists e :: e in before.external && before.external[e].track == t && e !in pairs && Unlisted(songs, e)
  {
    MissingExactly(before, songs, albums, faults, pairs, all, mid, after, t);
    hide FullRun, WellFormed, RawsNamed, Touched;
    forall e ensures e in SeenIds(songs) <==> !Unlisted(songs, e) {
      SeenIff(songs, e);
    }
    hide SeenIds, Unlisted;
  }

  lemma {:induction false} SeenIff(songs: seq<Song>, e: ExternalId)
    ensures e in SeenIds(songs) <==> !Unlisted(songs, e)
  {
    if !Unlisted(songs, e) {
      var i :| 0 <= i < |songs| && songs[i].id == e && e.text != "";
      assert songs[i] in songs;
    }
  }

  /** The song with this number is the only one with the path. */
  ghost predicate AloneAt(songs: seq<Song>, i: nat, path: string)
    requires i < |songs|
  {
    && songs[i].id.text != "" && songs[i].raw.path == path
    && forall j :: 0 <= j < |songs| && j != i && songs[j].id.text != "" ==> songs[j].raw.path != path
  }

  /** The id is mapped to a track and has the source path of the other one. */
  ghost predicate SamePath(known: Known, d: ExternalId, o: ExternalId)
    requires d in known && o in known
  {
    && known[d].path.Some? && known[d].raw.Some? && known[o].raw.Some?
    && known[d].raw.value.path == known[o].raw.value.path
  }

  /**
   The old id is mapped to a track, is not in the catalog, and alone among such ids
   has its source path; the new id is unknown, and its song alone has that path.
   */
  ghost predicate Renamed(known: Known, songs: seq<Song>, o: ExternalId, n: ExternalId) {
    && o in known && known[o].path.Some? && known[o].raw.Some? && known[o].raw.value.path != "" && Unlisted(songs, o)
    && (forall d :: d in known && d != o && SamePath(known, d, o) ==> !Unlisted(songs, d))
    && n !in known && exists i :: 0 <= i < |songs| && songs[i].id == n && AloneAt(songs, i, known[o].raw.value.path)
  }

  lemma {:induction false} VanishedIff(known: Known, songs: seq<Song>, e: ExternalId)
    ensures Vanished(known, songs, e) <==>
            && e in known && Unlisted(songs, e) && known[e].path.Some?
            && known[e].raw.Some? && known[e].raw.value.path != ""
  {
    SeenIff(songs, e);
  }

  lemma {:induction false} AloneIff(songs: seq<Song>, path: string, n: ExternalId)
    ensures SoleClaimant(songs, path, n) <==>
            exists i :: 0 <= i < |songs| && songs[i].id == n && AloneAt(songs, i, path)
  {
    if i: nat :| Claims(songs, i, path) && songs[i].id == n && forall j: nat :: Claims(songs, j, path) ==> j == i {
      forall j: nat | j < |songs| && j != i && songs[j].id.text != "" ensures songs[j].raw.path != path {
        assert !Claims(songs, j, path);
      }
      assert AloneAt(songs, i, path);
    }
    if i :| 0 <= i < |songs| && songs[i].id == n && AloneAt(songs, i, path) {
      assert Claims(songs, i, path);
    }
  }

  lemma {:induction false} RotatedIff(known: Known, songs: seq<Song>, o: ExternalId, n: ExternalId)
    ensures Rotated(known, songs, o, n) && n !in known <==> Renamed(known, songs, o, n)
  {
    hide Vanished, SoleClaimant, AloneAt, Unlisted;
    forall d ensures Vanished(known, songs, d) <==>
            && d in known && Unlisted(songs, d) && known[d].path.Some?
            && known[d].raw.Some? && known[d].raw.value.path != "" {
      VanishedIff(known, songs, d);
    }
    if o in known && known[o].raw.Some? {
      AloneIff(songs, known[o].raw.value.path, n);
    }
  }

  /** The pairs are renamed ids; every new id of a renamed one is in a pair, with that one if no song comes twice. */
  lemma {:induction false} RelinkedIff(known: Known, songs: seq<Song>, pairs: Pairs, o: ExternalId, n: ExternalId)
    requires IsRelinking(known, songs, pairs)
    ensures o in pairs && pairs[o] == n ==> Renamed(known, songs, o, n)
    ensures Renamed(known, songs, o, n) ==> n in pairs.Values
    ensures (forall i, j :: 0 <= i < j < |songs| ==> songs[i].id != songs[j].id) ==>
              (Renamed(known, songs, o, n) <==> o in pairs && pairs[o] == n)
  {
    RotatedIff(known, songs, o, n);
    if Renamed(known, songs, o, n) {
      var p :| p in pairs && pairs[p] == n;
      RotatedIff(known, songs, p, n);
      if forall i, j :: 0 <= i < j < |songs| ==> songs[i].id != songs[j].id {
        SamePair(known, songs, o, p, n);
      }
    }
  }

  lemma {:induction false} SamePair(known: Known, songs: seq<Song>, o: ExternalId, p: ExternalId, n: ExternalId)
    requires Renamed(known, songs, o, n) && Renamed(known, songs, p, n)
    requires forall i, j :: 0 <= i < j < |songs| ==> songs[i].id != songs[j].id
    ensures o == p
  {
    var i :| 0 <= i < |songs| && songs[i].id == n && AloneAt(songs, i, known[o].raw.value.path);
    var j :| 0 <= j < |songs| && songs[j].id == n && AloneAt(songs, j, known[p].raw.value.path);
    assert i == j;
  }

  lemma {:induction false} SameFlag(before: Db, known: Known, pairs: Pairs, mid: Db, t: TrackId)
    requires pairs.Keys <= known.Keys && RelinkEffect(before, known, pairs, mid) && t in before.tracks
    ensures t in mid.tracks && mid.tracks[t].missing == before.tracks[t].missing
            && mid.tracks[t].meta == before.tracks[t].meta
  {
    if o :| o in pairs && known[o].track == t {
      assert mid.tracks[t] == Moved(before.tracks[t], known[o], pairs[o]);
    }
  }

  /** Only its own songs touch the track of a live id. */
  lemma {:induction false} TouchedByOwnSongs(mid: Db, all: Known, pairs: Pairs, novel: set<ExternalId>,
                                             e: ExternalId, s: Song, fault: Fault)
    requires Base(mid, all, pairs, novel)
    requires e in all && e !in pairs && Tells(all, pairs, novel, s)
    ensures Touches(mid, all, s, fault, all[e].track) <==>
            s.id == e && e.text != "" && fault != BeforeWrites
                && (all[e].path.value.Navidrome? || all[e].raw == Some(s.raw))
  {
    assert HasHome(mid.tracks[all[e].track].path, all[e].path.value, e);
  }

  /** A song of the id was handled and is one that clears the flag. */
  ghost predicate Clears(m: Mapping, songs: seq<Song>, albums: Albums, faults: seq<Fault>, e: ExternalId, i: nat)
    requires |faults| == |songs| && m.path.Some?
  {
    && i < |songs| && songs[i].id == e && e.text != "" && faults[i] != BeforeWrites
    && (m.path.value.Navidrome? || m.raw == Some(Inject(songs[i], albums).raw))
  }

  lemma {:induction false} TouchedIs(mid: Db, all: Known, pairs: Pairs, novel: set<ExternalId>,
                                     songs: seq<Song>, albums: Albums, faults: seq<Fault>, e: ExternalId)
    requires |faults| == |songs| && Base(mid, all, pairs, novel)
    requires Catalogued(InjectAll(songs, albums), all, pairs, novel) && e in all && e !in pairs
    ensures Touched(mid, all, InjectAll(songs, albums), faults, all[e].track) <==>
            exists i: nat :: Clears(all[e], songs, albums, faults, e, i)
  {
    var injected := InjectAll(songs, albums);
    forall i: nat | i < |songs|
      ensures Touches(mid, all, injected[i], faults[i], all[e].track) <==> Clears(all[e], songs, albums, faults, e, i)
    {
      TouchedByOwnSongs(mid, all, pairs, novel, e, injected[i], faults[i]);
    }
  }

  /**
   A seen or relinked id's track is missing after the run exactly when it was missing
   and no song of the id cleared the flag: a handled song does so unless the track is
   a local file and the song brings new raw JSON.
   */
  lemma {:induction false} SeenAvailability(before: Db, songs: seq<Song>, albums: Albums, faults: seq<Fault>,
                                            pairs: Pairs, all: Known, mid: Db, after: Db, e: ExternalId)
    requires FullRun(before, songs, albums, faults, pairs, all, mid, after)
    requires WellFormed(before) && RawsNamed(before, songs)
    requires e in all && e in SeenIds(songs)
    ensures all[e].path.Some? && all[e].track in before.tracks && all[e].track in after.tracks
    ensures after.tracks[all[e].track].missing <==>
            before.tracks[all[e].track].missing && !exists i: nat :: Clears(all[e], songs, albums, faults, e, i)
  {
    RunProgress(before, songs, albums, faults, pairs, all, mid, after);
    PairsUnseen(Snapshot(before), songs, pairs);
    OriginHome(before, songs, pairs, all, mid, e);
    SeenNotStale(before, songs, pairs, all, mid, e);
    MissingExactly(before, songs, albums, faults, pairs, all, mid, after, all[e].track);
    TouchedIs(mid, all, pairs, pairs.Values, songs, albums, faults, e);
  }

  /** No stale id shares its track with a seen or relinked one. */
  lemma {:induction false} SeenNotStale(before: Db, songs: seq<Song>, pairs: Pairs, all: Known, mid: Db, e: ExternalId)
    requires WellFormed(before) && Relinks(before, songs, pairs, all, mid)
    requires e in all && e !in pairs && e in SeenIds(songs)
    ensures all[e].track !in StaleTracks(before, songs, pairs)
  {
    OriginHome(before, songs, pairs, all, mid, e);
    var o := Origin(Snapshot(before), pairs, e);
    assert o !in StaleIds(before, songs, pairs);
    forall d | d in StaleIds(before, songs, pairs) ensures before.external[d].track != all[e].track {
      assert d != o;
    }
  }

  /** Nothing writes a retired id. */
  lemma {:induction false} WrittenLive(songs: seq<Song>, faults: seq<Fault>, known: Known, pairs: Pairs)
    requires |faults| == |songs| && IsRelinking(known, songs, pairs)
    ensures forall e :: e in Written(songs, faults) ==> e in SeenIds(songs) && e !in pairs
  {
    PairsUnseen(known, songs, pairs);
    forall i | 0 <= i < |songs| && Writes(songs[i], faults[i]) ensures songs[i].id in SeenIds(songs) {
      assert songs[i] in songs;
    }
  }

  /** No row and no unreplaced id is lost, and the rows a run adds belong to ids that are new and not relinked. */
  lemma {:induction false} NothingIsLost(before: Db, songs: seq<Song>, albums: Albums, faults: seq<Fault>,
                                         pairs: Pairs, all: Known, mid: Db, after: Db)
    requires FullRun(before, songs, albums, faults, pairs, all, mid, after)
    requires WellFormed(before) && RawsNamed(before, songs)
    ensures before.tracks.Keys <= after.tracks.Keys
    ensures forall e :: e in before.external && e !in pairs ==>
              e in after.external && after.external[e].track == before.external[e].track
    ensures forall t :: t in after.tracks && t !in before.tracks ==>
              && after.tracks[t].path.Navidrome?
              && after.tracks[t].path.id !in before.external && after.tracks[t].path.id !in pairs.Values
    ensures forall e :: e in Written(songs, faults) ==> e in after.external
  {
    hide RawsNamed, AtHome, HasHome, Catalogued, InjectAll, SyncSongs, Writes, Rotated;
    RunProgress(before, songs, albums, faults, pairs, all, mid, after);
    WrittenLive(songs, faults, Snapshot(before), pairs);
    forall e | e in before.external && e !in pairs
      ensures e in after.external && after.external[e].track == before.external[e].track
    {
      assert e in Snapshot(before) && all[e].track == before.external[e].track;
      assert forall o {:trigger pairs[o]} :: o in pairs ==> pairs[o] != e;
    }
  }

  /** After a run without failures, another run over the same catalog relinks nothing. */
  lemma {:induction false} RerunRelinksNothing(before: Db, songs: seq<Song>, albums: Albums, faults: seq<Fault>,
                                               pairs: Pairs, all: Known, mid: Db, after: Db, again: Pairs)
    requires FullRun(before, songs, albums, faults, pairs, all, mid, after)
    requires WellFormed(before) && RawsNamed(before, songs)
    requires forall i :: 0 <= i < |songs| ==> faults[i] == NoFault
    requires IsRelinking(Snapshot(after), songs, again)
    ensures again == map[]
  {
    NothingIsLost(before, songs, albums, faults, pairs, all, mid, after);
    forall o, n | Rotated(Snapshot(after), songs, o, n) ensures n in Snapshot(after) {
      var path := Snapshot(after)[o].raw.value.path;
      var i: nat :| Claims(songs, i, path) && songs[i].id == n;
      assert Writes(songs[i], faults[i]) && n in Written(songs, faults);
    }
    assert forall o :: o !in again;
  }

  lemma {:induction false} RawAtStart(before: Db, songs: seq<Song>, pairs: Pairs, all: Known, mid: Db, e: ExternalId,
                                      raw: Raw)
    requires Relinks(before, songs, pairs, all, mid)
    ensures RawSettled(all, pairs.Values, mid, e, raw)
  {
    assert e in mid.external ==> e in Snapshot(before) && all[e] == Snapshot(before)[e];
  }

  lemma {:induction false} SongsStoreRaw(mid: Db, all: Known, pairs: Pairs, novel: set<ExternalId>,
                                         songs: seq<Song>, albums: Albums, faults: seq<Fault>, e: ExternalId, raw: Raw)
    requires |faults| == |songs| && e in Written(songs, faults) && e !in pairs
    requires Base(mid, all, pairs, novel) && Progress(mid, all, pairs, novel, {}, mid)
    requires Catalogued(InjectAll(songs, albums), all, pairs, novel) && RawSettled(all, novel, mid, e, raw)
    requires forall i :: 0 <= i < |songs| && songs[i].id == e ==> Inject(songs[i], albums).raw == raw
    ensures var end := SyncSongs(mid, all, InjectAll(songs, albums), faults);
            e in end.external && end.external[e].raw == Some(raw)
  {
    WrittenIs(songs, albums, faults);
    RawAfter(mid, all, pairs, novel, InjectAll(songs, albums), faults, e, raw);
  }

  /** An id whose songs agree stores their raw JSON, album fields included, once one of them is written. */
  lemma {:induction false} StoresSongRaw(before: Db, songs: seq<Song>, albums: Albums, faults: seq<Fault>,
                                         pairs: Pairs, all: Known, mid: Db, after: Db, e: ExternalId, raw: Raw)
    requires FullRun(before, songs, albums, faults, pairs, all, mid, after)
    requires WellFormed(before) && RawsNamed(before, songs)
    requires e in Written(songs, faults)
    requires forall i :: 0 <= i < |songs| && songs[i].id == e ==> Inject(songs[i], albums).raw == raw
    ensures e in after.external && after.external[e].raw == Some(raw)
  {
    RunProgress(before, songs, albums, faults, pairs, all, mid, after);
    WrittenLive(songs, faults, Snapshot(before), pairs);
    RawAtStart(before, songs, pairs, all, mid, e, raw);
    SongsStoreRaw(mid, all, pairs, pairs.Values, songs, albums, faults, e, raw);
  }

  /** A retired id that was an alias of its own track is no alias afterwards. */
  lemma {:induction false} RetiredAliasGone(before: Db, songs: seq<Song>, albums: Albums, faults: seq<Fault>,
                                            pairs: Pairs, all: Known, mid: Db, after: Db, o: ExternalId)
    requires FullRun(before, songs, albums, faults, pairs, all, mid, after)
    requires o in pairs && o in before.external
    requires o in before.aliases ==> before.aliases[o] == before.external[o].track
    ensures o !in after.aliases
  {
    hide SyncSongs, IsExtension, IsRelinking, UniquePaths;
    PairsUnseen(Snapshot(before), songs, pairs);
    forall i | 0 <= i < |songs| ensures songs[i].id.text == "" || songs[i].id != o {
      assert songs[i] in songs;
    }
    AliasesFrom(mid, all, InjectAll(songs, albums), faults, o);
  }

  /** A song adds its own id to the aliases, and nothing else. */
  lemma {:induction false} StepAliases(db: Db, all: Known, s: Song, fault: Fault)
    ensures SyncSong(db, all, s, fault).aliases.Keys == db.aliases.Keys
         || (s.id.text != "" && SyncSong(db, all, s, fault).aliases.Keys == db.aliases.Keys + {s.id})
  {
  }

  lemma {:induction false} AliasesFrom(base: Db, all: Known, songs: seq<Song>, faults: seq<Fault>, a: ExternalId)
    requires |faults| == |songs|
    requires forall i :: 0 <= i < |songs| ==> songs[i].id.text == "" || songs[i].id != a
    ensures a in SyncSongs(base, all, songs, faults).aliases <==> a in base.aliases
  {
    if songs != [] {
      var n := |songs| - 1;
      assert forall i :: 0 <= i < n ==> songs[..n][i] == songs[i];
      AliasesFrom(base, all, songs[..n], faults[..n], a);
      StepAliases(SyncSongs(base, all, songs[..n], faults[..n]), all, songs[n], faults[n]);
    }
  }

  /** Raw JSON keeps naming its id, so the next run starts from the same promise. */
  lemma {:induction false} RawsStayNamed(base: Db, all: Known, songs: seq<Song>, faults: seq<Fault>)
    requires |faults| == |songs| && RawNamesId(base)
    requires forall i :: 0 <= i < |songs| ==> songs[i].raw.id == songs[i].id
    ensures RawNamesId(SyncSongs(base, all, songs, faults))
  {
    if songs != [] {
      var n := |songs| - 1;
      assert forall i :: 0 <= i < n ==> songs[..n][i] == songs[i];
      RawsStayNamed(base, all, songs[..n], faults[..n]);
    }
  }

  // ------------------------------------------------------------ a false promise

  /** When every known id is seen, relinking does nothing. */
  lemma {:induction false} NothingVanished(before: Db, songs: seq<Song>)
    requires UniquePaths(before) && before.external.Keys <= SeenIds(songs)
    ensures Relinks(before, songs, map[], Snapshot(before), before)
  {
    assert forall d :: !Vanished(Snapshot(before), songs, d);
  }

  const SONG := ExternalId("song-1")

  /** One missing local track, mapped to a song whose title was `title`. */
  function Library(title: string): Db {
    Db(map[1 := Track(Local("/music/a.flac"), Metadata(""), true)], map[SONG := External(1, Some(SongRaw(title)))],
        map[], 2)
  }

  function SongRaw(title: string): Raw {
    Raw(SONG, "a.flac", "", map["title" := title])
  }

  function SongTitled(title: string): seq<Song> {
    [Song(SONG, SongRaw(title), Metadata(""))]
  }

  lemma {:induction false} LibraryIs(was: string, now: string)
    ensures WellFormed(Library(was)) && RawsNamed(Library(was), SongTitled(now))
    ensures SeenIds(SongTitled(now)) == {SONG}
  {
    assert SongTitled(now)[0].id in SeenIds(SongTitled(now));
  }

  lemma {:induction false} LibraryRun(was: string, now: string) returns (after: Db)
    ensures FullRun(Library(was), SongTitled(now), map[], [NoFault], map[], Snapshot(Library(was)), Library(was), after)
  {
    LibraryIs(was, now);
    NothingVanished(Library(was), SongTitled(now));
    hide Relinks, RawsNamed, WellFormed, Snapshot, SyncSongs, WithAllMissing, InjectAll, StaleTracks, Library,
        SongTitled;
    after := WithAllMissing(SyncSongs(Library(was), Snapshot(Library(was)), InjectAll(SongTitled(now), map[]),
        [NoFault]),
                            StaleTracks(Library(was), SongTitled(now), map[]));
  }

  /** What the snapshot says of the song, and that a changed title is no reason to clear the flag. */
  lemma {:induction false} NothingClears(was: string, now: string)
    requires was != now
    ensures var known := Snapshot(Library(was));
            && SONG in known && known[SONG].track == 1 && known[SONG].path.Some?
            && !exists i: nat :: Clears(known[SONG], SongTitled(now), map[], [NoFault], SONG, i)
  {
    assert SongRaw(was).rest["title"] != SongRaw(now).rest["title"];
    assert Inject(SongTitled(now)[0], map[]) == SongTitled(now)[0];
  }

  /**
   A seen track stays missing: a local file whose tags changed, to whatever title, is
   recorded but never marked available.
   */
  lemma {:induction false} SeenButStillMissing(was: string, now: string) returns (after: Db)
    requires was != now
    ensures WellFormed(Library(was)) && RawsNamed(Library(was), SongTitled(now)) && SONG in SeenIds(SongTitled(now))
    ensures FullRun(Library(was), SongTitled(now), map[], [NoFault], map[], Snapshot(Library(was)), Library(was), after)
    ensures SONG in Library(was).external
    ensures var t := Library(was).external[SONG].track; t in after.tracks && after.tracks[t].missing
  {
    LibraryIs(was, now);
    after := LibraryRun(was, now);
    NothingClears(was, now);
    hide WellFormed, RawsNamed, FullRun, SeenIds, Snapshot, Clears;
    SeenAvailability(Library(was), SongTitled(now), map[], [NoFault], map[], Snapshot(Library(was)), Library(was),
        after, SONG);
  }
}
