/** The catalog sync itself: the loops of app/navidrome_sync.py over the tables. */
module CatalogRun {
  import opened Wrappers
  import opened CatalogTables
  import opened CatalogSync
  import opened SyncTheorems

  /** The songs that claim a path, in catalog order. */
  ghost function Claimants(songs: seq<Song>, path: string): seq<Song> {
    if songs == [] then []
    else
      var n := |songs| - 1;
      Claimants(songs[..n], path) + if songs[n].id.text != "" && songs[n].raw.path == path then [songs[n]] else []
  }

  lemma {:induction false} ClaimantsCount(songs: seq<Song>, path: string)
    ensures Claimants(songs, path) == [] <==> forall i: nat :: !Claims(songs, i, path)
    ensures |Claimants(songs, path)| == 1 <==> exists n :: SoleClaimant(songs, path, n)
    ensures forall n :: SoleClaimant(songs, path, n) ==>
            |Claimants(songs, path)| == 1 && Claimants(songs, path)[0].id == n
  {
    if songs != [] {
      var n := |songs| - 1;
      var front := songs[..n];
      ClaimantsCount(front, path);
      assert forall i: nat :: i < n ==> (Claims(front, i, path) <==> Claims(songs, i, path));
      if Claims(songs, n, path) {
        if Claimants(front, path) == [] {
          assert SoleClaimant(songs, path, songs[n].id);
        } else {
          var i: nat :| Claims(front, i, path);
          assert Claims(songs, i, path);
          forall m ensures !SoleClaimant(songs, path, m) {
          }
        }
      } else {
        forall m ensures SoleClaimant(songs, path, m) <==> SoleClaimant(front, path, m) {
          ClaimantsFront(songs, path, m);
        }
      }
    }
  }

  lemma {:induction false} ClaimantsFront(songs: seq<Song>, path: string, m: ExternalId)
    requires songs != [] && !Claims(songs, |songs| - 1, path)
    ensures SoleClaimant(songs, path, m) <==> SoleClaimant(songs[..|songs| - 1], path, m)
  {
    var front := songs[..|songs| - 1];
    assert forall i: nat :: Claims(front, i, path) <==> Claims(songs, i, path);
    assert forall i: nat :: Claims(front, i, path) ==> front[i] == songs[i];
  }

  /** Vanished ids listed by source path, once each, for the ids looked at so far. */
  ghost predicate Listed(known: Known, songs: seq<Song>, looked: set<ExternalId>, lists: map<string, seq<ExternalId>>) {
    && (forall p :: p in lists ==> lists[p] != [])
    && (forall p, e :: p in lists && e in lists[p] ==>
          e in looked && Vanished(known, songs, e) && known[e].raw.value.path == p)
    && (forall e :: e in looked && Vanished(known, songs, e) ==>
          known[e].raw.value.path in lists && e in lists[known[e].raw.value.path])
    && (forall p, i, j :: p in lists && 0 <= i < j < |lists[p]| ==> lists[p][i] != lists[p][j])
  }

  lemma {:induction false} ListedMore(known: Known, songs: seq<Song>, looked: set<ExternalId>,
                                      lists: map<string, seq<ExternalId>>, e: ExternalId, path: string)
    requires Listed(known, songs, looked, lists) && e !in looked
    requires Vanished(known, songs, e) && known[e].raw.value.path == path
    ensures Listed(known, songs, looked + {e}, lists[path := (if path in lists then lists[path] else []) + [e]])
  {
  }

  lemma {:induction false} ListedLess(known: Known, songs: seq<Song>, looked: set<ExternalId>,
                                      lists: map<string, seq<ExternalId>>, e: ExternalId)
    requires Listed(known, songs, looked, lists) && !Vanished(known, songs, e)
    ensures Listed(known, songs, looked + {e}, lists)
  {
  }

  /** A list of one is exactly an unambiguous owner. */
  lemma {:induction false} SoleOwner(known: Known, songs: seq<Song>, lists: map<string, seq<ExternalId>>, path: string,
                                     o: ExternalId)
    requires Listed(known, songs, known.Keys, lists) && path in lists && o in lists[path]
    ensures |lists[path]| == 1 <==>
            forall d :: Vanished(known, songs, d) && known[d].raw.value.path == path ==> d == o
  {
    if |lists[path]| == 1 {
      assert lists[path] == [o];
    } else {
      var d := if lists[path][0] == o then lists[path][1] else lists[path][0];
      assert d in lists[path] && d != o && Vanished(known, songs, d);
    }
  }

  /** One more relinked pair, as the loop body writes it. */
  ghost predicate RelinkStep(before: Db, mapping: Mapping, o: ExternalId, n: ExternalId, after: Db) {
    && after.external == before.external && after.nextId == before.nextId
    && after.tracks == (if mapping.track in before.tracks
                        then before.tracks[mapping.track := Moved(before.tracks[mapping.track], mapping, n)]
                            else before.tracks)
    && after.aliases ==
       (if o in before.aliases && before.aliases[o] == mapping.track then before.aliases - {o} else before.aliases)
  }

  lemma {:induction false} RelinkStepTracks(before: Db, known: Known, pairs: Pairs, mid: Db, o: ExternalId,
                                            n: ExternalId, after: Db)
    requires pairs.Keys <= known.Keys && RelinkEffect(before, known, pairs, mid)
    requires o in known && o !in pairs && RelinkStep(mid, known[o], o, n, after)
    requires forall p {:trigger pairs[p]} :: p in pairs ==> known[p].track != known[o].track
    ensures after.tracks.Keys == before.tracks.Keys
    ensures forall u :: u in before.tracks && u != known[o].track ==> after.tracks[u] == mid.tracks[u]
    ensures known[o].track in before.tracks ==>
              after.tracks[known[o].track] == Moved(before.tracks[known[o].track], known[o], n)
  {
  }

  lemma {:induction false} RelinkStepExtends(before: Db, known: Known, pairs: Pairs, mid: Db, o: ExternalId,
                                             n: ExternalId, after: Db)
    requires pairs.Keys <= known.Keys && RelinkEffect(before, known, pairs, mid)
    requires o in known && o !in pairs && RelinkStep(mid, known[o], o, n, after)
    requires forall p {:trigger pairs[p]} :: p in pairs ==> known[p].track != known[o].track
    ensures RelinkEffect(before, known, pairs[o := n], after)
  {
    var more := pairs[o := n];
    RelinkStepTracks(before, known, pairs, mid, o, n, after);
    MorePairs(pairs, o, n);
    forall p {:trigger more[p]} | p in more && known[p].track in before.tracks
      ensures after.tracks[known[p].track] == Moved(before.tracks[known[p].track], known[p], more[p])
    {
      if p != o {
        assert more[p] == pairs[p];
      }
    }
    forall u | u in before.tracks && (forall p {:trigger more[p]} :: p in more ==> known[p].track != u)
      ensures after.tracks[u] == before.tracks[u]
    {
      assert more[o] == n;
      assert forall p {:trigger pairs[p]} :: p in pairs ==> more[p] == pairs[p] && known[p].track != u;
    }
    hide Moved;
  }

  lemma {:induction false} MorePairs(pairs: Pairs, o: ExternalId, n: ExternalId)
    requires o !in pairs
    ensures forall p {:trigger pairs[p]} {:trigger pairs[o := n][p]} :: p in pairs ==>
              p in pairs[o := n] && pairs[o := n][p] == pairs[p]
  {
  }

  /** The pairs found once every path outside `todo` has been decided. */
  ghost predicate RelinkingSoFar(known: Known, songs: seq<Song>, todo: set<string>, pairs: Pairs) {
    && (forall o {:trigger pairs[o]} :: o in pairs ==>
          Rotated(known, songs, o, pairs[o]) && pairs[o] !in known && known[o].raw.value.path !in todo)
    && (forall o, p {:trigger pairs[o], pairs[p]} :: o in pairs && p in pairs && pairs[o] == pairs[p] ==> o == p)
    && (forall o, n :: Rotated(known, songs, o, n) && n !in known && known[o].raw.value.path !in todo ==>
          n in pairs.Values)
  }

  lemma {:induction false} PairedElsewhere(known: Known, songs: seq<Song>, todo: set<string>, pairs: Pairs)
    requires RelinkingSoFar(known, songs, todo, pairs)
    ensures forall p :: p in pairs ==> Vanished(known, songs, p) && known[p].raw.value.path !in todo
  {
    forall p | p in pairs ensures Vanished(known, songs, p) && known[p].raw.value.path !in todo {
      assert Rotated(known, songs, p, pairs[p]);
    }
  }

  /** A path with no unambiguous pair, or whose new id is already taken, adds nothing. */
  lemma {:induction false} TurnSkips(known: Known, songs: seq<Song>, todo: set<string>, path: string, pairs: Pairs)
    requires RelinkingSoFar(known, songs, todo, pairs) && path in todo
    requires forall o, n :: Rotated(known, songs, o, n) && known[o].raw.value.path == path ==>
             n in known || n in pairs.Values
    ensures RelinkingSoFar(known, songs, todo - {path}, pairs)
  {
  }

  /** A path with one vanished owner and one unknown claimant adds that pair. */
  lemma {:induction false} TurnAdds(known: Known, songs: seq<Song>, todo: set<string>, path: string, pairs: Pairs,
                                    o: ExternalId, n: ExternalId)
    requires RelinkingSoFar(known, songs, todo, pairs) && path in todo
    requires Rotated(known, songs, o, n) && known[o].raw.value.path == path && n !in known && n !in pairs.Values
    requires forall p, m :: Rotated(known, songs, p, m) && known[p].raw.value.path == path ==> p == o && m == n
    ensures o !in pairs && RelinkingSoFar(known, songs, todo - {path}, pairs[o := n])
  {
    var more := pairs[o := n];
    PairedElsewhere(known, songs, todo, pairs);
    forall p, m | Rotated(known, songs, p, m) && m !in known && known[p].raw.value.path !in todo - {path}
      ensures m in more.Values
    {
      if known[p].raw.value.path == path {
        assert more[o] == m;
      } else {
        var q :| q in pairs && pairs[q] == m;
        assert q in more && more[q] == m;
      }
    }
  }

  /** What a path's lists of owners and claimants say about the pairs at that path. */
  lemma {:induction false} RotatedAt(known: Known, songs: seq<Song>, lists: map<string, seq<ExternalId>>, path: string)
    requires Listed(known, songs, known.Keys, lists) && path in lists
    ensures forall o, n :: Rotated(known, songs, o, n) && known[o].raw.value.path == path ==>
              && |lists[path]| == 1 && |Claimants(songs, path)| == 1
              && o == lists[path][0] && n == Claimants(songs, path)[0].id
    ensures |lists[path]| == 1 && |Claimants(songs, path)| == 1 ==>
              Rotated(known, songs, lists[path][0], Claimants(songs, path)[0].id)
  {
    ClaimantsCount(songs, path);
    forall o, n | Rotated(known, songs, o, n) && known[o].raw.value.path == path
      ensures |lists[path]| == 1 && o == lists[path][0]
    {
      assert o in lists[path];
      SoleOwner(known, songs, lists, path, o);
    }
    if |lists[path]| == 1 && |Claimants(songs, path)| == 1 {
      var o := lists[path][0];
      assert o in lists[path];
      SoleOwner(known, songs, lists, path, o);
    }
  }

  /** The groups of the songs so far. */
  ghost predicate Grouped(songs: seq<Song>, groups: map<string, seq<Song>>) {
    && (forall p :: p in groups <==> p != "" && Claimants(songs, p) != [])
    && (forall p :: p in groups ==> groups[p] == Claimants(songs, p))
  }

  function Joined(groups: map<string, seq<Song>>, s: Song): map<string, seq<Song>> {
    if s.raw.path != "" && s.id.text != ""
    then groups[s.raw.path := (if s.raw.path in groups then groups[s.raw.path] else []) + [s]]
    else groups
  }

  lemma {:induction false} GroupStep(songs: seq<Song>, s: Song, groups: map<string, seq<Song>>)
    requires Grouped(songs, groups)
    ensures Grouped(songs + [s], Joined(groups, s))
  {
    var after := Joined(groups, s);
    assert (songs + [s])[..|songs|] == songs;
    forall p
      ensures p in after <==> p != "" && Claimants(songs + [s], p) != []
      ensures p in after ==> after[p] == Claimants(songs + [s], p)
    {
      assert p in groups <==> p != "" && Claimants(songs, p) != [];
    }
  }

  /** `_relink_rotated_song_ids`, first loop: the songs of each source path. */
  method GroupByPath(songs: seq<Song>) returns (groups: map<string, seq<Song>>)
    ensures forall p :: p in groups <==> p != "" && Claimants(songs, p) != []
    ensures forall p :: p in groups ==> groups[p] == Claimants(songs, p)
  {
    groups := map[];
    for i := 0 to |songs|
      invariant Grouped(songs[..i], groups)
    {
      GroupStep(songs[..i], songs[i], groups);
      assert songs[..i + 1] == songs[..i] + [songs[i]];
      var path := songs[i].raw.path;
      if path != "" && songs[i].id.text != "" {
        groups := groups[path := (if path in groups then groups[path] else []) + [songs[i]]];
      }
    }
    assert songs[..|songs|] == songs;
  }

  /** `_relink_rotated_song_ids`, second loop: the vanished ids of each source path. */
  method ListVanished(known: Known, songs: seq<Song>) returns (lists: map<string, seq<ExternalId>>)
    ensures Listed(known, songs, known.Keys, lists)
  {
    var seen := set s | s in songs && s.id.text != "" :: s.id;
    lists := map[];
    var rest := known.Keys;
    while rest != {}
      invariant rest <= known.Keys && Listed(known, songs, known.Keys - rest, lists)
    {
      var e :| e in rest;
      ghost var looked := known.Keys - rest;
      rest := rest - {e};
      assert known.Keys - rest == looked + {e};
      if e in seen || known[e].path.None? || known[e].raw.None? || known[e].raw.value.path == "" {
        ListedLess(known, songs, looked, lists, e);
      } else {
        var path := known[e].raw.value.path;
        ListedMore(known, songs, looked, lists, e, path);
        lists := lists[path := (if path in lists then lists[path] else []) + [e]];
      }
    }
    assert known.Keys - rest == known.Keys;
  }

  lemma {:induction false} ExtensionMore(known: Known, pairs: Pairs, all: Known, o: ExternalId, n: ExternalId)
    requires pairs.Keys <= known.Keys && IsExtension(known, pairs, all)
    requires o in known && o !in pairs && n !in all
    ensures pairs[o := n].Keys <= known.Keys && IsExtension(known, pairs[o := n], all[n := known[o]])
  {
    var more := pairs[o := n];
    assert more.Values == pairs.Values + {n} by {
      assert more[o] == n;
      assert forall p {:trigger pairs[p]} :: p in pairs ==> p in more && more[p] == pairs[p];
    }
  }

  /** A relinked placeholder would collide with a row already at the new id's placeholder. */
  ghost predicate Blocked(before: Db, songs: seq<Song>, o: ExternalId, n: ExternalId) {
    && Rotated(Snapshot(before), songs, o, n) && n !in Snapshot(before)
    && Snapshot(before)[o].path.value.Navidrome?
    && exists t :: t in before.tracks && t != before.external[o].track && before.tracks[t].path == Navidrome(n)
  }

  /** A collision in the middle of the loop was there before it. */
  lemma {:induction false} CollisionIsOld(before: Db, known: Known, pairs: Pairs, mid: Db, n: ExternalId, t: TrackId)
    requires pairs.Keys <= known.Keys && RelinkEffect(before, known, pairs, mid)
    requires n !in pairs.Values && t in mid.tracks && mid.tracks[t].path == Navidrome(n)
    ensures t in before.tracks && before.tracks[t].path == Navidrome(n)
  {
    if o :| o in pairs && known[o].track == t {
      assert mid.tracks[t] == Moved(before.tracks[t], known[o], pairs[o]) && pairs[o] != n;
    }
  }

  lemma {:induction false} NothingSeen()
    ensures SeenIds([]) == {}
  {
  }

  lemma {:induction false} InjectedAt(songs: seq<Song>, albums: Albums, i: nat)
    requires i < |songs|
    ensures InjectAll(songs, albums)[i] == Inject(songs[i], albums)
  {
  }

  lemma {:induction false} SeenMore(songs: seq<Song>)
    requires songs != []
    ensures var n := |songs| - 1;
            SeenIds(songs) == SeenIds(songs[..n]) + if songs[n].id.text != "" then {songs[n].id} else {}
  {
    var n := |songs| - 1;
    assert songs == songs[..n] + [songs[n]];
  }

  lemma {:induction false} PathNamed(known: Known, songs: seq<Song>, lists: map<string, seq<ExternalId>>, path: string)
    requires Listed(known, songs, known.Keys, lists) && path in lists
    ensures path != "" && forall e :: e in lists[path] ==> e in known && known[e].path.Some?
  {
    var e := lists[path][0];
    assert e in lists[path] && Vanished(known, songs, e) && known[e].raw.value.path == path;
  }

  ghost function TracksOf(all: Known, ids: set<ExternalId>): set<TrackId> {
    set e | e in ids && e in all :: all[e].track
  }

  lemma {:induction false} MarkedMore(before: Db, all: Known, ids: set<ExternalId>, e: ExternalId)
    requires e in all
    ensures WithMissing(WithAllMissing(before, TracksOf(all, ids)), all[e].track, true) ==
            WithAllMissing(before, TracksOf(all, ids + {e}))
  {
    assert TracksOf(all, ids + {e}) == TracksOf(all, ids) + {all[e].track};
  }

  /** Marking the tracks of the stale ids, read from the extended snapshot, completes a full run. */
  lemma {:induction false} RunComplete(before: Db, songs: seq<Song>, albums: Albums, faults: seq<Fault>,
                                       pairs: Pairs, all: Known, mid: Db, end: Db, after: Db)
    requires Relinks(before, songs, pairs, all, mid) && |faults| == |songs|
    requires end == SyncSongs(mid, all, InjectAll(songs, albums), faults)
    requires after == WithAllMissing(end, TracksOf(all, StaleIds(before, songs, pairs)))
    ensures FullRun(before, songs, albums, faults, pairs, all, mid, after)
  {
    StaleFrom(before, pairs, all, StaleIds(before, songs, pairs));
  }

  lemma {:induction false} StaleFrom(before: Db, pairs: Pairs, all: Known, ids: set<ExternalId>)
    requires pairs.Keys <= before.external.Keys && IsExtension(Snapshot(before), pairs, all)
             && ids <= before.external.Keys
    ensures ids <= all.Keys
    ensures TracksOf(all, ids) == set e | e in ids && e in before.external :: before.external[e].track
  {
    forall e | e in before.external ensures e in all && all[e].track == before.external[e].track {
      assert all[e] == Snapshot(before)[e];
    }
  }

  /** Holds before every turn of the relink loop. */
  ghost predicate RelinkLoop(before: Db, known: Known, songs: seq<Song>, todo: set<string>, pairs: Pairs, all: Known,
                             now: Db) {
    && pairs.Keys <= known.Keys && IsExtension(known, pairs, all)
    && RelinkEffect(before, known, pairs, now)
    && RelinkingSoFar(known, songs, todo, pairs)
  }

  lemma {:induction false} LoopStarts(before: Db, songs: seq<Song>, lists: map<string, seq<ExternalId>>)
    requires Listed(Snapshot(before), songs, Snapshot(before).Keys, lists)
    ensures RelinkLoop(before, Snapshot(before), songs, lists.Keys, map[], Snapshot(before), before)
  {
    forall o, n | Rotated(Snapshot(before), songs, o, n) ensures Snapshot(before)[o].raw.value.path in lists {
      assert Vanished(Snapshot(before), songs, o);
    }
  }

  lemma {:induction false} LoopEnds(before: Db, songs: seq<Song>, pairs: Pairs, all: Known, now: Db)
    requires RelinkLoop(before, Snapshot(before), songs, {}, pairs, all, now) && UniquePaths(now)
    ensures Relinks(before, songs, pairs, all, now)
  {
  }

  lemma {:induction false} LoopSkips(before: Db, known: Known, songs: seq<Song>, todo: set<string>, pairs: Pairs,
                                     all: Known, now: Db, path: string)
    requires RelinkLoop(before, known, songs, todo, pairs, all, now) && path in todo
    requires forall o, n :: Rotated(known, songs, o, n) && known[o].raw.value.path == path ==> n in all
    ensures RelinkLoop(before, known, songs, todo - {path}, pairs, all, now)
  {
    TurnSkips(known, songs, todo, path, pairs);
  }

  lemma {:induction false} LoopBlocked(before: Db, songs: seq<Song>, todo: set<string>, pairs: Pairs, all: Known,
                                       mid: Db, o: ExternalId, n: ExternalId, t: TrackId)
    requires RelinkLoop(before, Snapshot(before), songs, todo, pairs, all, mid)
    requires Rotated(Snapshot(before), songs, o, n) && n !in all && Snapshot(before)[o].path.value.Navidrome?
    requires t in mid.tracks && t != Snapshot(before)[o].track && mid.tracks[t].path == Navidrome(n)
    ensures Blocked(before, songs, o, n)
  {
    CollisionIsOld(before, Snapshot(before), pairs, mid, n, t);
  }

  lemma {:induction false} LoopKnows(before: Db, known: Known, songs: seq<Song>, todo: set<string>, pairs: Pairs,
                                     all: Known, now: Db, o: ExternalId)
    requires RelinkLoop(before, known, songs, todo, pairs, all, now) && o in known
    ensures o in all && all[o] == known[o]
  {
  }

  lemma {:induction false} LoopAdds(before: Db, known: Known, songs: seq<Song>, todo: set<string>, pairs: Pairs,
                                    all: Known, mid: Db, now: Db, o: ExternalId, n: ExternalId, path: string)
    requires Injective(before) && known == Snapshot(before)
    requires RelinkLoop(before, known, songs, todo, pairs, all, mid) && path in todo
    requires Rotated(known, songs, o, n) && known[o].raw.value.path == path && n !in all
    requires forall p, m :: Rotated(known, songs, p, m) && known[p].raw.value.path == path ==> p == o && m == n
    requires RelinkStep(mid, known[o], o, n, now)
    ensures RelinkLoop(before, known, songs, todo - {path}, pairs[o := n], all[n := known[o]], now)
  {
    TurnAdds(known, songs, todo, path, pairs, o, n);
    ExtensionMore(known, pairs, all, o, n);
    forall p {:trigger pairs[p]} | p in pairs ensures known[p].track != known[o].track {
      assert before.external[p].track == known[p].track && before.external[o].track == known[o].track;
    }
    RelinkStepExtends(before, known, pairs, mid, o, n, now);
  }

  /** The tables, and the statements of app/navidrome_sync.py on them. */
  class Catalog {
    var tracks: map<TrackId, Track>
    var external: map<ExternalId, External>
    var aliases: map<ExternalId, TrackId>
    var nextId: TrackId

    constructor (db: Db)
      ensures Tables() == db
    {
      tracks, external, aliases, nextId := db.tracks, db.external, db.aliases, db.nextId;
    }

    ghost function Tables(): Db
      reads this
    {
      Db(tracks, external, aliases, nextId)
    }

    /** `_upsert_track`. */
    method UpsertTrack(path: Path, meta: Metadata) returns (t: TrackId)
      requires UniquePaths(Tables())
      modifies this
      ensures Tables() == WithTrack(old(Tables()), path, meta) && t == RowFor(old(Tables()), path)
    {
      if exists u :: u in tracks && tracks[u].path == path {
        t :| t in tracks && tracks[t].path == path;
        RowForFound(Tables(), path, t);
        tracks := tracks[t := tracks[t].(meta := meta, missing := false)];
      } else {
        t := nextId;
        tracks := tracks[t := Track(path, meta, false)];
        nextId := nextId + 1;
      }
    }

    /** `_upsert_external_track`; false when it raises because the track is gone. */
    method UpsertExternalTrack(e: ExternalId, t: TrackId, raw: Raw) returns (ok: bool)
      modifies this
      ensures ok == (t in old(tracks))
      ensures Tables() == if ok then WithExternal(old(Tables()), e, t, raw) else old(Tables())
    {
      ok := t in tracks;
      if ok {
        external := map d | d in external && (external[d].track != t || d == e) :: external[d];
        external := external[e := External(t, Some(raw))];
      }
    }

    /** `_mark_track_missing` and `_mark_track_available`. */
    method MarkTrack(t: TrackId, missing: bool)
      modifies this
      ensures Tables() == WithMissing(old(Tables()), t, missing)
    {
      if t in tracks {
        tracks := tracks[t := tracks[t].(missing := missing)];
      }
    }

    /** `_load_existing_navidrome_mappings`. */
    method LoadMappings() returns (known: Known)
      ensures known == Snapshot(Tables())
    {
      known := map e | e in external :: (
        var row := external[e];
        if row.track in tracks
        then Mapping(row.track, row.raw, Some(tracks[row.track].path), tracks[row.track].meta)
        else Mapping(row.track, row.raw, None, Metadata("")));
    }

    /** `_relink_rotated_song_ids`; false when an UPDATE hits the UNIQUE constraint on paths. */
    method RelinkRotatedSongIds(songs: seq<Song>, known: Known) returns (ok: bool, pairs: Pairs, all: Known)
      requires UniquePaths(Tables()) && Injective(Tables()) && known == Snapshot(Tables())
      modifies this
      ensures ok ==> Relinks(old(Tables()), songs, pairs, all, Tables())
      ensures !ok ==> exists o, n :: Blocked(old(Tables()), songs, o, n)
    {
      var groups := GroupByPath(songs);
      var lists := ListVanished(known, songs);
      ghost var before := Tables();
      LoopStarts(before, songs, lists);
      pairs, all, ok := map[], known, true;
      var todo := lists.Keys;
      while todo != {}
        invariant todo <= lists.Keys && UniquePaths(Tables())
        invariant RelinkLoop(before, known, songs, todo, pairs, all, Tables())
      {
        var path :| path in todo;
        var owners := lists[path];
        var candidates := if path in groups then groups[path] else [];
        RotatedAt(known, songs, lists, path);
        PathNamed(known, songs, lists, path);
        if |owners| != 1 || |candidates| != 1 || candidates[0].id in all {
          LoopSkips(before, known, songs, todo, pairs, all, Tables(), path);
        } else {
          var o, n := owners[0], candidates[0].id;
          LoopKnows(before, known, songs, todo, pairs, all, Tables(), o);
          var mapping := all[o];
          ghost var mid := Tables();
          ok := RelinkOne(mapping, o, n);
          if !ok {
            ghost var t :| t in mid.tracks && t != mapping.track && mid.tracks[t].path == Navidrome(n);
            LoopBlocked(before, songs, todo, pairs, all, mid, o, n, t);
            return;
          }
          LoopAdds(before, known, songs, todo, pairs, all, mid, Tables(), o, n, path);
          all := all[n := mapping];
          pairs := pairs[o := n];
        }
        todo := todo - {path};
      }
      LoopEnds(before, songs, pairs, all, Tables());
    }

    /** The statements of the relink loop for one pair; false when the UPDATE hits the UNIQUE constraint. */
    method RelinkOne(mapping: Mapping, o: ExternalId, n: ExternalId) returns (ok: bool)
      requires UniquePaths(Tables()) && mapping.path.Some?
      modifies this
      ensures ok == !(mapping.path.value.Navidrome? && exists t ::
              t in old(tracks) && t != mapping.track && old(tracks)[t].path == Navidrome(n))
      ensures if ok then RelinkStep(old(Tables()), mapping, o, n, Tables()) else Tables() == old(Tables())
      ensures UniquePaths(Tables())
    {
      ok := true;
      if mapping.path.value.Navidrome? {
        if exists t :: t in tracks && t != mapping.track && tracks[t].path == Navidrome(n) {
          return false;
        }
        if mapping.track in tracks {
          tracks := tracks[mapping.track := tracks[mapping.track].(path := Navidrome(n))];
        }
      }
      if o in aliases && aliases[o] == mapping.track {
        aliases := aliases - {o};
      }
    }

    /** `_upsert_normalized_track_sidecars`, as far as it concerns the track's alias. */
    method UpsertSidecars(s: Song, t: TrackId)
      modifies this
      ensures Tables() == if t in old(tracks) then WithAlias(old(Tables()), s.id, t) else old(Tables())
    {
      if t in tracks {
        aliases := aliases[s.id := t];
      }
    }

    /** The body of the catalog loop for one song; `fault` says where it raises, if it does. */
    method SyncSong(s: Song, all: Known, fault: Fault)
      requires UniquePaths(Tables())
      modifies this
      ensures Tables() == CatalogSync.SyncSong(old(Tables()), all, s, fault)
    {
      if s.id.text == "" || fault == BeforeWrites {
        return;
      }
      var t;
      if s.id in all {
        var mapping := all[s.id];
        t := mapping.track;
        if mapping.path.None? {
          return;
        }
        if mapping.path.value.Navidrome? {
          if mapping.raw == Some(s.raw) && mapping.path.value == Navidrome(s.id) && mapping.meta == s.meta {
            MarkTrack(t, false);
            if fault == NoFault {
              UpsertSidecars(s, t);
            }
            return;
          }
          t := UpsertTrack(Navidrome(s.id), s.meta);
        } else if mapping.raw == Some(s.raw) {
          MarkTrack(t, false);
          if fault == NoFault {
            UpsertSidecars(s, t);
          }
          return;
        }
      } else {
        t := UpsertTrack(Navidrome(s.id), s.meta);
      }
      if fault == AfterTrack {
        return;
      }
      var recorded := UpsertExternalTrack(s.id, t, s.raw);
      if recorded && fault == NoFault {
        UpsertSidecars(s, t);
      }
    }

    /** The catalog loop; returns the ids seen. */
    method SyncAll(songs: seq<Song>, albums: Albums, all: Known, faults: seq<Fault>) returns (seen: set<ExternalId>)
      requires UniquePaths(Tables()) && |faults| == |songs|
      modifies this
      ensures Tables() == SyncSongs(old(Tables()), all, InjectAll(songs, albums), faults)
      ensures seen == SeenIds(songs)
    {
      hide UniquePaths, Inject, InjectAll, SeenIds, CatalogSync.SyncSong;
      seen := {};
      NothingSeen();
      ghost var before := Tables();
      ghost var injected := InjectAll(songs, albums);
      for i := 0 to |songs|
        invariant seen == SeenIds(songs[..i])
        invariant UniquePaths(Tables())
        invariant Tables() == SyncSongs(before, all, injected[..i], faults[..i])
      {
        assert songs[..i + 1][..i] == songs[..i] && injected[..i + 1][..i] == injected[..i];
        assert faults[..i + 1][..i] == faults[..i];
        SeenMore(songs[..i + 1]);
        if songs[i].id.text != "" {
          seen := seen + {songs[i].id};
        }
        var s := Inject(songs[i], albums);
        InjectedAt(songs, albums, i);
        SyncSongUnique(Tables(), all, s, faults[i]);
        SyncSong(s, all, faults[i]);
      }
      assert songs[..|songs|] == songs && injected[..|songs|] == injected && faults[..|songs|] == faults;
    }

    /** `sync_navidrome_catalog`; false when relinking raises, and then the transaction is rolled back. */
    method SyncCatalog(songs: seq<Song>, albums: Albums, faults: seq<Fault>, limited: bool, markStale: bool)
      returns (ok: bool, seen: set<ExternalId>, pairs: Pairs, staleCount: nat, ghost all: Known, ghost mid: Db)
      requires UniquePaths(Tables()) && Injective(Tables()) && |faults| == |songs|
      modifies this
      ensures !ok ==> Tables() == old(Tables()) && exists o, n :: Blocked(old(Tables()), songs, o, n)
      ensures ok ==> seen == SeenIds(songs)
      ensures ok && limited ==>
        (pairs == map[] && staleCount == 0
         && Tables() == SyncSongs(old(Tables()), Snapshot(old(Tables())), InjectAll(songs, albums), faults))
      ensures ok && !limited && !markStale ==>
        (staleCount == 0 && Relinks(old(Tables()), songs, pairs, all, mid)
         && Tables() == SyncSongs(mid, all, InjectAll(songs, albums), faults))
      ensures ok && !limited && markStale ==>
        (FullRun(old(Tables()), songs, albums, faults, pairs, all, mid, Tables())
         && staleCount == |StaleIds(old(Tables()), songs, pairs)|)
    {
      ghost var before := Tables();
      var known := LoadMappings();
      var extended := known;
      ok, pairs, staleCount := true, map[], 0;
      if !limited {
        ok, pairs, extended := RelinkOrRollBack(songs, known);
      }
      all, mid, seen := extended, Tables(), {};
      if !ok {
        return;
      }
      seen := SyncAll(songs, albums, extended, faults);
      if markStale && !limited {
        staleCount := MarkVanished(songs, albums, faults, known, seen, pairs, extended, before, mid);
      }
    }

    /** Relinking inside the sync's transaction. */
    method RelinkOrRollBack(songs: seq<Song>, known: Known) returns (ok: bool, pairs: Pairs, all: Known)
      requires UniquePaths(Tables()) && Injective(Tables()) && known == Snapshot(Tables())
      modifies this
      ensures UniquePaths(Tables())
      ensures ok ==> Relinks(old(Tables()), songs, pairs, all, Tables())
      ensures !ok ==> Tables() == old(Tables()) && exists o, n :: Blocked(old(Tables()), songs, o, n)
    {
      var saved := (tracks, external, aliases, nextId);
      ok, pairs, all := RelinkRotatedSongIds(songs, known);
      if !ok {
        tracks, external, aliases, nextId := saved.0, saved.1, saved.2, saved.3;
      }
    }

    /** The stale pass that ends a full run. */
    method MarkVanished(songs: seq<Song>, albums: Albums, faults: seq<Fault>, known: Known, seen: set<ExternalId>,
                        pairs: Pairs, all: Known, ghost before: Db, ghost mid: Db) returns (count: nat)
      requires |faults| == |songs| && known == Snapshot(before) && seen == SeenIds(songs)
      requires Relinks(before, songs, pairs, all, mid)
      requires Tables() == SyncSongs(mid, all, InjectAll(songs, albums), faults)
      modifies this
      ensures FullRun(before, songs, albums, faults, pairs, all, mid, Tables())
      ensures count == |StaleIds(before, songs, pairs)|
    {
      ghost var end := Tables();
      StaleFrom(before, pairs, all, StaleIds(before, songs, pairs));
      var stale := known.Keys - seen - pairs.Keys;
      assert stale == StaleIds(before, songs, pairs);
      count := MarkStale(all, stale);
      RunComplete(before, songs, albums, faults, pairs, all, mid, end, Tables());
    }

    /** The stale loop. */
    method MarkStale(all: Known, stale: set<ExternalId>) returns (count: nat)
      requires stale <= all.Keys
      modifies this
      ensures count == |stale|
      ensures Tables() == WithAllMissing(old(Tables()), TracksOf(all, stale))
    {
      var rest := stale;
      count := 0;
      ghost var before := Tables();
      ghost var marked := {};
      while rest != {}
        invariant marked + rest == stale && count + |rest| == |stale|
        invariant Tables() == WithAllMissing(before, TracksOf(all, marked))
      {
        var e :| e in rest;
        MarkedMore(before, all, marked, e);
        MarkTrack(all[e].track, true);
        rest := rest - {e};
        marked := marked + {e};
        count := count + 1;
      }
      assert marked == stale;
    }
  }
}
