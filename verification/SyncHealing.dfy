/**
 What a failed catalog sync leaves, the next one over the same catalog mends
 (app/navidrome_sync.py:98-222): a relinked placeholder whose song could not be
 written is relinked again, from the same old id to the same row.
 */
module SyncHealing {
  import opened Wrappers
  import opened CatalogTables
  import opened CatalogSync
  import opened SyncTheorems

  /** Every song id comes with one path. */
  ghost predicate PathsAgree(songs: seq<Song>) {
    forall i, j :: 0 <= i < |songs| && 0 <= j < |songs| && songs[i].id == songs[j].id ==>
      songs[i].raw.path == songs[j].raw.path
  }

  /** The tables are those of `home` but for the placeholders of `lost` ids, which the catalog relinks again. */
  ghost predicate Strays(home: Db, db: Db, songs: seq<Song>, lost: Pairs) {
    && db.external == home.external && db.aliases == home.aliases && db.nextId == home.nextId
    && db.tracks.Keys == home.tracks.Keys
    && (forall o {:trigger lost[o]} :: o in lost ==>
          && o in home.external && home.external[o].track in home.tracks && lost[o] !in home.external
          && Rotated(Snapshot(home), songs, o, lost[o])
          && home.tracks[home.external[o].track].path == Navidrome(o)
          && db.tracks[home.external[o].track] == home.tracks[home.external[o].track].(path := Navidrome(lost[o])))
    && (forall t :: t in home.tracks && (forall o {:trigger lost[o]} :: o in lost ==> home.external[o].track != t) ==>
          db.tracks[t] == home.tracks[t])
  }

  ghost predicate Mendable(db: Db, songs: seq<Song>) {
    RawsNamed(db, songs) && exists home, lost :: WellFormed(home) && Strays(home, db, songs, lost)
  }

  lemma {:induction false} WellFormedIsMendable(db: Db, songs: seq<Song>)
    requires WellFormed(db) && RawsNamed(db, songs)
    ensures Mendable(db, songs)
  {
    assert Strays(db, db, songs, map[]);
  }

  // -------------------------------------------------------- what a run leaves

  lemma {:induction false} UnseenStep(db: Db, all: Known, s: Song, fault: Fault, e: ExternalId)
    requires s.id.text == "" || s.id != e
    ensures e in SyncSong(db, all, s, fault).external ==>
              e in db.external && SyncSong(db, all, s, fault).external[e] == db.external[e]
  {
  }

  /** The row of an id that no song names is as it was, if it is still there. */
  lemma {:induction false} UnseenRow(db: Db, all: Known, songs: seq<Song>, faults: seq<Fault>, e: ExternalId)
    requires |faults| == |songs| && forall i :: 0 <= i < |songs| ==> songs[i].id.text == "" || songs[i].id != e
    ensures var after := SyncSongs(db, all, songs, faults);
            e in after.external ==> e in db.external && after.external[e] == db.external[e]
  {
    if songs != [] {
      var n := |songs| - 1;
      assert forall i :: 0 <= i < n ==> songs[..n][i] == songs[i];
      UnseenRow(db, all, songs[..n], faults[..n], e);
      UnseenStep(SyncSongs(db, all, songs[..n], faults[..n]), all, songs[n], faults[n], e);
    }
  }

  lemma {:induction false} UnseenKept(before: Db, songs: seq<Song>, albums: Albums, faults: seq<Fault>,
                                      pairs: Pairs, all: Known, mid: Db, after: Db, e: ExternalId)
    requires FullRun(before, songs, albums, faults, pairs, all, mid, after) && e !in SeenIds(songs)
             && e in after.external
    ensures e in before.external && after.external[e] == before.external[e]
  {
    hide SyncSongs, IsRelinking, IsExtension, UniquePaths;
    var injected := InjectAll(songs, albums);
    forall i | 0 <= i < |injected| ensures injected[i].id.text == "" || injected[i].id != e {
      assert songs[i] in songs;
    }
    UnseenRow(mid, all, injected, faults, e);
  }

  /** Fewer vanished ids with the same source paths: what was rotated still is. */
  lemma {:induction false} StillRotated(known: Known, later: Known, songs: seq<Song>, o: ExternalId, n: ExternalId)
    requires Rotated(known, songs, o, n) && Vanished(later, songs, o)
    requires forall d :: Vanished(later, songs, d) ==> Vanished(known, songs, d) && later[d].raw == known[d].raw
    ensures Rotated(later, songs, o, n)
  {
    hide SoleClaimant;
  }

  /** The relinked placeholders whose song was not written. */
  ghost function Lost(before: Db, pairs: Pairs, after: Db): Pairs {
    map o | o in pairs && o in after.external && o in before.external && before.external[o].track in before.tracks
            && before.tracks[before.external[o].track].path.Navidrome? :: pairs[o]
  }

  /** The row as it would be with its old placeholder. */
  ghost function Homed(after: Db, lost: Pairs, t: TrackId): Track
    requires t in after.tracks
  {
    if o :| o in lost && o in after.external && after.external[o].track == t then after.tracks[t].(path := Navidrome(o))
    else after.tracks[t]
  }

  ghost function HomeOf(after: Db, lost: Pairs): Db {
    after.(tracks := map t | t in after.tracks :: Homed(after, lost, t))
  }

  lemma {:induction false} HomedAt(after: Db, lost: Pairs, o: ExternalId)
    requires Injective(after) && o in lost && o in after.external
    ensures Homed(after, lost, after.external[o].track) == after.tracks[after.external[o].track].(path := Navidrome(o))
  {
  }

  lemma {:induction false} LostAre(before: Db, songs: seq<Song>, albums: Albums, faults: seq<Fault>,
                                   pairs: Pairs, all: Known, mid: Db, after: Db, o: ExternalId)
    requires FullRun(before, songs, albums, faults, pairs, all, mid, after)
    requires WellFormed(before) && RawsNamed(before, songs) && o in Lost(before, pairs, after)
    ensures pairs[o] !in after.external && after.external[o].track == before.external[o].track
    ensures after.external[o].track in after.tracks && before.tracks[after.external[o].track].path == Navidrome(o)
    ensures after.tracks[after.external[o].track].path == Navidrome(pairs[o])
  {
    hide RawsNamed, Written, SyncSongs;
    RelinkCarriesTrack(before, songs, albums, faults, pairs, all, mid, after, o);
    RetiredHome(before, songs, pairs, all, mid, o);
    RunProgress(before, songs, albums, faults, pairs, all, mid, after);
    assert AtHome(before, o);
    hide FullRun, UniquePaths, IdsKept, NewIdsAtHome, Injective, Base;
  }

  /** No row is at the placeholder that a lost id used to have. */
  lemma {:induction false} PlaceholderLeft(before: Db, songs: seq<Song>, albums: Albums, faults: seq<Fault>,
                                           pairs: Pairs, all: Known, mid: Db, after: Db, o: ExternalId, t: TrackId)
    requires FullRun(before, songs, albums, faults, pairs, all, mid, after)
    requires WellFormed(before) && RawsNamed(before, songs) && o in Lost(before, pairs, after)
    requires t in after.tracks && t != after.external[o].track
    ensures after.tracks[t].path != Navidrome(o)
  {
    LostAre(before, songs, albums, faults, pairs, all, mid, after, o);
    RunProgress(before, songs, albums, faults, pairs, all, mid, after);
    hide RawsNamed, Written, SyncSongs, IdsKept, NewIdsAtHome, Injective, Base, AtHome;
    if t in mid.tracks {
      MidPath(before, songs, pairs, all, mid, o, t);
    }
  }

  lemma {:induction false} MidPath(before: Db, songs: seq<Song>, pairs: Pairs, all: Known, mid: Db, o: ExternalId,
                                   t: TrackId)
    requires Relinks(before, songs, pairs, all, mid) && UniquePaths(before) && o in pairs && o in before.external
    requires before.external[o].track in before.tracks && before.tracks[before.external[o].track].path == Navidrome(o)
    requires t in mid.tracks && t != before.external[o].track
    ensures mid.tracks[t].path != Navidrome(o)
  {
    hide Rotated, IsExtension;
    var known := Snapshot(before);
    assert o in known && t in before.tracks && before.tracks[t].path != Navidrome(o);
    if p :| p in pairs && known[p].track == t {
      assert pairs[p] !in known;
      assert mid.tracks[t] == Moved(before.tracks[t], known[p], pairs[p]);
      hide Relinks, Snapshot, UniquePaths;
    } else {
      assert mid.tracks[t] == before.tracks[t];
    }
  }

  lemma {:induction false} HomeIsWellFormed(before: Db, songs: seq<Song>, albums: Albums, faults: seq<Fault>,
                                            pairs: Pairs, all: Known, mid: Db, after: Db)
    requires FullRun(before, songs, albums, faults, pairs, all, mid, after)
    requires WellFormed(before) && RawsNamed(before, songs)
    ensures WellFormed(HomeOf(after, Lost(before, pairs, after)))
  {
    var lost := Lost(before, pairs, after);
    RunKeepsWellFormed(before, songs, albums, faults, pairs, all, mid, after);
    forall o, t | o in lost && t in after.tracks && t != after.external[o].track
      ensures after.tracks[t].path != Navidrome(o)
    {
      PlaceholderLeft(before, songs, albums, faults, pairs, all, mid, after, o, t);
    }
    forall e | e in after.external ensures AtHome(after, e) <==> e !in lost {
      HomelessAre(before, songs, albums, faults, pairs, all, mid, after, e);
    }
    hide FullRun, RawsNamed, Lost;
    HomesUnique(after, lost);
    HomesHome(after, lost);
  }

  lemma {:induction false} HomelessAre(before: Db, songs: seq<Song>, albums: Albums, faults: seq<Fault>,
                                       pairs: Pairs, all: Known, mid: Db, after: Db, e: ExternalId)
    requires FullRun(before, songs, albums, faults, pairs, all, mid, after)
    requires WellFormed(before) && RawsNamed(before, songs) && e in after.external
    ensures after.external[e].track in after.tracks && (AtHome(after, e) <==> e !in Lost(before, pairs, after))
  {
    RunProgress(before, songs, albums, faults, pairs, all, mid, after);
    hide RawsNamed, Base, Progress, SyncSongs, IsRelinking, RelinkEffect, IsExtension;
    HomeAfter(before, songs, albums, faults, pairs, all, mid, after, e);
  }

  lemma {:induction false} HomesUnique(after: Db, lost: Pairs)
    requires UniquePaths(after) && Injective(after) && lost.Keys <= after.external.Keys
    requires forall o, t :: o in lost && t in after.tracks && t != after.external[o].track ==>
               after.tracks[t].path != Navidrome(o)
    ensures UniquePaths(HomeOf(after, lost)) && Injective(HomeOf(after, lost))
  {
  }

  lemma {:induction false} HomesHome(after: Db, lost: Pairs)
    requires Injective(after) && lost.Keys <= after.external.Keys
    requires forall e :: e in after.external ==> (AtHome(after, e) <==> e !in lost)
    ensures forall e :: e in after.external ==> AtHome(HomeOf(after, lost), e)
  {
    var home := HomeOf(after, lost);
    forall e | e in after.external ensures AtHome(home, e) {
      if e in lost {
        HomedAt(after, lost, e);
      } else {
        assert home.tracks[after.external[e].track] == after.tracks[after.external[e].track];
      }
    }
  }

  /** Whatever fails, the run leaves tables that the same catalog can mend. */
  lemma {:induction false} RunLeavesMendable(before: Db, songs: seq<Song>, albums: Albums, faults: seq<Fault>,
                                             pairs: Pairs, all: Known, mid: Db, after: Db)
    requires FullRun(before, songs, albums, faults, pairs, all, mid, after)
    requires WellFormed(before) && RawsNamed(before, songs)
    ensures Mendable(after, songs)
  {
    var lost := Lost(before, pairs, after);
    var home := HomeOf(after, lost);
    HomeIsWellFormed(before, songs, albums, faults, pairs, all, mid, after);
    RawsNamedAfter(before, songs, albums, faults, pairs, all, mid, after);
    forall o | o in lost
      ensures pairs[o] !in after.external && after.external[o].track in after.tracks
      ensures after.tracks[after.external[o].track].path == Navidrome(pairs[o])
      ensures Rotated(Snapshot(home), songs, o, pairs[o])
    {
      LostAre(before, songs, albums, faults, pairs, all, mid, after, o);
      LostRotated(before, songs, albums, faults, pairs, all, mid, after, o);
    }
    hide FullRun, Rotated, RawsNamed, Snapshot, UniquePaths, AtHome;
    HomeStrays(home, after, songs, lost);
  }

  lemma {:induction false} NotLost(after: Db, lost: Pairs, t: TrackId)
    requires t in after.tracks && lost.Keys <= after.external.Keys
    requires forall o {:trigger lost[o]} :: o in lost ==> after.external[o].track != t
    ensures Homed(after, lost, t) == after.tracks[t]
  {
    assert forall o :: o in lost ==> lost[o] == lost[o] && after.external[o].track != t;
  }

  lemma {:induction false} HomeRows(after: Db, lost: Pairs)
    ensures var home := HomeOf(after, lost);
            && home.external == after.external && home.aliases == after.aliases && home.nextId == after.nextId
            && home.tracks.Keys == after.tracks.Keys
            && (forall t :: t in after.tracks ==> home.tracks[t] == Homed(after, lost, t))
  {
    hide Homed;
  }

  lemma {:induction false} HomeStrays(home: Db, after: Db, songs: seq<Song>, lost: Pairs)
    requires home == HomeOf(after, lost) && Injective(after) && lost.Keys <= after.external.Keys
    requires forall o {:trigger lost[o]} :: o in lost ==>
               && lost[o] !in after.external && Rotated(Snapshot(home), songs, o, lost[o])
               && after.tracks[after.external[o].track].path == Navidrome(lost[o])
    ensures Strays(home, after, songs, lost)
  {
    hide HomeOf, Rotated, Snapshot, Homed;
    HomeRows(after, lost);
    assert forall o :: o in lost ==> after.external[o].track in after.tracks;
    forall o {:trigger lost[o]} | o in lost
      ensures home.tracks[after.external[o].track].path == Navidrome(o)
      ensures after.tracks[after.external[o].track] ==
              home.tracks[after.external[o].track].(path := Navidrome(lost[o]))
    {
      HomedAt(after, lost, o);
    }
    forall t | t in home.tracks && (forall o {:trigger lost[o]} :: o in lost ==> home.external[o].track != t)
      ensures after.tracks[t] == home.tracks[t]
    {
      NotLost(after, lost, t);
    }
  }

  lemma {:induction false} RawsNamedAfter(before: Db, songs: seq<Song>, albums: Albums, faults: seq<Fault>,
                                          pairs: Pairs, all: Known, mid: Db, after: Db)
    requires FullRun(before, songs, albums, faults, pairs, all, mid, after) && RawsNamed(before, songs)
    ensures RawsNamed(after, songs)
  {
    hide SyncSongs, IsRelinking, IsExtension, UniquePaths;
    var injected := InjectAll(songs, albums);
    forall i | 0 <= i < |injected| ensures injected[i].raw.id == injected[i].id {
      assert songs[i] in songs;
    }
    RawsStayNamed(mid, all, injected, faults);
  }

  /** An id that vanishes from the tables after the run had vanished before, with the same source path. */
  lemma {:induction false} VanishedBefore(before: Db, songs: seq<Song>, albums: Albums, faults: seq<Fault>,
                                          pairs: Pairs, all: Known, mid: Db, after: Db, home: Db, d: ExternalId)
    requires FullRun(before, songs, albums, faults, pairs, all, mid, after) && WellFormed(before)
    requires home.external == after.external && Vanished(Snapshot(home), songs, d)
    ensures Vanished(Snapshot(before), songs, d) && Snapshot(home)[d].raw == Snapshot(before)[d].raw
  {
    UnseenKept(before, songs, albums, faults, pairs, all, mid, after, d);
    hide FullRun, SeenIds, UniquePaths, AtHome;
  }

  lemma {:induction false} LostVanished(before: Db, songs: seq<Song>, albums: Albums, faults: seq<Fault>,
                                        pairs: Pairs, all: Known, mid: Db, after: Db, home: Db, o: ExternalId)
    requires FullRun(before, songs, albums, faults, pairs, all, mid, after) && o in after.external
    requires home.external == after.external && home.tracks.Keys == after.tracks.Keys
    requires Vanished(Snapshot(before), songs, o) && after.external[o].track in after.tracks
    ensures Vanished(Snapshot(home), songs, o)
  {
    UnseenKept(before, songs, albums, faults, pairs, all, mid, after, o);
    hide FullRun, SeenIds;
  }

  lemma {:induction false} PairRotated(before: Db, songs: seq<Song>, albums: Albums, faults: seq<Fault>,
                                       pairs: Pairs, all: Known, mid: Db, after: Db, o: ExternalId)
    requires FullRun(before, songs, albums, faults, pairs, all, mid, after) && o in pairs
    ensures Rotated(Snapshot(before), songs, o, pairs[o])
  {
    hide Rotated, Snapshot, RelinkEffect, IsExtension, SyncSongs;
  }

  /** A lost id is rotated again, to the same new id. */
  lemma {:induction false} LostRotated(before: Db, songs: seq<Song>, albums: Albums, faults: seq<Fault>,
                                       pairs: Pairs, all: Known, mid: Db, after: Db, o: ExternalId)
    requires FullRun(before, songs, albums, faults, pairs, all, mid, after)
    requires WellFormed(before) && RawsNamed(before, songs) && o in Lost(before, pairs, after)
    ensures Rotated(Snapshot(HomeOf(after, Lost(before, pairs, after))), songs, o, pairs[o])
  {
    hide FullRun, RawsNamed, WellFormed, Snapshot, SoleClaimant, Homed;
    var home := HomeOf(after, Lost(before, pairs, after));
    PairRotated(before, songs, albums, faults, pairs, all, mid, after, o);
    LostAre(before, songs, albums, faults, pairs, all, mid, after, o);
    LostVanished(before, songs, albums, faults, pairs, all, mid, after, home, o);
    forall d | Vanished(Snapshot(home), songs, d)
      ensures Vanished(Snapshot(before), songs, d) && Snapshot(home)[d].raw == Snapshot(before)[d].raw
    {
      VanishedBefore(before, songs, albums, faults, pairs, all, mid, after, home, d);
    }
    hide Rotated;
    StillRotated(Snapshot(before), Snapshot(home), songs, o, pairs[o]);
  }

  // -------------------------------------------------- the next run, seen from home

  /** The snapshot the next run would have worked from with every row at home. */
  ghost function SeenFrom(home: Db, all: Known): Known {
    map e | e in all ::
      if all[e].track in home.tracks
      then Mapping(all[e].track, all[e].raw, Some(home.tracks[all[e].track].path), home.tracks[all[e].track].meta)
      else Mapping(all[e].track, all[e].raw, None, Metadata(""))
  }

  lemma {:induction false} SameVanished(home: Db, db: Db, songs: seq<Song>, d: ExternalId)
    requires db.external == home.external && db.tracks.Keys == home.tracks.Keys
    ensures Vanished(Snapshot(db), songs, d) <==> Vanished(Snapshot(home), songs, d)
    ensures d in Snapshot(db) <==> d in Snapshot(home)
    ensures d in Snapshot(db) ==>
            Snapshot(db)[d].raw == Snapshot(home)[d].raw && Snapshot(db)[d].track == Snapshot(home)[d].track
  {
    hide SeenIds;
  }

  /** Which ids are rotated depends on ids, source paths and row ids only. */
  lemma {:induction false} SameRotated(home: Db, db: Db, songs: seq<Song>)
    requires db.external == home.external && db.tracks.Keys == home.tracks.Keys
    ensures forall o, n :: Rotated(Snapshot(db), songs, o, n) <==> Rotated(Snapshot(home), songs, o, n)
  {
    forall d
      ensures Vanished(Snapshot(db), songs, d) <==> Vanished(Snapshot(home), songs, d)
      ensures d in Snapshot(db) <==> d in Snapshot(home)
      ensures d in Snapshot(db) ==> Snapshot(db)[d].raw == Snapshot(home)[d].raw
    {
      SameVanished(home, db, songs, d);
    }
    hide Snapshot, SoleClaimant;
  }

  lemma {:induction false} SameRelinking(home: Db, db: Db, songs: seq<Song>, pairs: Pairs)
    requires db.external == home.external && db.tracks.Keys == home.tracks.Keys
    ensures IsRelinking(Snapshot(db), songs, pairs) <==> IsRelinking(Snapshot(home), songs, pairs)
  {
    SameRotated(home, db, songs);
    assert Snapshot(db).Keys == Snapshot(home).Keys;
    hide Rotated, Snapshot;
  }

  /** With one path an id, two rotated ids cannot have the same new id. */
  lemma {:induction false} OneOrigin(known: Known, songs: seq<Song>, o: ExternalId, p: ExternalId, n: ExternalId)
    requires PathsAgree(songs) && Rotated(known, songs, o, n) && Rotated(known, songs, p, n)
    ensures o == p
  {
    var i: nat :| Claims(songs, i, known[o].raw.value.path) && songs[i].id == n;
    var j: nat :| Claims(songs, j, known[p].raw.value.path) && songs[j].id == n;
    assert songs[i].raw.path == songs[j].raw.path;
  }

  /** The next run relinks every lost id to the same new id. */
  lemma {:induction false} LostAgain(home: Db, db: Db, songs: seq<Song>, lost: Pairs, pairs: Pairs)
    requires PathsAgree(songs) && Strays(home, db, songs, lost) && IsRelinking(Snapshot(db), songs, pairs)
    ensures forall o {:trigger lost[o]} :: o in lost ==> o in pairs && pairs[o] == lost[o]
  {
    SameRotated(home, db, songs);
    assert Snapshot(db).Keys == home.external.Keys;
    hide Snapshot, Rotated;
    forall o {:trigger lost[o]} | o in lost ensures o in pairs && pairs[o] == lost[o] {
      assert Rotated(Snapshot(db), songs, o, lost[o]);
      var p :| p in pairs && pairs[p] == lost[o];
      OneOrigin(Snapshot(db), songs, o, p, lost[o]);
    }
  }

  /** Of the alias table the relinking reads row ids only. */
  lemma {:induction false} SameAliases(home: Db, db: Db, pairs: Pairs, mid: Db)
    requires db.external == home.external && db.aliases == home.aliases && db.tracks.Keys == home.tracks.Keys
    requires pairs.Keys <= db.external.Keys && RelinkEffect(db, Snapshot(db), pairs, mid)
    ensures var known := Snapshot(home);
            && (forall a :: a in mid.aliases <==>
                  a in home.aliases && !(a in pairs && home.aliases[a] == known[a].track))
            && (forall a :: a in mid.aliases ==> mid.aliases[a] == home.aliases[a])
  {
    assert forall a :: a in pairs ==> Snapshot(db)[a].track == Snapshot(home)[a].track;
    hide Moved;
  }

  lemma {:induction false} EffectParts(before: Db, known: Known, pairs: Pairs, after: Db)
    requires pairs.Keys <= known.Keys
    requires after.external == before.external && after.nextId == before.nextId
             && after.tracks.Keys == before.tracks.Keys
    requires forall t :: t in before.tracks && (forall o {:trigger pairs[o]} :: o in pairs ==> known[o].track != t) ==>
               after.tracks[t] == before.tracks[t]
    requires forall o {:trigger pairs[o]} :: o in pairs && known[o].track in before.tracks ==>
               after.tracks[known[o].track] == Moved(before.tracks[known[o].track], known[o], pairs[o])
    requires forall a :: a in after.aliases <==>
               a in before.aliases && !(a in pairs && before.aliases[a] == known[a].track)
    requires forall a :: a in after.aliases ==> after.aliases[a] == before.aliases[a]
    ensures RelinkEffect(before, known, pairs, after)
  {
    hide Moved;
  }

  /** What the relinking writes is the same, whether the lost rows start at home or astray. */
  lemma {:induction false} SameEffect(home: Db, db: Db, songs: seq<Song>, lost: Pairs, pairs: Pairs, mid: Db)
    requires WellFormed(home) && Strays(home, db, songs, lost)
    requires forall o {:trigger lost[o]} :: o in lost ==> o in pairs && pairs[o] == lost[o]
    requires pairs.Keys <= db.external.Keys && RelinkEffect(db, Snapshot(db), pairs, mid)
    ensures pairs.Keys <= Snapshot(home).Keys && RelinkEffect(home, Snapshot(home), pairs, mid)
  {
    SameColumns(home, db, songs, lost, pairs, mid);
    hide RelinkEffect, Strays, WellFormed, Moved, Snapshot;
    SameAliases(home, db, pairs, mid);
    PairTracks(home, pairs);
    var known := Snapshot(home);
    forall t | t in home.tracks && (forall o {:trigger pairs[o]} :: o in pairs ==> known[o].track != t)
      ensures mid.tracks[t] == home.tracks[t]
    {
      UntouchedRow(home, db, songs, lost, pairs, mid, t);
    }
    forall o {:trigger pairs[o]} | o in pairs && known[o].track in home.tracks
      ensures mid.tracks[known[o].track] == Moved(home.tracks[known[o].track], known[o], pairs[o])
    {
      MovedRow(home, db, songs, lost, pairs, mid, o);
    }
    EffectParts(home, known, pairs, mid);
  }

  lemma {:induction false} SameColumns(home: Db, db: Db, songs: seq<Song>, lost: Pairs, pairs: Pairs, mid: Db)
    requires Strays(home, db, songs, lost)
    requires pairs.Keys <= db.external.Keys && RelinkEffect(db, Snapshot(db), pairs, mid)
    ensures db.external == home.external && db.aliases == home.aliases && db.tracks.Keys == home.tracks.Keys
    ensures mid.external == home.external && mid.nextId == home.nextId && mid.tracks.Keys == home.tracks.Keys
  {
    hide Rotated, Snapshot, Moved;
  }

  lemma {:induction false} PairTracks(db: Db, pairs: Pairs)
    requires pairs.Keys <= db.external.Keys
    ensures pairs.Keys <= Snapshot(db).Keys
    ensures forall o :: o in pairs ==> Snapshot(db)[o].track == db.external[o].track
  {
  }

  lemma {:induction false} UntouchedRow(home: Db, db: Db, songs: seq<Song>, lost: Pairs, pairs: Pairs, mid: Db,
                                        t: TrackId)
    requires Strays(home, db, songs, lost) && pairs.Keys <= db.external.Keys
    requires forall o {:trigger lost[o]} :: o in lost ==> o in pairs && pairs[o] == lost[o]
    requires RelinkEffect(db, Snapshot(db), pairs, mid) && t in home.tracks
    requires forall o {:trigger pairs[o]} :: o in pairs ==> Snapshot(home)[o].track != t
    ensures mid.tracks[t] == home.tracks[t]
  {
    hide Rotated, Moved;
    forall o {:trigger lost[o]} | o in lost ensures home.external[o].track != t {
      assert pairs[o] == lost[o];
    }
    assert db.tracks[t] == home.tracks[t];
    forall o {:trigger pairs[o]} | o in pairs ensures Snapshot(db)[o].track != t {
    }
  }

  lemma {:induction false} MovedRow(home: Db, db: Db, songs: seq<Song>, lost: Pairs, pairs: Pairs, mid: Db,
                                    o: ExternalId)
    requires WellFormed(home) && Strays(home, db, songs, lost) && pairs.Keys <= db.external.Keys
    requires forall o {:trigger lost[o]} :: o in lost ==> o in pairs && pairs[o] == lost[o]
    requires RelinkEffect(db, Snapshot(db), pairs, mid) && o in pairs && home.external[o].track in home.tracks
    ensures mid.tracks[home.external[o].track] ==
            Moved(home.tracks[home.external[o].track], Snapshot(home)[o], pairs[o])
  {
    hide Rotated, UniquePaths, AtHome;
    var t := home.external[o].track;
    assert mid.tracks[t] == Moved(db.tracks[t], Snapshot(db)[o], pairs[o]);
    if o in lost {
      assert lost[o] == pairs[o];
    } else {
      assert forall p {:trigger lost[p]} :: p in lost ==> home.external[p].track != t;
    }
  }

  /**
   The two entries differ at most in which placeholder they remember, and the song's
   raw JSON is not the stored one.
   */
  ghost predicate Alike(m: Mapping, seen: Mapping, s: Song) {
    && seen.track == m.track && seen.raw == m.raw
    && (seen == m
        || (m.raw != Some(s.raw) && m.path.Some? && seen.path.Some?
            && m.path.value.Navidrome? && seen.path.value.Navidrome?))
  }

  /** A song takes the same branch, whether its relinked row is remembered at the new or the old placeholder. */
  lemma {:induction false} SameStep(db: Db, all: Known, seen: Known, s: Song, fault: Fault)
    requires all.Keys == seen.Keys && (s.id.text != "" && s.id in all ==> Alike(all[s.id], seen[s.id], s))
    ensures SyncSong(db, seen, s, fault) == SyncSong(db, all, s, fault)
  {
    hide Recorded, Refreshed, WithTrack, RowFor;
  }

  lemma {:induction false} SameSongs(db: Db, all: Known, seen: Known, songs: seq<Song>, faults: seq<Fault>)
    requires |faults| == |songs| && all.Keys == seen.Keys
    requires forall i :: 0 <= i < |songs| && songs[i].id.text != "" && songs[i].id in all ==>
               Alike(all[songs[i].id], seen[songs[i].id], songs[i])
    ensures SyncSongs(db, seen, songs, faults) == SyncSongs(db, all, songs, faults)
  {
    if songs != [] {
      var n := |songs| - 1;
      assert forall i :: 0 <= i < n ==> songs[..n][i] == songs[i];
      SameSongs(db, all, seen, songs[..n], faults[..n]);
      SameStep(SyncSongs(db, all, songs[..n], faults[..n]), all, seen, songs[n], faults[n]);
    }
  }

  /** Where an entry of the extended snapshot comes from. */
  lemma {:induction false} EntryFrom(db: Db, pairs: Pairs, all: Known, e: ExternalId) returns (x: ExternalId)
    requires pairs.Keys <= db.external.Keys && IsExtension(Snapshot(db), pairs, all) && e in all
    ensures x in db.external && all[e] == Snapshot(db)[x] && (x == e || (x in pairs && pairs[x] == e))
  {
    x := e;
    if e !in db.external {
      x :| x in pairs && pairs[x] == e;
    }
  }

  /** The entry of a row that is not lost is the same from home. */
  lemma {:induction false} EntrySame(home: Db, db: Db, songs: seq<Song>, lost: Pairs, pairs: Pairs, all: Known,
                                     e: ExternalId)
    requires Strays(home, db, songs, lost)
    requires pairs.Keys <= db.external.Keys && IsExtension(Snapshot(db), pairs, all) && e in all
    requires forall o {:trigger lost[o]} :: o in lost ==> home.external[o].track != all[e].track
    ensures SeenFrom(home, all)[e] == all[e]
  {
    hide Rotated, IsExtension;
    var x := EntryFrom(db, pairs, all, e);
    if all[e].track in home.tracks {
      assert db.tracks[all[e].track] == home.tracks[all[e].track];
    }
  }

  /** The entry of a lost row remembers a placeholder from both sides, and the raw JSON of the old id. */
  lemma {:induction false} EntryLost(home: Db, db: Db, songs: seq<Song>, lost: Pairs, pairs: Pairs, all: Known,
                                     o: ExternalId, s: Song)
    requires Injective(home) && Strays(home, db, songs, lost) && RawNamesId(db)
    requires pairs.Keys <= db.external.Keys && IsExtension(Snapshot(db), pairs, all)
    requires IsRelinking(Snapshot(db), songs, pairs) && o in lost && o !in SeenIds(songs)
    requires s.raw.id == s.id && s.id in all && s.id in SeenIds(songs) && all[s.id].track == home.external[o].track
    ensures Alike(all[s.id], SeenFrom(home, all)[s.id], s)
  {
    hide Rotated, SeenIds, IsExtension;
    var x := EntryFrom(db, pairs, all, s.id);
    assert x == o;
    assert lost[o] == lost[o];
  }

  lemma {:induction false} SeenAs(home: Db, db: Db, songs: seq<Song>, lost: Pairs, pairs: Pairs, all: Known, s: Song)
    requires Injective(home) && Strays(home, db, songs, lost) && RawNamesId(db)
    requires pairs.Keys <= db.external.Keys && IsExtension(Snapshot(db), pairs, all)
    requires IsRelinking(Snapshot(db), songs, pairs)
    requires s.raw.id == s.id && s.id in all && s.id in SeenIds(songs)
    ensures Alike(all[s.id], SeenFrom(home, all)[s.id], s)
  {
    hide SeenIds, IsExtension, Alike, SeenFrom, IsRelinking, Snapshot;
    if o :| o in lost && home.external[o].track == all[s.id].track {
      assert Rotated(Snapshot(home), songs, o, lost[o]);
      EntryLost(home, db, songs, lost, pairs, all, o, s);
    } else {
      assert forall o {:trigger lost[o]} :: o in lost ==> home.external[o].track != all[s.id].track;
      EntrySame(home, db, songs, lost, pairs, all, s.id);
      AlikeSelf(all[s.id], s);
    }
  }

  lemma {:induction false} AlikeSelf(m: Mapping, s: Song)
    ensures Alike(m, m, s)
  {
  }

  lemma {:induction false} SameExtension(home: Db, db: Db, songs: seq<Song>, lost: Pairs, pairs: Pairs, all: Known)
    requires Strays(home, db, songs, lost)
    requires pairs.Keys <= db.external.Keys && IsExtension(Snapshot(db), pairs, all)
    ensures pairs.Keys <= Snapshot(home).Keys && IsExtension(Snapshot(home), pairs, SeenFrom(home, all))
  {
    hide Rotated;
    forall o {:trigger pairs[o]} | o in pairs ensures SeenFrom(home, all)[pairs[o]] == Snapshot(home)[o] {
      assert all[pairs[o]] == Snapshot(db)[o];
    }
  }

  /** The next run ends as it would have from home. */
  lemma {:induction false} RunFromHome(home: Db, db: Db, songs: seq<Song>, lost: Pairs, albums: Albums,
                                       faults: seq<Fault>, pairs: Pairs, all: Known, mid: Db, after: Db)
    requires PathsAgree(songs) && WellFormed(home) && Strays(home, db, songs, lost) && RawsNamed(db, songs)
    requires FullRun(db, songs, albums, faults, pairs, all, mid, after)
    ensures FullRun(home, songs, albums, faults, pairs, SeenFrom(home, all), mid, after)
  {
    hide RelinkEffect, IsExtension, IsRelinking, UniquePaths, AtHome, SyncSongs, WithAllMissing, SeenFrom, Alike,
        Snapshot;
    LostAgain(home, db, songs, lost, pairs);
    SameEffect(home, db, songs, lost, pairs, mid);
    SameExtension(home, db, songs, lost, pairs, all);
    SameRelinking(home, db, songs, pairs);
    SameKeys(home, all);
    var injected := InjectAll(songs, albums);
    forall i | 0 <= i < |injected| && injected[i].id.text != "" && injected[i].id in all
      ensures Alike(all[injected[i].id], SeenFrom(home, all)[injected[i].id], injected[i])
    {
      assert songs[i] in songs && songs[i].id in SeenIds(songs);
      SeenAs(home, db, songs, lost, pairs, all, injected[i]);
    }
    SameSongs(mid, all, SeenFrom(home, all), injected, faults);
    assert StaleTracks(home, songs, pairs) == StaleTracks(db, songs, pairs);
  }

  lemma {:induction false} SameKeys(home: Db, all: Known)
    ensures SeenFrom(home, all).Keys == all.Keys
  {
  }

  // ---------------------------------------------------------------- the theorems

  /** Whatever fails, a run from mendable tables ends in tables that the same catalog can mend. */
  lemma {:induction false} StaysMendable(db: Db, songs: seq<Song>, albums: Albums, faults: seq<Fault>,
                                         pairs: Pairs, all: Known, mid: Db, after: Db)
    requires PathsAgree(songs) && Mendable(db, songs)
    requires FullRun(db, songs, albums, faults, pairs, all, mid, after)
    ensures Mendable(after, songs)
  {
    hide WellFormed, Strays, FullRun;
    var home, lost :| WellFormed(home) && Strays(home, db, songs, lost);
    RunFromHome(home, db, songs, lost, albums, faults, pairs, all, mid, after);
    HomeNamed(home, db, songs, lost);
    RunLeavesMendable(home, songs, albums, faults, pairs, SeenFrom(home, all), mid, after);
  }

  lemma {:induction false} HomeNamed(home: Db, db: Db, songs: seq<Song>, lost: Pairs)
    requires Strays(home, db, songs, lost) && RawsNamed(db, songs)
    ensures RawsNamed(home, songs)
  {
    hide Rotated, Snapshot;
  }

  lemma {:induction false} AllWritten(db: Db, songs: seq<Song>, albums: Albums, faults: seq<Fault>,
                                      pairs: Pairs, all: Known, mid: Db, after: Db)
    requires FullRun(db, songs, albums, faults, pairs, all, mid, after)
    requires forall i :: 0 <= i < |songs| ==> faults[i] == NoFault
    ensures forall o {:trigger pairs[o]} :: o in pairs ==> pairs[o] in Written(songs, faults)
  {
    hide SyncSongs, RelinkEffect, IsExtension, Snapshot;
    forall o {:trigger pairs[o]} | o in pairs ensures pairs[o] in Written(songs, faults) {
      var path := Snapshot(db)[o].raw.value.path;
      var i: nat :| Claims(songs, i, path) && songs[i].id == pairs[o];
      assert Writes(songs[i], faults[i]);
    }
  }

  /** A run without failures mends the tables. */
  lemma {:induction false} CleanRunMends(db: Db, songs: seq<Song>, albums: Albums, faults: seq<Fault>,
                                         pairs: Pairs, all: Known, mid: Db, after: Db)
    requires PathsAgree(songs) && Mendable(db, songs)
    requires FullRun(db, songs, albums, faults, pairs, all, mid, after)
    requires forall i :: 0 <= i < |songs| ==> faults[i] == NoFault
    ensures WellFormed(after) && RawsNamed(after, songs)
  {
    AllWritten(db, songs, albums, faults, pairs, all, mid, after);
    RawsNamedAfter(db, songs, albums, faults, pairs, all, mid, after);
    hide WellFormed, Strays, FullRun, Written;
    var home, lost :| WellFormed(home) && Strays(home, db, songs, lost);
    RunFromHome(home, db, songs, lost, albums, faults, pairs, all, mid, after);
    HomeNamed(home, db, songs, lost);
    RunKeepsWellFormed(home, songs, albums, faults, pairs, SeenFrom(home, all), mid, after);
  }

  /** The catalog can be synced from the one tables to the other, whatever fails. */
  ghost predicate Syncs(db: Db, songs: seq<Song>, after: Db) {
    exists albums, faults, pairs, all, mid :: FullRun(db, songs, albums, faults, pairs, all, mid, after)
  }

  /**
   After any number of runs over one catalog, each with any failures, a run without
   failures ends with every constraint and every placeholder in place.
   */
  lemma {:induction false} HealsAfterFailures(states: seq<Db>, songs: seq<Song>, albums: Albums, faults: seq<Fault>,
                                              pairs: Pairs, all: Known, mid: Db, after: Db)
    requires PathsAgree(songs) && states != [] && WellFormed(states[0]) && RawsNamed(states[0], songs)
    requires forall i :: 0 < i < |states| ==> Syncs(states[i - 1], songs, states[i])
    requires FullRun(states[|states| - 1], songs, albums, faults, pairs, all, mid, after)
    requires forall i :: 0 <= i < |songs| ==> faults[i] == NoFault
    ensures WellFormed(after)
  {
    hide WellFormed, FullRun, Mendable, RawsNamed;
    WellFormedIsMendable(states[0], songs);
    for i := 1 to |states|
      invariant Mendable(states[i - 1], songs)
    {
      assert Syncs(states[i - 1], songs, states[i]);
      var a, f, p, k, m :| FullRun(states[i - 1], songs, a, f, p, k, m, states[i]);
      StaysMendable(states[i - 1], songs, a, f, p, k, m, states[i]);
    }
    CleanRunMends(states[|states| - 1], songs, albums, faults, pairs, all, mid, after);
  }
}
