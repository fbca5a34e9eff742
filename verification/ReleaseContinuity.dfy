/**
 Keeping internal release ids across album id changes
 (app/navidrome_sync.py:357-422, `_preserve_release_continuity`).
 */
module ReleaseContinuity {
  import CatalogTables
  import CatalogSync

  type ReleaseId = nat

  datatype Album = Album(id: string)

  /** `releases.identity_key`: the provider key of an album, or any other text. */
  datatype Key = Provider(album: Album) | Derived(text: string)

  /** A song of the catalog that names an album and maps to a track with a release. */
  datatype Sighting = Sighting(release: ReleaseId, album: Album)

  /** `releases.identity_key` is UNIQUE. */
  ghost predicate UniqueKeys(keys: map<ReleaseId, Key>) {
    forall r, s {:trigger keys[r], keys[s]} :: r in keys && s in keys && keys[r] == keys[s] ==> r == s
  }

  ghost predicate Free(keys: map<ReleaseId, Key>, a: Album) {
    forall r :: r in keys ==> keys[r] != Provider(a)
  }

  /** The release and the album appear only with each other. */
  ghost predicate OneToOne(sightings: seq<Sighting>, r: ReleaseId, a: Album) {
    && Sighting(r, a) in sightings
    && forall s :: s in sightings ==> (s.release == r <==> s.album == a)
  }

  /** `targets` is the one-to-one part of what the catalog shows. */
  ghost predicate AreTargets(sightings: seq<Sighting>, targets: map<ReleaseId, Album>) {
    && (forall r :: r in targets ==> OneToOne(sightings, r, targets[r]))
    && (forall r, a :: OneToOne(sightings, r, a) ==> r in targets)
  }

  ghost predicate Injective(targets: map<ReleaseId, Album>) {
    forall r, s {:trigger targets[r], targets[s]} :: r in targets && s in targets && targets[r] == targets[s] ==> r == s
  }

  lemma {:induction false} TargetsInjective(sightings: seq<Sighting>, targets: map<ReleaseId, Album>)
    requires AreTargets(sightings, targets)
    ensures Injective(targets)
  {
    forall r, s {:trigger targets[r], targets[s]} | r in targets && s in targets && targets[r] == targets[s]
        ensures r == s {
      assert OneToOne(sightings, r, targets[r]) && OneToOne(sightings, s, targets[s]);
    }
  }

  // ----------------------------------------------------------------- the loop

  /** One turn: take over the album's key unless some release holds it. */
  ghost function Turn(keys: map<ReleaseId, Key>, targets: map<ReleaseId, Album>, r: ReleaseId): map<ReleaseId, Key> {
    if r in targets && r in keys && Free(keys, targets[r]) then keys[r := Provider(targets[r])] else keys
  }

  ghost function Turns(keys: map<ReleaseId, Key>, targets: map<ReleaseId, Album>,
                       order: seq<ReleaseId>): map<ReleaseId, Key> {
    if order == [] then keys
    else Turn(Turns(keys, targets, order[..|order| - 1]), targets, order[|order| - 1])
  }

  /** Keys stay unique after every turn, no release comes or goes, and a changed key is the release's own target. */
  lemma {:induction false} TurnsKeepUnique(keys: map<ReleaseId, Key>, targets: map<ReleaseId, Album>,
                                           order: seq<ReleaseId>)
    requires UniqueKeys(keys)
    ensures var after := Turns(keys, targets, order);
            && UniqueKeys(after) && after.Keys == keys.Keys
            && forall r :: r in keys && after[r] != keys[r] ==>
               r in order && r in targets && after[r] == Provider(targets[r])
  {
    if order != [] {
      TurnsKeepUnique(keys, targets, order[..|order| - 1]);
    }
  }

  /** Some eligible release wants the key that another eligible release is free to leave. */
  ghost predicate HandsOver(keys: map<ReleaseId, Key>, targets: map<ReleaseId, Album>, r: ReleaseId, h: ReleaseId) {
    && r in targets && r in keys && h in targets && h in keys && r != h
    && keys[h] == Provider(targets[r]) && Free(keys, targets[h])
  }

  /** Without a hand-over the outcome does not depend on the order: exactly the free targets are taken. */
  lemma {:induction false} TurnsSettled(keys: map<ReleaseId, Key>, targets: map<ReleaseId, Album>,
                                        order: seq<ReleaseId>, r: ReleaseId)
    requires UniqueKeys(keys) && Injective(targets) && r in keys
    requires forall s, h :: !HandsOver(keys, targets, s, h)
    ensures r in Turns(keys, targets, order)
    ensures Turns(keys, targets, order)[r] ==
            if r in order && r in targets && Free(keys, targets[r]) then Provider(targets[r]) else keys[r]
  {
    if order != [] {
      var n := |order| - 1;
      var last := order[n];
      var before := Turns(keys, targets, order[..n]);
      TurnsKeepUnique(keys, targets, order[..n]);
      assert r in order <==> r in order[..n] || r == last;
      TurnsSettled(keys, targets, order[..n], r);
      if r == last && r in targets {
        if Free(keys, targets[r]) {
          forall s | s in before && s != r ensures before[s] != Provider(targets[r]) {
            TurnsSettled(keys, targets, order[..n], s);
          }
        } else {
          var h :| h in keys && keys[h] == Provider(targets[r]);
          assert !HandsOver(keys, targets, r, h);
          TurnsSettled(keys, targets, order[..n], h);
        }
      }
    }
  }

  /** An order lists every eligible release, no release twice. */
  ghost predicate IsOrder(targets: map<ReleaseId, Album>, order: seq<ReleaseId>) {
    && (forall r :: r in targets ==> r in order)
    && (forall i, j :: 0 <= i < j < |order| ==> order[i] != order[j])
  }

  ghost predicate OrderFree(keys: map<ReleaseId, Key>, targets: map<ReleaseId, Album>) {
    forall p, q :: IsOrder(targets, p) && IsOrder(targets, q) ==> Turns(keys, targets, p) == Turns(keys, targets, q)
  }

  /** A release keeps the key it has after a prefix that holds its only turn. */
  lemma {:induction false} TurnsLater(keys: map<ReleaseId, Key>, targets: map<ReleaseId, Album>, p: seq<ReleaseId>,
                                      q: seq<ReleaseId>, r: ReleaseId)
    requires r in keys && r !in q
    ensures r in Turns(keys, targets, p) && r in Turns(keys, targets, p + q)
    ensures Turns(keys, targets, p + q)[r] == Turns(keys, targets, p)[r]
  {
    if q == [] {
      assert p + q == p;
      TurnsDomain(keys, targets, p);
    } else {
      var n := |q| - 1;
      assert (p + q)[..|p + q| - 1] == p + q[..n];
      TurnsLater(keys, targets, p, q[..n], r);
    }
  }

  lemma {:induction false} TurnsDomain(keys: map<ReleaseId, Key>, targets: map<ReleaseId, Album>, order: seq<ReleaseId>)
    ensures Turns(keys, targets, order).Keys == keys.Keys
  {
    if order != [] {
      TurnsDomain(keys, targets, order[..|order| - 1]);
    }
  }

  ghost function Listing(s: set<ReleaseId>): (r: seq<ReleaseId>)
    ensures forall x :: x in r <==> x in s
    ensures forall i, j :: 0 <= i < j < |r| ==> r[i] != r[j]
  {
    if s == {} then [] else var x :| x in s; [x] + Listing(s - {x})
  }

  lemma {:induction false} ListedFirst(targets: map<ReleaseId, Album>, a: ReleaseId, b: ReleaseId, rest: seq<ReleaseId>)
    requires a != b && rest == Listing(targets.Keys - {a, b})
    ensures IsOrder(targets, [a, b] + rest)
  {
    var order := [a, b] + rest;
    forall x | x in targets ensures x in order {
      assert order[0] == a && order[1] == b;
      assert x == a || x == b || x in rest;
    }
    assert a !in rest && b !in rest;
  }

  /** The first of the two turns decides for the release that wants the other's key. */
  lemma {:induction false} FirstTwoTurns(keys: map<ReleaseId, Key>, targets: map<ReleaseId, Album>, r: ReleaseId,
                                         h: ReleaseId)
    requires UniqueKeys(keys) && Injective(targets) && HandsOver(keys, targets, r, h)
    ensures Turns(keys, targets, [h, r]).Keys == keys.Keys && Turns(keys, targets, [h, r])[r] == Provider(targets[r])
    ensures Turns(keys, targets, [r, h]).Keys == keys.Keys
            && Turns(keys, targets, [r, h])[r] == keys[r] != Provider(targets[r])
  {
    TwoTurns(keys, targets, h, r);
    TwoTurns(keys, targets, r, h);
  }

  /** A hand-over makes the outcome depend on the order. */
  lemma {:induction false} HandOverMatters(keys: map<ReleaseId, Key>, targets: map<ReleaseId, Album>, r: ReleaseId,
                                           h: ReleaseId)
    requires UniqueKeys(keys) && Injective(targets) && HandsOver(keys, targets, r, h)
    ensures !OrderFree(keys, targets)
  {
    var rest := Listing(targets.Keys - {r, h});
    assert targets.Keys - {h, r} == targets.Keys - {r, h};
    ListedFirst(targets, h, r, rest);
    ListedFirst(targets, r, h, rest);
    FirstTwoTurns(keys, targets, r, h);
    TurnsLater(keys, targets, [h, r], rest, r);
    TurnsLater(keys, targets, [r, h], rest, r);
    OrdersDiffer(keys, targets, [h, r] + rest, [r, h] + rest, r);
  }

  lemma {:induction false} OrdersDiffer(keys: map<ReleaseId, Key>, targets: map<ReleaseId, Album>,
                                        p: seq<ReleaseId>, q: seq<ReleaseId>, r: ReleaseId)
    requires IsOrder(targets, p) && IsOrder(targets, q)
    requires r in Turns(keys, targets, p) && r in Turns(keys, targets, q)
    requires Turns(keys, targets, p)[r] != Turns(keys, targets, q)[r]
    ensures !OrderFree(keys, targets)
  {
  }

  lemma {:induction false} TwoTurns(keys: map<ReleaseId, Key>, targets: map<ReleaseId, Album>, a: ReleaseId,
                                    b: ReleaseId)
    ensures Turns(keys, targets, [a, b]) == Turn(Turn(keys, targets, a), targets, b)
  {
    assert [a, b][..1] == [a];
    assert [a][..0] == [];
    assert Turns(keys, targets, [a]) == Turn(Turns(keys, targets, []), targets, a);
  }

  /** The outcome is the same in every order exactly when no release hands its key over. */
  lemma {:induction false} OrderFreeIff(keys: map<ReleaseId, Key>, targets: map<ReleaseId, Album>)
    requires UniqueKeys(keys) && Injective(targets)
    ensures OrderFree(keys, targets) <==> forall r, h :: !HandsOver(keys, targets, r, h)
  {
    if r, h :| HandsOver(keys, targets, r, h) {
      HandOverMatters(keys, targets, r, h);
    } else {
      forall p, q | IsOrder(targets, p) && IsOrder(targets, q)
          ensures Turns(keys, targets, p) == Turns(keys, targets, q) {
        TurnsDomain(keys, targets, p);
        TurnsDomain(keys, targets, q);
        forall r | r in keys ensures Turns(keys, targets, p)[r] == Turns(keys, targets, q)[r] {
          TurnsSettled(keys, targets, p, r);
          TurnsSettled(keys, targets, q, r);
        }
      }
    }
  }

  /** The releases in the order in which the catalog first shows them. */
  ghost function FirstSeen(sightings: seq<Sighting>): seq<ReleaseId> {
    if sightings == [] then []
    else
      var front, r := FirstSeen(sightings[..|sightings| - 1]), sightings[|sightings| - 1].release;
      if r in front then front else front + [r]
  }

  /** One release is shown before the other is shown at all. */
  ghost predicate ShownBefore(sightings: seq<Sighting>, r: ReleaseId, q: ReleaseId) {
    exists k :: 0 <= k < |sightings| && sightings[k].release == r && NotYet(sightings, k, q)
  }

  ghost predicate NotYet(sightings: seq<Sighting>, k: nat, q: ReleaseId)
    requires k < |sightings|
  {
    forall l :: 0 <= l <= k ==> sightings[l].release != q
  }

  lemma {:induction false} ShownBeforeMore(front: seq<Sighting>, last: Sighting, r: ReleaseId, q: ReleaseId)
    requires ShownBefore(front, r, q)
    ensures ShownBefore(front + [last], r, q)
  {
    var k :| 0 <= k < |front| && front[k].release == r && NotYet(front, k, q);
    assert (front + [last])[k].release == r && NotYet(front + [last], k, q);
  }

  lemma {:induction false} ShownFirst(front: seq<Sighting>, last: Sighting, r: ReleaseId)
    requires exists s :: s in front && s.release == r
    requires forall s :: s in front ==> s.release != last.release
    ensures ShownBefore(front + [last], r, last.release)
  {
    var k :| 0 <= k < |front| && front[k].release == r;
    assert forall l :: 0 <= l <= k ==> front[l] in front;
    assert (front + [last])[k].release == r && NotYet(front + [last], k, last.release);
  }

  /** Every release is there once, and before the releases first seen after it. */
  lemma {:induction false} FirstSeenOrders(sightings: seq<Sighting>)
    ensures forall r :: r in FirstSeen(sightings) <==> exists s :: s in sightings && s.release == r
    ensures forall i, j :: 0 <= i < j < |FirstSeen(sightings)| ==>
            && FirstSeen(sightings)[i] != FirstSeen(sightings)[j]
            && ShownBefore(sightings, FirstSeen(sightings)[i], FirstSeen(sightings)[j])
  {
    if sightings != [] {
      hide ShownBefore;
      var front, last := sightings[..|sightings| - 1], sightings[|sightings| - 1];
      FirstSeenOrders(front);
      assert sightings == front + [last];
      var all := FirstSeen(sightings);
      forall i, j | 0 <= i < j < |all| ensures all[i] != all[j] && ShownBefore(sightings, all[i], all[j]) {
        assert all[i] in FirstSeen(front);
        if j < |FirstSeen(front)| {
          ShownBeforeMore(front, last, all[i], all[j]);
        } else {
          ShownFirst(front, last, all[i]);
        }
      }
    }
  }

  /**
   Catalogs in which the order decides: release 1 moves to the album that release
   2 leaves, and keeps its identity only if release 2 is seen first.
   */
  lemma {:induction false} OrderDecides(a: Album, b: Album, c: Album)
    requires a != b && b != c && a != c
    ensures var keys, targets := map[1 := Provider(a), 2 := Provider(b)], map[1 := b, 2 := c];
            var one, two := Sighting(1, b), Sighting(2, c);
            && UniqueKeys(keys) && HandsOver(keys, targets, 1, 2)
            && AreTargets([one, two], targets) && AreTargets([two, one], targets)
            && Turns(keys, targets, FirstSeen([one, two])) == map[1 := Provider(a), 2 := Provider(c)]
            && Turns(keys, targets, FirstSeen([two, one])) == map[1 := Provider(b), 2 := Provider(c)]
  {
    var one, two := Sighting(1, b), Sighting(2, c);
    TargetsOfTwo(one, two);
    TargetsOfTwo(two, one);
    assert map[1 := b, 2 := c] == map[2 := c, 1 := b];
    TwoSeen(one, two);
    TwoSeen(two, one);
    hide AreTargets, FirstSeen, Turns;
    TakeTurns(a, b, c);
  }

  lemma {:induction false} TakeTurns(a: Album, b: Album, c: Album)
    requires a != b && b != c && a != c
    ensures var keys, targets := map[1 := Provider(a), 2 := Provider(b)], map[1 := b, 2 := c];
            && Turns(keys, targets, [1, 2]) == map[1 := Provider(a), 2 := Provider(c)]
            && Turns(keys, targets, [2, 1]) == map[1 := Provider(b), 2 := Provider(c)]
  {
    var keys: map<ReleaseId, Key>, targets: map<ReleaseId, Album> :=
        map[1 := Provider(a), 2 := Provider(b)], map[1 := b, 2 := c];
    TwoTurns(keys, targets, 1, 2);
    TwoTurns(keys, targets, 2, 1);
    hide Turns;
    assert keys[2] == Provider(b) && !Free(keys, b) && Free(keys, c);
    var moved := keys[2 := Provider(c)];
    assert moved[1] == Provider(a) && moved[2] == Provider(c) && Free(moved, b);
  }

  lemma {:induction false} TargetsOfTwo(s: Sighting, t: Sighting)
    requires s.release != t.release && s.album != t.album
    ensures AreTargets([s, t], map[s.release := s.album, t.release := t.album])
  {
    assert s in [s, t] && t in [s, t];
  }

  lemma {:induction false} TwoSeen(s: Sighting, t: Sighting)
    requires s.release != t.release
    ensures FirstSeen([s, t]) == [s.release, t.release]
  {
    assert [s, t][..1] == [s] && [s][..0] == [];
    assert FirstSeen([s]) == [s.release];
  }

  // ------------------------------------------------------------ what is looked at

  /** The releases of the tracks, a track without one aside. */
  type Memberships = map<CatalogTables.TrackId, ReleaseId>

  /** A song counts if it names an album and the snapshot maps it to a track with a release. */
  function SightingOf(song: CatalogTables.Song, all: CatalogSync.Known, members: Memberships): seq<Sighting> {
    if song.id in all && song.raw.albumId != "" && all[song.id].track in members
    then [Sighting(members[all[song.id].track], Album(song.raw.albumId))]
    else []
  }

  function SightingsOf(songs: seq<CatalogTables.Song>, all: CatalogSync.Known, members: Memberships): seq<Sighting> {
    if songs == [] then []
    else SightingsOf(songs[..|songs| - 1], all, members) + SightingOf(songs[|songs| - 1], all, members)
  }

  /** The sightings are exactly those of the songs that count: with an album, known, and on a track with a release. */
  lemma {:induction false} SightingsAre(songs: seq<CatalogTables.Song>, all: CatalogSync.Known, members: Memberships,
                                        s: Sighting)
    ensures s in SightingsOf(songs, all, members) <==>
            exists i :: 0 <= i < |songs| && songs[i].id in all && all[songs[i].id].track in members
              && s.release == members[all[songs[i].id].track]
              && songs[i].raw.albumId != "" && s.album == Album(songs[i].raw.albumId)
  {
    if songs != [] {
      var n := |songs| - 1;
      SightingsAre(songs[..n], all, members, s);
      assert forall i :: 0 <= i < n ==> songs[..n][i] == songs[i];
    }
  }

  /** The songs are looked at in the order of the catalog. */
  lemma {:induction false} SightingsInOrder(songs: seq<CatalogTables.Song>, all: CatalogSync.Known,
                                            members: Memberships, n: nat)
    requires n <= |songs|
    ensures SightingsOf(songs[..n], all, members) <= SightingsOf(songs, all, members)
    decreases |songs|
  {
    if n < |songs| {
      var m := |songs| - 1;
      assert songs[..m][..n] == songs[..n];
      SightingsInOrder(songs[..m], all, members, n);
      hide SightingOf;
    } else {
      assert songs[..n] == songs;
    }
  }

  /**
   A relinked song still carries the release of its track: the relinking extended the
   snapshot, so the song is seen with that release and its album of today.
   */
  lemma {:induction false} RelinkedIsSeen(songs: seq<CatalogTables.Song>, known: CatalogSync.Known,
                                          pairs: CatalogSync.Pairs, all: CatalogSync.Known, members: Memberships,
                                          o: CatalogTables.ExternalId, i: nat)
    requires pairs.Keys <= known.Keys && CatalogSync.IsExtension(known, pairs, all) && o in pairs
    requires i < |songs| && songs[i].id == pairs[o] && songs[i].raw.albumId != "" && known[o].track in members
    ensures Sighting(members[known[o].track], Album(songs[i].raw.albumId)) in SightingsOf(songs, all, members)
  {
    assert songs[i].id in all && all[pairs[o]] == known[o];
    SightingsAre(songs, all, members, Sighting(members[known[o].track], Album(songs[i].raw.albumId)));
  }

  // ----------------------------------------------------------------- the code

  ghost predicate Grouped(sightings: seq<Sighting>, albums: map<ReleaseId, set<Album>>,
                          releases: map<Album, set<ReleaseId>>) {
    && (forall s :: s in sightings ==> s.release in albums && s.album in albums[s.release])
    && (forall s :: s in sightings ==> s.album in releases && s.release in releases[s.album])
    && (forall r, a :: r in albums && a in albums[r] ==> Sighting(r, a) in sightings)
    && (forall r, a :: a in releases && r in releases[a] ==> Sighting(r, a) in sightings)
    && (forall r :: r in albums ==> albums[r] != {})
  }

  lemma {:induction false} GroupsKnown(sightings: seq<Sighting>, albums: map<ReleaseId, set<Album>>,
                                       releases: map<Album, set<ReleaseId>>)
    requires Grouped(sightings, albums, releases)
    ensures forall r, a :: r in albums && a in albums[r] ==> a in releases
  {
  }

  lemma {:induction false} NothingGrouped()
    ensures Grouped([], map[], map[])
  {
  }

  /** One more sighting. */
  lemma {:induction false} GroupedMore(sightings: seq<Sighting>, s: Sighting, albums: map<ReleaseId, set<Album>>,
                                       releases: map<Album, set<ReleaseId>>)
    requires Grouped(sightings, albums, releases)
    ensures Grouped(sightings + [s],
                    albums[s.release := (if s.release in albums then albums[s.release] else {}) + {s.album}],
                    releases[s.album := (if s.album in releases then releases[s.album] else {}) + {s.release}])
  {
  }

  lemma {:induction false} GroupsTell(sightings: seq<Sighting>, albums: map<ReleaseId, set<Album>>,
                                      releases: map<Album, set<ReleaseId>>, r: ReleaseId, a: Album)
    requires Grouped(sightings, albums, releases)
    ensures OneToOne(sightings, r, a) <==> r in albums && albums[r] == {a} && a in releases && releases[a] == {r}
  {
    if OneToOne(sightings, r, a) {
      assert forall b :: b in albums[r] ==> Sighting(r, b) in sightings;
      assert forall s :: s in releases[a] ==> Sighting(s, a) in sightings;
      assert albums[r] == {a} && releases[a] == {r};
    } else if r in albums && albums[r] == {a} && a in releases && releases[a] == {r} {
      assert a in albums[r];
      forall s | s in sightings ensures s.release == r <==> s.album == a {
        assert s.album in albums[s.release] && s.release in releases[s.album];
      }
      assert false;
    }
  }

  ghost function Changed(before: map<ReleaseId, Key>, after: map<ReleaseId, Key>): set<ReleaseId> {
    set r | r in after && r in before && after[r] != before[r]
  }

  lemma {:induction false} NoneChanged(keys: map<ReleaseId, Key>)
    ensures Changed(keys, keys) == {}
  {
  }

  class Releases {
    var keys: map<ReleaseId, Key>

    constructor (keys: map<ReleaseId, Key>)
      ensures this.keys == keys
    {
      this.keys := keys;
    }

    /** The first loop: albums per release and releases per album; `order` is the dictionary's insertion order. */
    method Group(songs: seq<CatalogTables.Song>, all: CatalogSync.Known, members: Memberships)
      returns (order: seq<ReleaseId>, albums: map<ReleaseId, set<Album>>, releases: map<Album, set<ReleaseId>>)
      ensures Grouped(SightingsOf(songs, all, members), albums, releases)
      ensures order == FirstSeen(SightingsOf(songs, all, members)) && forall r :: r in order <==> r in albums
    {
      hide Grouped;
      order, albums, releases := [], map[], map[];
      NothingGrouped();
      for i := 0 to |songs|
        invariant Grouped(SightingsOf(songs[..i], all, members), albums, releases)
        invariant order == FirstSeen(SightingsOf(songs[..i], all, members)) && forall r :: r in order <==> r in albums
      {
        var song := songs[i];
        ghost var seen := SightingsOf(songs[..i], all, members);
        assert songs[..i + 1][..i] == songs[..i];
        if song.id !in all || song.raw.albumId == "" || all[song.id].track !in members {
          assert SightingsOf(songs[..i + 1], all, members) == seen;
          continue;
        }
        var release, album := members[all[song.id].track], Album(song.raw.albumId);
        assert SightingsOf(songs[..i + 1], all, members) == seen + [Sighting(release, album)];
        assert (seen + [Sighting(release, album)])[..|seen|] == seen;
        GroupedMore(seen, Sighting(release, album), albums, releases);
        if release !in albums {
          order := order + [release];
        }
        albums := albums[release := (if release in albums then albums[release] else {}) + {album}];
        releases := releases[album := (if album in releases then releases[album] else {}) + {release}];
      }
      assert songs[..|songs|] == songs;
    }

    /** The three statements of the second loop: read the release, look for a conflict, update. */
    method TakeOver(r: ReleaseId, a: Album) returns (moved: bool)
      modifies this
      ensures moved == (r in old(keys) && Free(old(keys), a))
      ensures keys == if moved then old(keys)[r := Provider(a)] else old(keys)
    {
      moved := r in keys && keys[r] != Provider(a) && !exists h :: h in keys && keys[h] == Provider(a);
      if moved {
        keys := keys[r := Provider(a)];
      }
    }

    method PreserveReleaseContinuity(songs: seq<CatalogTables.Song>, all: CatalogSync.Known, members: Memberships)
      returns (preserved: nat, ghost targets: map<ReleaseId, Album>)
      requires UniqueKeys(keys)
      modifies this
      ensures var sightings := SightingsOf(songs, all, members);
              && AreTargets(sightings, targets) && IsOrder(targets, FirstSeen(sightings))
              && keys == Turns(old(keys), targets, FirstSeen(sightings))
      ensures UniqueKeys(keys) && preserved == |Changed(old(keys), keys)|
    {
      hide SightingsOf, Grouped, AreTargets, FirstSeen, Changed, UniqueKeys, Free;
      var order, albums, releases := Group(songs, all, members);
      ghost var sightings := SightingsOf(songs, all, members);
      FirstSeenOrders(sightings);
      GroupsKnown(sightings, albums, releases);
      ghost var before := keys;
      targets := TargetsOf(albums, releases);
      TargetsAre(sightings, albums, releases);
      preserved := 0;
      NoneChanged(keys);
      for i := 0 to |order|
        invariant keys == Turns(before, targets, order[..i])
        invariant preserved == |Changed(before, keys)|
      {
        ghost var mid := keys;
        var moved := TakeTurn(order[i], albums, releases);
        if moved {
          preserved := preserved + 1;
        }
        OneTurn(before, targets, order, i, mid, keys, moved);
      }
      assert order[..|order|] == order;
      TurnsKeepUnique(before, targets, order);
    }

    /** The body of the second loop. */
    method TakeTurn(r: ReleaseId, albums: map<ReleaseId, set<Album>>, releases: map<Album, set<ReleaseId>>)
      returns (moved: bool)
      requires r in albums && forall a :: a in albums[r] ==> a in releases
      modifies this
      ensures moved ==
              (r in TargetsOf(albums, releases) && r in old(keys) && Free(old(keys), TargetsOf(albums, releases)[r]))
      ensures keys == if moved then old(keys)[r := Provider(TargetsOf(albums, releases)[r])] else old(keys)
    {
      TargetOrNone(albums, releases, r);
      moved := false;
      if |albums[r]| == 1 {
        var a :| a in albums[r];
        Singleton(albums[r], a);
        if releases[a] == {r} {
          assert Chosen(albums, releases, r, a);
          moved := TakeOver(r, a);
        }
      }
    }
  }

  /** The second loop lets the release through, with this album. */
  ghost predicate Chosen(albums: map<ReleaseId, set<Album>>, releases: map<Album, set<ReleaseId>>, r: ReleaseId,
                         a: Album) {
    r in albums && albums[r] == {a} && a in releases && releases[a] == {r}
  }

  ghost function TargetsOf(albums: map<ReleaseId, set<Album>>,
                           releases: map<Album, set<ReleaseId>>): (targets: map<ReleaseId, Album>)
    ensures forall r :: r in targets ==> Chosen(albums, releases, r, targets[r])
    ensures forall r, a :: Chosen(albums, releases, r, a) ==> r in targets
  {
    map r | r in albums && exists a :: Chosen(albums, releases, r, a) :: var a :| Chosen(albums, releases, r, a); a
  }

  lemma {:induction false} TargetsAre(sightings: seq<Sighting>, albums: map<ReleaseId, set<Album>>,
                                      releases: map<Album, set<ReleaseId>>)
    requires Grouped(sightings, albums, releases)
    ensures AreTargets(sightings, TargetsOf(albums, releases))
  {
    forall r: ReleaseId, a ensures OneToOne(sightings, r, a) <==> Chosen(albums, releases, r, a) {
      GroupsTell(sightings, albums, releases, r, a);
    }
  }

  /** A release whose albums are not one, or whose album is shared, has no target. */
  lemma {:induction false} TargetOrNone(albums: map<ReleaseId, set<Album>>, releases: map<Album, set<ReleaseId>>,
                                        r: ReleaseId)
    ensures r in TargetsOf(albums, releases) ==> Chosen(albums, releases, r, TargetsOf(albums, releases)[r])
    ensures forall a :: Chosen(albums, releases, r, a) ==>
            r in TargetsOf(albums, releases) && TargetsOf(albums, releases)[r] == a
  {
    forall a | Chosen(albums, releases, r, a)
        ensures r in TargetsOf(albums, releases) && TargetsOf(albums, releases)[r] == a {
      assert Chosen(albums, releases, r, TargetsOf(albums, releases)[r]);
      assert a in albums[r];
    }
  }

  /** A turn changes a key that was still the release's own, or nothing. */
  lemma {:induction false} OneTurn(before: map<ReleaseId, Key>, targets: map<ReleaseId, Album>, order: seq<ReleaseId>,
                                   i: nat, mid: map<ReleaseId, Key>, now: map<ReleaseId, Key>, moved: bool)
    requires UniqueKeys(before) && i < |order| && forall j, k :: 0 <= j < k < |order| ==> order[j] != order[k]
    requires mid == Turns(before, targets, order[..i])
    requires moved == (order[i] in targets && order[i] in mid && Free(mid, targets[order[i]]))
    requires now == if moved then mid[order[i] := Provider(targets[order[i]])] else mid
    ensures now == Turns(before, targets, order[..i + 1])
    ensures |Changed(before, now)| == |Changed(before, mid)| + if moved then 1 else 0
  {
    TurnsKeepUnique(before, targets, order[..i]);
    assert order[..i + 1][..i] == order[..i];
    if moved {
      assert order[i] !in order[..i];
      assert Changed(before, now) == Changed(before, mid) + {order[i]};
    }
  }

  lemma {:induction false} Singleton<T>(s: set<T>, x: T)
    requires |s| == 1 && x in s
    ensures s == {x}
  {
    assert |s - {x}| == 0;
  }
}
