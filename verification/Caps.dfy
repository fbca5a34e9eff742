/**
 Capacity counters shared by the greedy selections (app/mixes.py:565-656,
 app/autoplay.py:309-346, app/recommender.py:190-251). A track carries labels;
 taking it credits each of them, once per mention; a track with a label at its
 cap is blocked.
 */
module Caps {
  import opened Wrappers

  type TrackId = nat

  datatype Label = Artist(id: nat) | Release(id: nat) | Credit(name: string) | Song(artist: string, title: string)

  type Counts = map<Label, nat>

  /** The artists a track credits, in order and possibly repeated, and its release. */
  datatype Credits = Credits(artists: seq<nat>, release: Option<nat>)

  function ArtistLabels(c: Credits): seq<Label> {
    seq(|c.artists|, i requires 0 <= i < |c.artists| => Artist(c.artists[i]))
  }

  function ReleaseLabels(c: Credits): seq<Label> {
    if c.release.Some? then [Release(c.release.value)] else []
  }

  function Labels(c: Credits): seq<Label> {
    ArtistLabels(c) + ReleaseLabels(c)
  }

  /** `counts.get(label, 0)`. */
  function Count(counts: Counts, l: Label): nat {
    if l in counts then counts[l] else 0
  }

  function Credited(counts: Counts, labels: seq<Label>): Counts {
    if labels == [] then counts
    else
      var before, last := Credited(counts, labels[..|labels| - 1]), labels[|labels| - 1];
      before[last := Count(before, last) + 1]
  }

  predicate Blocked(counts: Counts, labels: seq<Label>, cap: Label -> int) {
    exists i :: 0 <= i < |labels| && Count(counts, labels[i]) >= cap(labels[i])
  }

  /** How many of the tracks carry the label. */
  ghost function Uses(tracks: seq<seq<Label>>, l: Label): nat {
    if tracks == [] then 0 else Uses(tracks[..|tracks| - 1], l) + if l in tracks[|tracks| - 1] then 1 else 0
  }

  /** The counters after taking these tracks. */
  function CreditedEach(counts: Counts, tracks: seq<seq<Label>>): Counts {
    if tracks == [] then counts else Credited(CreditedEach(counts, tracks[..|tracks| - 1]), tracks[|tracks| - 1])
  }

  lemma {:induction false} CreditedCount(counts: Counts, labels: seq<Label>, l: Label)
    ensures Count(Credited(counts, labels), l) >= Count(counts, l) + if l in labels then 1 else 0
    ensures l !in labels ==> Count(Credited(counts, labels), l) == Count(counts, l)
  {
    if labels != [] {
      var front, last := labels[..|labels| - 1], labels[|labels| - 1];
      assert labels == front + [last];
      CreditedCount(counts, front, l);
    }
  }

  /** Counters only grow, and by at least one for every track that carries the label. */
  lemma {:induction false} CountsUses(counts: Counts, tracks: seq<seq<Label>>, l: Label)
    ensures Count(CreditedEach(counts, tracks), l) >= Count(counts, l) + Uses(tracks, l)
  {
    if tracks != [] {
      CountsUses(counts, tracks[..|tracks| - 1], l);
      CreditedCount(CreditedEach(counts, tracks[..|tracks| - 1]), tracks[|tracks| - 1], l);
    }
  }

  lemma {:induction false} CreditedEachJoin(counts: Counts, a: seq<seq<Label>>, b: seq<seq<Label>>)
    ensures CreditedEach(CreditedEach(counts, a), b) == CreditedEach(counts, a + b)
  {
    if b == [] {
      assert a + b == a;
    } else {
      CreditedEachJoin(counts, a, b[..|b| - 1]);
      assert (a + b)[..|a + b| - 1] == a + b[..|b| - 1];
    }
  }

  /** What is blocked stays blocked as more tracks are taken. */
  lemma {:induction false} BlockedStays(counts: Counts, tracks: seq<seq<Label>>, labels: seq<Label>, cap: Label -> int)
    requires Blocked(counts, labels, cap)
    ensures Blocked(CreditedEach(counts, tracks), labels, cap)
  {
    var i :| 0 <= i < |labels| && Count(counts, labels[i]) >= cap(labels[i]);
    CountsUses(counts, tracks, labels[i]);
  }

  /** Each track was free of capped labels when it was taken. */
  ghost predicate Admitted(base: Counts, tracks: seq<seq<Label>>, cap: Label -> int) {
    forall k :: 0 <= k < |tracks| ==> !Blocked(CreditedEach(base, tracks[..k]), tracks[k], cap)
  }

  lemma {:induction false} AdmitOne(base: Counts, tracks: seq<seq<Label>>, labels: seq<Label>, cap: Label -> int)
    requires Admitted(base, tracks, cap) && !Blocked(CreditedEach(base, tracks), labels, cap)
    ensures Admitted(base, tracks + [labels], cap)
  {
    var all := tracks + [labels];
    forall k | 0 <= k < |all| ensures !Blocked(CreditedEach(base, all[..k]), all[k], cap) {
      assert all[..k] == tracks[..k];
      if k == |tracks| {
        assert tracks[..k] == tracks;
      }
    }
  }

  lemma {:induction false} AdmittedPrefix(base: Counts, tracks: seq<seq<Label>>, cap: Label -> int)
    requires Admitted(base, tracks, cap) && tracks != []
    ensures Admitted(base, tracks[..|tracks| - 1], cap)
    ensures !Blocked(CreditedEach(base, tracks[..|tracks| - 1]), tracks[|tracks| - 1], cap)
  {
    hide Blocked, CreditedEach;
    var front := tracks[..|tracks| - 1];
    forall k | 0 <= k < |front| ensures !Blocked(CreditedEach(base, front[..k]), front[k], cap) {
      assert front[..k] == tracks[..k] && front[k] == tracks[k];
    }
  }

  /** A label that was taken at all stays within its cap, together with what it was credited before. */
  lemma {:induction false} WithinCap(base: Counts, tracks: seq<seq<Label>>, cap: Label -> int, l: Label)
    requires Admitted(base, tracks, cap)
    ensures Uses(tracks, l) > 0 ==> Count(base, l) + Uses(tracks, l) <= cap(l)
  {
    if tracks != [] {
      var n := |tracks| - 1;
      AdmittedPrefix(base, tracks, cap);
      WithinCap(base, tracks[..n], cap, l);
      hide Admitted;
      if l in tracks[n] {
        CountsUses(base, tracks[..n], l);
        var i :| 0 <= i < |tracks[n]| && tracks[n][i] == l;
        assert Count(CreditedEach(base, tracks[..n]), tracks[n][i]) < cap(tracks[n][i]);
      }
    }
  }

  /** A track is blocked when its artists or its release are. */
  lemma {:induction false} BlockedParts(counts: Counts, c: Credits, cap: Label -> int)
    ensures Blocked(counts, Labels(c), cap) <==>
            Blocked(counts, ArtistLabels(c), cap) || Blocked(counts, ReleaseLabels(c), cap)
  {
    var a, r := ArtistLabels(c), ReleaseLabels(c);
    if Blocked(counts, a, cap) {
      var i :| 0 <= i < |a| && Count(counts, a[i]) >= cap(a[i]);
      assert Labels(c)[i] == a[i];
    }
    if Blocked(counts, r, cap) {
      var i :| 0 <= i < |r| && Count(counts, r[i]) >= cap(r[i]);
      assert Labels(c)[|a| + i] == r[i];
    }
    if Blocked(counts, Labels(c), cap) {
      var i :| 0 <= i < |Labels(c)| && Count(counts, Labels(c)[i]) >= cap(Labels(c)[i]);
      assert Labels(c)[i] == if i < |a| then a[i] else r[i - |a|];
    }
  }

  // --------------------------------------------------- artists and releases

  /** How often these tracks credit the artist. */
  ghost function Mentions(tracks: seq<Credits>, artist: nat): nat {
    if tracks == [] then 0
    else Mentions(tracks[..|tracks| - 1], artist) + multiset(tracks[|tracks| - 1].artists)[artist]
  }

  /** How many of these tracks credit the artist. */
  ghost function OfArtist(tracks: seq<Credits>, artist: nat): nat {
    if tracks == [] then 0
    else OfArtist(tracks[..|tracks| - 1], artist) + if artist in tracks[|tracks| - 1].artists then 1 else 0
  }

  /** How many of these tracks are on the release. */
  ghost function OfRelease(tracks: seq<Credits>, release: nat): nat {
    if tracks == [] then 0
    else OfRelease(tracks[..|tracks| - 1], release) + if tracks[|tracks| - 1].release == Some(release) then 1 else 0
  }

  /** An artist of the track has been credited often enough. */
  ghost predicate ArtistAtCap(tracks: seq<Credits>, c: Credits, perArtist: int) {
    exists a :: a in c.artists && Mentions(tracks, a) >= perArtist
  }

  /** Its release has enough tracks. */
  ghost predicate ReleaseAtCap(tracks: seq<Credits>, c: Credits, perRelease: int) {
    c.release.Some? && OfRelease(tracks, c.release.value) >= perRelease
  }

  ghost predicate AtCap(tracks: seq<Credits>, c: Credits, perArtist: int, perRelease: int) {
    ArtistAtCap(tracks, c, perArtist) || ReleaseAtCap(tracks, c, perRelease)
  }

  /** The number of tracks of any artist and any release is zero or within its cap. */
  ghost predicate CapsKept(tracks: seq<Credits>, perArtist: int, perRelease: int) {
    && (forall a :: OfArtist(tracks, a) == 0 || OfArtist(tracks, a) <= perArtist)
    && (forall r :: OfRelease(tracks, r) == 0 || OfRelease(tracks, r) <= perRelease)
  }

  /** The cap of each label. */
  function Limit(perArtist: int, perRelease: int): Label -> int {
    (l: Label) => if l.Release? then perRelease else perArtist
  }

  function LabelLists(tracks: seq<Credits>): seq<seq<Label>> {
    seq(|tracks|, i requires 0 <= i < |tracks| => Labels(tracks[i]))
  }

  lemma {:induction false} ArtistsLabelled(c: Credits, a: nat)
    ensures multiset(ArtistLabels(c))[Artist(a)] == multiset(c.artists)[a]
    decreases |c.artists|
  {
    if c.artists != [] {
      var n := |c.artists| - 1;
      var front := c.(artists := c.artists[..n]);
      ArtistsLabelled(front, a);
      assert c.artists == front.artists + [c.artists[n]];
      assert ArtistLabels(c) == ArtistLabels(front) + [Artist(c.artists[n])];
    }
  }

  /** The labels of a track are its artists, as often as it credits them, and its release. */
  lemma {:induction false} LabelsTell(c: Credits, a: nat, r: nat)
    ensures multiset(Labels(c))[Artist(a)] == multiset(c.artists)[a]
    ensures multiset(Labels(c))[Release(r)] == if c.release == Some(r) then 1 else 0
  {
    ArtistsLabelled(c, a);
    assert multiset(Labels(c)) == multiset(ArtistLabels(c)) + multiset(ReleaseLabels(c));
    assert Release(r) !in multiset(ArtistLabels(c));
  }

  lemma {:induction false} CreditedTells(counts: Counts, labels: seq<Label>, l: Label)
    ensures Count(Credited(counts, labels), l) == Count(counts, l) + multiset(labels)[l]
  {
    if labels != [] {
      CreditedTells(counts, labels[..|labels| - 1], l);
      assert labels == labels[..|labels| - 1] + [labels[|labels| - 1]];
    }
  }

  lemma {:induction false} ListsStep(tracks: seq<Credits>)
    requires tracks != []
    ensures LabelLists(tracks)[..|tracks| - 1] == LabelLists(tracks[..|tracks| - 1])
    ensures LabelLists(tracks)[|tracks| - 1] == Labels(tracks[|tracks| - 1])
  {
    hide Labels;
  }

  /** The counters after taking tracks count the mentions of artists and the tracks of releases. */
  lemma {:induction false} CountsTell(tracks: seq<Credits>, a: nat, r: nat)
    ensures Count(CreditedEach(map[], LabelLists(tracks)), Artist(a)) == Mentions(tracks, a)
    ensures Count(CreditedEach(map[], LabelLists(tracks)), Release(r)) == OfRelease(tracks, r)
  {
    if tracks != [] {
      hide LabelLists, Labels, Credited;
      var front, c := tracks[..|tracks| - 1], tracks[|tracks| - 1];
      CountsTell(front, a, r);
      ListsStep(tracks);
      LabelsTell(c, a, r);
      CreditedTells(CreditedEach(map[], LabelLists(front)), Labels(c), Artist(a));
      CreditedTells(CreditedEach(map[], LabelLists(front)), Labels(c), Release(r));
    }
  }

  lemma {:induction false} UsesTell(tracks: seq<Credits>, a: nat, r: nat)
    ensures Uses(LabelLists(tracks), Artist(a)) == OfArtist(tracks, a)
    ensures Uses(LabelLists(tracks), Release(r)) == OfRelease(tracks, r)
  {
    if tracks != [] {
      hide LabelLists, Labels;
      var c := tracks[|tracks| - 1];
      UsesTell(tracks[..|tracks| - 1], a, r);
      ListsStep(tracks);
      LabelsTell(c, a, r);
      assert Artist(a) in Labels(c) <==> Artist(a) in multiset(Labels(c));
      assert Release(r) in Labels(c) <==> Release(r) in multiset(Labels(c));
      assert a in c.artists <==> a in multiset(c.artists);
    }
  }

  lemma {:induction false} ArtistsBlocked(tracks: seq<Credits>, c: Credits, perArtist: int, perRelease: int)
    ensures Blocked(CreditedEach(map[], LabelLists(tracks)), ArtistLabels(c), Limit(perArtist, perRelease)) <==>
            ArtistAtCap(tracks, c, perArtist)
  {
    hide Mentions, OfRelease, LabelLists, CreditedEach, Count;
    var counts, cap := CreditedEach(map[], LabelLists(tracks)), Limit(perArtist, perRelease);
    forall a ensures Count(counts, Artist(a)) == Mentions(tracks, a) {
      CountsTell(tracks, a, 0);
    }
    if Blocked(counts, ArtistLabels(c), cap) {
      var i :| 0 <= i < |ArtistLabels(c)| && Count(counts, ArtistLabels(c)[i]) >= cap(ArtistLabels(c)[i]);
      assert c.artists[i] in c.artists;
    }
    if a :| a in c.artists && Mentions(tracks, a) >= perArtist {
      var i :| 0 <= i < |c.artists| && c.artists[i] == a;
      assert ArtistLabels(c)[i] == Artist(a);
    }
  }

  lemma {:induction false} ReleaseBlocked(tracks: seq<Credits>, c: Credits, perArtist: int, perRelease: int)
    ensures Blocked(CreditedEach(map[], LabelLists(tracks)), ReleaseLabels(c), Limit(perArtist, perRelease)) <==>
            ReleaseAtCap(tracks, c, perRelease)
  {
    if c.release.Some? {
      CountsTell(tracks, 0, c.release.value);
      assert ReleaseLabels(c)[0] == Release(c.release.value);
    }
  }

  /** Being blocked means just that: an artist or the release of the track is at its cap. */
  lemma {:induction false} BlockedIff(tracks: seq<Credits>, c: Credits, perArtist: int, perRelease: int)
    ensures Blocked(CreditedEach(map[], LabelLists(tracks)), Labels(c), Limit(perArtist, perRelease)) <==>
            AtCap(tracks, c, perArtist, perRelease)
  {
    hide Blocked, LabelLists, Limit, ArtistAtCap, ReleaseAtCap;
    BlockedParts(CreditedEach(map[], LabelLists(tracks)), c, Limit(perArtist, perRelease));
    ArtistsBlocked(tracks, c, perArtist, perRelease);
    ReleaseBlocked(tracks, c, perArtist, perRelease);
  }

  /** Tracks that were each below every cap when they were taken keep every cap. */
  lemma {:induction false} AdmittedKeepCaps(tracks: seq<Credits>, perArtist: int, perRelease: int)
    requires Admitted(map[], LabelLists(tracks), Limit(perArtist, perRelease))
    ensures CapsKept(tracks, perArtist, perRelease)
  {
    hide Uses, OfArtist, OfRelease, Admitted, LabelLists;
    var cap := Limit(perArtist, perRelease);
    forall a ensures OfArtist(tracks, a) == 0 || OfArtist(tracks, a) <= perArtist {
      UsesTell(tracks, a, 0);
      WithinCap(map[], LabelLists(tracks), cap, Artist(a));
    }
    forall r ensures OfRelease(tracks, r) == 0 || OfRelease(tracks, r) <= perRelease {
      UsesTell(tracks, 0, r);
      WithinCap(map[], LabelLists(tracks), cap, Release(r));
    }
  }

  lemma {:induction false} CreditedOnce(counts: Counts, labels: seq<Label>)
    ensures CreditedEach(counts, [labels]) == Credited(counts, labels)
  {
    assert [labels][..0] == [];
    assert CreditedEach(counts, [labels][..0]) == counts;
  }

  /** `a` lists some elements of `b` in the order of `b`. */
  ghost predicate Within<T>(a: seq<T>, b: seq<T>) {
    if a == [] then true
    else if b == [] then false
    else (a[|a| - 1] == b[|b| - 1] && Within(a[..|a| - 1], b[..|b| - 1])) || Within(a, b[..|b| - 1])
  }

  lemma {:induction false} WithinGrows<T>(a: seq<T>, b: seq<T>, x: T)
    requires Within(a, b)
    ensures Within(a, b + [x]) && Within(a + [x], b + [x])
  {
    assert (a + [x])[..|a|] == a && (b + [x])[..|b|] == b;
  }

  lemma {:induction false} WithinThrough<T>(a: seq<T>, b: seq<T>, c: seq<T>)
    requires Within(a, b) && Within(b, c)
    ensures Within(a, c)
    decreases |b| + |c|
  {
    if a != [] {
      var a', b', c' := a[..|a| - 1], b[..|b| - 1], c[..|c| - 1];
      if b[|b| - 1] == c[|c| - 1] && Within(b', c') {
        if a[|a| - 1] == b[|b| - 1] && Within(a', b') {
          WithinThrough(a', b', c');
        } else {
          WithinThrough(a, b', c');
        }
      } else {
        WithinThrough(a, b, c');
      }
    }
  }
}
