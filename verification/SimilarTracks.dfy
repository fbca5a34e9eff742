/**
 The filter over index neighbours in `similar_vector`
 (app/recommender.py:172-251): nearest first, at most one track per song and
 only so many per artist.
 */
module SimilarTracks {
  import opened Wrappers
  import opened Caps

  /** What the tests before the caps say of a neighbour, in the order they are made. */
  datatype Verdict = Excluded | Missing | Short | SameTrack | SameAlbum | Fits

  /** A neighbour: its verdict, its song key if it has one, and its credited artists, each once. */
  datatype Neighbour = Neighbour(id: TrackId, verdict: Verdict, song: Option<(string, string)>, artists: seq<string>)

  function SongLabels(n: Neighbour): seq<Label> {
    if n.song.Some? then [Song(n.song.value.0, n.song.value.1)] else []
  }

  function CreditLabels(n: Neighbour): seq<Label> {
    seq(|n.artists|, i requires 0 <= i < |n.artists| => Credit(n.artists[i]))
  }

  function AllLabels(n: Neighbour): seq<Label> {
    SongLabels(n) + CreditLabels(n)
  }

  function LabelsOf(ns: seq<Neighbour>): seq<seq<Label>> {
    seq(|ns|, i requires 0 <= i < |ns| => AllLabels(ns[i]))
  }

  /** One song once, and every artist up to the cap. */
  function Cap(maxPerArtist: int): Label -> int {
    (l: Label) => if l.Song? then 1 else maxPerArtist
  }

  /** The results so far, the counters, and the skips by reason. */
  datatype Filter = Filter(results: seq<Neighbour>, counts: Counts, skipped: map<Verdict, nat>, repeated: nat,
      capped: nat)

  function Empty(): Filter { Filter([], map[], map[], 0, 0) }

  function SkippedOf(f: Filter, v: Verdict): nat {
    if v in f.skipped then f.skipped[v] else 0
  }

  /** One neighbour, unless the results are full; even `k` below one lets the first result in. */
  function Step(k: int, cap: Label -> int, f: Filter, n: Neighbour): Filter {
    if f.results != [] && |f.results| >= k then f
    else if n.verdict != Fits then f.(skipped := f.skipped[n.verdict := SkippedOf(f, n.verdict) + 1])
    else if Blocked(f.counts, SongLabels(n), cap) then f.(repeated := f.repeated + 1)
    else if Blocked(f.counts, CreditLabels(n), cap) then f.(capped := f.capped + 1)
    else Added(f, n)
  }

  function Steps(k: int, cap: Label -> int, ns: seq<Neighbour>): Filter {
    if ns == [] then Empty() else Step(k, cap, Steps(k, cap, ns[..|ns| - 1]), ns[|ns| - 1])
  }

  lemma {:induction false} PartsBlocked(counts: Counts, n: Neighbour, cap: Label -> int)
    ensures Blocked(counts, AllLabels(n), cap) <==>
            Blocked(counts, SongLabels(n), cap) || Blocked(counts, CreditLabels(n), cap)
  {
    var s, c := SongLabels(n), CreditLabels(n);
    if Blocked(counts, s, cap) {
      var i :| 0 <= i < |s| && Count(counts, s[i]) >= cap(s[i]);
      assert AllLabels(n)[i] == s[i];
    }
    if Blocked(counts, c, cap) {
      var i :| 0 <= i < |c| && Count(counts, c[i]) >= cap(c[i]);
      assert AllLabels(n)[|s| + i] == c[i];
    }
    if Blocked(counts, AllLabels(n), cap) {
      var i :| 0 <= i < |AllLabels(n)| && Count(counts, AllLabels(n)[i]) >= cap(AllLabels(n)[i]);
      assert AllLabels(n)[i] == if i < |s| then s[i] else c[i - |s|];
    }
  }

  /** The counters belong to the results, each of which was below every cap when it came in. */
  ghost predicate Sound(cap: Label -> int, f: Filter) {
    f.counts == CreditedEach(map[], LabelsOf(f.results)) && Admitted(map[], LabelsOf(f.results), cap)
  }

  function Added(f: Filter, n: Neighbour): Filter {
    f.(results := f.results + [n], counts := Credited(f.counts, AllLabels(n)))
  }

  lemma {:induction false} AddedSound(cap: Label -> int, f: Filter, n: Neighbour)
    requires Sound(cap, f) && !Blocked(f.counts, AllLabels(n), cap)
    ensures Sound(cap, Added(f, n))
  {
    hide Blocked, Credited, Admitted;
    var tracks := LabelsOf(f.results);
    assert LabelsOf(f.results + [n]) == tracks + [AllLabels(n)];
    hide LabelsOf;
    AdmitOne(map[], tracks, AllLabels(n), cap);
    assert (tracks + [AllLabels(n)])[..|tracks|] == tracks;
  }

  lemma {:induction false} StepSound(k: int, cap: Label -> int, f: Filter, n: Neighbour)
    requires Sound(cap, f)
    ensures Sound(cap, Step(k, cap, f, n))
  {
    hide Blocked, Admitted, LabelsOf;
    PartsBlocked(f.counts, n, cap);
    if !Blocked(f.counts, AllLabels(n), cap) {
      AddedSound(cap, f, n);
    }
  }

  lemma {:induction false} StepsSound(k: int, cap: Label -> int, ns: seq<Neighbour>)
    ensures Sound(cap, Steps(k, cap, ns))
  {
    if ns != [] {
      StepsSound(k, cap, ns[..|ns| - 1]);
      StepSound(k, cap, Steps(k, cap, ns[..|ns| - 1]), ns[|ns| - 1]);
    }
  }

  // ---------------------------------------------------------- songs and artists

  /** One of these tracks has the song of the neighbour. */
  ghost predicate Heard(ns: seq<Neighbour>, n: Neighbour) {
    n.song.Some? && HasSong(ns, n.song)
  }

  ghost predicate HasSong(ns: seq<Neighbour>, song: Option<(string, string)>) {
    exists i :: 0 <= i < |ns| && ns[i].song == song
  }

  /** How often these tracks credit the artist. */
  ghost function Mentions(ns: seq<Neighbour>, artist: string): nat {
    if ns == [] then 0 else Mentions(ns[..|ns| - 1], artist) + multiset(ns[|ns| - 1].artists)[artist]
  }

  /** How many of these tracks credit the artist. */
  ghost function OfArtist(ns: seq<Neighbour>, artist: string): nat {
    if ns == [] then 0 else OfArtist(ns[..|ns| - 1], artist) + if artist in ns[|ns| - 1].artists then 1 else 0
  }

  /** An artist of the neighbour has been credited often enough. */
  ghost predicate AtCap(ns: seq<Neighbour>, n: Neighbour, maxPerArtist: int) {
    exists a :: a in n.artists && Mentions(ns, a) >= maxPerArtist
  }

  /** No two tracks have the same song, and the number of tracks of any artist is zero or within the cap. */
  ghost predicate CapsKept(ns: seq<Neighbour>, maxPerArtist: int) {
    && (forall i, j :: 0 <= i < j < |ns| && ns[i].song.Some? ==> ns[i].song != ns[j].song)
    && (forall a :: OfArtist(ns, a) == 0 || OfArtist(ns, a) <= maxPerArtist)
  }

  lemma {:induction false} ArtistsLabelled(n: Neighbour, a: string)
    ensures multiset(CreditLabels(n))[Credit(a)] == multiset(n.artists)[a]
    decreases |n.artists|
  {
    if n.artists != [] {
      var m := |n.artists| - 1;
      var front := n.(artists := n.artists[..m]);
      ArtistsLabelled(front, a);
      assert n.artists == front.artists + [n.artists[m]];
      assert CreditLabels(n) == CreditLabels(front) + [Credit(n.artists[m])];
    }
  }

  lemma {:induction false} LabelsTell(n: Neighbour, a: string, x: string, y: string)
    ensures multiset(AllLabels(n))[Credit(a)] == multiset(n.artists)[a]
    ensures multiset(AllLabels(n))[Song(x, y)] == if n.song == Some((x, y)) then 1 else 0
  {
    ArtistsLabelled(n, a);
    assert multiset(AllLabels(n)) == multiset(SongLabels(n)) + multiset(CreditLabels(n));
    assert Song(x, y) !in multiset(CreditLabels(n));
  }

  lemma {:induction false} ListsStep(ns: seq<Neighbour>)
    requires ns != []
    ensures LabelsOf(ns)[..|ns| - 1] == LabelsOf(ns[..|ns| - 1])
    ensures LabelsOf(ns)[|ns| - 1] == AllLabels(ns[|ns| - 1])
  {
    hide AllLabels;
  }

  lemma {:induction false} CountsTell(ns: seq<Neighbour>, a: string)
    ensures Count(CreditedEach(map[], LabelsOf(ns)), Credit(a)) == Mentions(ns, a)
    ensures Uses(LabelsOf(ns), Credit(a)) == OfArtist(ns, a)
  {
    if ns != [] {
      hide LabelsOf, AllLabels, Credited;
      var front, n := ns[..|ns| - 1], ns[|ns| - 1];
      CountsTell(front, a);
      ListsStep(ns);
      LabelsTell(n, a, "", "");
      CreditedTells(CreditedEach(map[], LabelsOf(front)), AllLabels(n), Credit(a));
      assert Credit(a) in AllLabels(n) <==> Credit(a) in multiset(AllLabels(n));
      assert a in n.artists <==> a in multiset(n.artists);
    }
  }

  lemma {:induction false} HasSongStep(front: seq<Neighbour>, n: Neighbour, song: Option<(string, string)>)
    ensures HasSong(front + [n], song) <==> HasSong(front, song) || n.song == song
  {
    var all := front + [n];
    assert all[|front|] == n && forall i :: 0 <= i < |front| ==> all[i] == front[i];
  }

  lemma {:induction false} SongsTell(ns: seq<Neighbour>, x: string, y: string)
    ensures Count(CreditedEach(map[], LabelsOf(ns)), Song(x, y)) >= 1 <==> HasSong(ns, Some((x, y)))
  {
    if ns != [] {
      hide LabelsOf, AllLabels, Credited, HasSong;
      var front, n := ns[..|ns| - 1], ns[|ns| - 1];
      SongsTell(front, x, y);
      ListsStep(ns);
      LabelsTell(n, "", x, y);
      CreditedTells(CreditedEach(map[], LabelsOf(front)), AllLabels(n), Song(x, y));
      HasSongStep(front, n, Some((x, y)));
      assert ns == front + [n];
    }
  }

  lemma {:induction false} SongBlocked(ns: seq<Neighbour>, n: Neighbour, maxPerArtist: int)
    ensures Blocked(CreditedEach(map[], LabelsOf(ns)), SongLabels(n), Cap(maxPerArtist)) <==> Heard(ns, n)
  {
    if n.song.Some? {
      SongsTell(ns, n.song.value.0, n.song.value.1);
      assert SongLabels(n)[0] == Song(n.song.value.0, n.song.value.1);
    }
  }

  lemma {:induction false} ArtistsBlocked(ns: seq<Neighbour>, n: Neighbour, maxPerArtist: int)
    ensures Blocked(CreditedEach(map[], LabelsOf(ns)), CreditLabels(n), Cap(maxPerArtist)) <==>
            AtCap(ns, n, maxPerArtist)
  {
    hide LabelsOf, CreditedEach, Count, Mentions;
    var counts, cap := CreditedEach(map[], LabelsOf(ns)), Cap(maxPerArtist);
    forall a ensures Count(counts, Credit(a)) == Mentions(ns, a) {
      CountsTell(ns, a);
    }
    if Blocked(counts, CreditLabels(n), cap) {
      var i :| 0 <= i < |CreditLabels(n)| && Count(counts, CreditLabels(n)[i]) >= cap(CreditLabels(n)[i]);
      assert n.artists[i] in n.artists;
    }
    if a :| a in n.artists && Mentions(ns, a) >= maxPerArtist {
      var i :| 0 <= i < |n.artists| && n.artists[i] == a;
      assert CreditLabels(n)[i] == Credit(a);
    }
  }

  /** Being blocked means just that: the song was heard, or an artist is at the cap. */
  lemma {:induction false} BlockedIff(ns: seq<Neighbour>, n: Neighbour, maxPerArtist: int)
    ensures Blocked(CreditedEach(map[], LabelsOf(ns)), AllLabels(n), Cap(maxPerArtist)) <==>
            Heard(ns, n) || AtCap(ns, n, maxPerArtist)
  {
    hide *;
    PartsBlocked(CreditedEach(map[], LabelsOf(ns)), n, Cap(maxPerArtist));
    SongBlocked(ns, n, maxPerArtist);
    ArtistsBlocked(ns, n, maxPerArtist);
  }

  lemma {:induction false} NotHeardBefore(ns: seq<Neighbour>, maxPerArtist: int, j: nat)
    requires Admitted(map[], LabelsOf(ns), Cap(maxPerArtist)) && j < |ns|
    ensures !Heard(ns[..j], ns[j])
  {
    hide AllLabels, Blocked, Heard, AtCap;
    assert LabelsOf(ns)[..j] == LabelsOf(ns[..j]) && LabelsOf(ns)[j] == AllLabels(ns[j]);
    hide LabelsOf;
    BlockedIff(ns[..j], ns[j], maxPerArtist);
  }

  /** No song comes twice and no artist more often than the cap. */
  lemma {:induction false} ResultsWithinCaps(k: int, maxPerArtist: int, ns: seq<Neighbour>)
    ensures CapsKept(Steps(k, Cap(maxPerArtist), ns).results, maxPerArtist)
  {
    var rs := Steps(k, Cap(maxPerArtist), ns).results;
    StepsSound(k, Cap(maxPerArtist), ns);
    hide Steps, Admitted, LabelsOf, Uses, OfArtist;
    forall i, j | 0 <= i < j < |rs| && rs[i].song.Some? ensures rs[i].song != rs[j].song {
      NotHeardBefore(rs, maxPerArtist, j);
      assert rs[..j][i] == rs[i];
    }
    forall a ensures OfArtist(rs, a) == 0 || OfArtist(rs, a) <= maxPerArtist {
      CountsTell(rs, a);
      WithinCap(map[], LabelsOf(rs), Cap(maxPerArtist), Credit(a));
    }
  }

  lemma {:induction false} StepInOrder(k: int, cap: Label -> int, f: Filter, n: Neighbour, front: seq<Neighbour>)
    requires Within(f.results, front) && |f.results| <= if k < 1 then 1 else k
    ensures Within(Step(k, cap, f, n).results, front + [n]) && |Step(k, cap, f, n).results| <= if k < 1 then 1 else k
  {
    hide Blocked, Credited, Within;
    WithinGrows(f.results, front, n);
  }

  /** The results keep the order of the neighbours and never exceed `k`, or one when `k` is below one. */
  lemma {:induction false} ResultsInOrder(k: int, cap: Label -> int, ns: seq<Neighbour>)
    ensures Within(Steps(k, cap, ns).results, ns)
    ensures |Steps(k, cap, ns).results| <= if k < 1 then 1 else k
  {
    if ns != [] {
      hide Within, Step;
      var front, n := ns[..|ns| - 1], ns[|ns| - 1];
      ResultsInOrder(k, cap, front);
      StepInOrder(k, cap, Steps(k, cap, front), n, front);
      assert front + [n] == ns;
    }
  }

  // ------------------------------------------------------------ `k` below one

  /** The neighbour fails a test, or no artist of it may be credited at all. */
  ghost predicate Unfit(maxPerArtist: int, n: Neighbour) {
    n.verdict != Fits || (maxPerArtist <= 0 && n.artists != [])
  }

  /** No neighbour can be the first result. */
  ghost predicate NoneFits(maxPerArtist: int, ns: seq<Neighbour>) {
    forall i :: 0 <= i < |ns| ==> Unfit(maxPerArtist, ns[i])
  }

  lemma {:induction false} FirstBlocked(maxPerArtist: int, n: Neighbour)
    ensures !Blocked(map[], SongLabels(n), Cap(maxPerArtist))
    ensures Blocked(map[], CreditLabels(n), Cap(maxPerArtist)) <==> maxPerArtist <= 0 && n.artists != []
  {
    if maxPerArtist <= 0 && n.artists != [] {
      assert CreditLabels(n)[0] == Credit(n.artists[0]);
    }
  }

  lemma {:induction false} StepFromEmpty(k: int, maxPerArtist: int, f: Filter, n: Neighbour)
    requires f.results == [] ==> f.counts == map[]
    ensures var g := Step(k, Cap(maxPerArtist), f, n);
            && (g.results == [] <==> f.results == [] && Unfit(maxPerArtist, n))
            && (g.results == [] ==> g.counts == map[])
  {
    hide Blocked, SongLabels, CreditLabels, Cap, Credited;
    FirstBlocked(maxPerArtist, n);
  }

  /** Whatever `k`, the filter stays empty exactly while no neighbour can be the first result. */
  lemma {:induction false} EmptyIff(k: int, maxPerArtist: int, ns: seq<Neighbour>)
    ensures var f := Steps(k, Cap(maxPerArtist), ns);
            && (f.results == [] <==> NoneFits(maxPerArtist, ns))
            && (f.results == [] ==> f.counts == map[])
  {
    if ns != [] {
      hide Step, Cap, Unfit;
      var front, n := ns[..|ns| - 1], ns[|ns| - 1];
      EmptyIff(k, maxPerArtist, front);
      StepFromEmpty(k, maxPerArtist, Steps(k, Cap(maxPerArtist), front), n);
      assert forall i :: 0 <= i < |front| ==> front[i] == ns[i];
    }
  }

  /**
   At most `k` results, and none for `k` below one, exactly when `k` is positive or no
   neighbour can be the first result.
   */
  lemma {:induction false} BoundKeptIff(k: int, maxPerArtist: int, ns: seq<Neighbour>)
    ensures |Steps(k, Cap(maxPerArtist), ns).results| <= (if k < 1 then 0 else k) <==>
            k >= 1 || NoneFits(maxPerArtist, ns)
  {
    hide Steps, NoneFits;
    ResultsInOrder(k, Cap(maxPerArtist), ns);
    EmptyIff(k, maxPerArtist, ns);
  }

  const MAX_CANDIDATES := 500

  function Min(a: int, b: int): int { if b < a then b else a }

  function Max(a: int, b: int): int { if a < b then b else a }

  /** How many neighbours the index is asked for; below one the search ends without results. */
  function RawK(k: int, multiplier: int, excluded: nat, indexed: nat): int {
    Min(Min(Max(k * multiplier, k + excluded), indexed), Max(k, MAX_CANDIDATES))
  }

  /**
   With two excluded tracks the index is asked for two neighbours although `k` is zero,
   and the second one is returned.
   */
  lemma {:induction false} ResultForNone()
    ensures var ns := [Neighbour(1, Excluded, None, ["A"]), Neighbour(2, Fits, None, ["B"])];
            && RawK(0, 5, 2, 10) == |ns|
            && Steps(0, Cap(2), ns).results == [ns[1]]
  {
    var ns := [Neighbour(1, Excluded, None, ["A"]), Neighbour(2, Fits, None, ["B"])];
    assert Steps(0, Cap(2), []) == Empty();
    assert ns[..1] == [ns[0]] && ns[..1][..0] == [];
    var f := Steps(0, Cap(2), ns[..1]);
    assert f.results == [] && f.counts == map[];
    FirstBlocked(2, ns[1]);
  }

  ghost predicate Full(k: int, f: Filter) {
    f.results != [] && |f.results| >= k
  }

  ghost predicate Decided(cap: Label -> int, f: Filter, n: Neighbour) {
    n in f.results || n.verdict != Fits || Blocked(f.counts, AllLabels(n), cap)
  }

  lemma {:induction false} StaysDecided(k: int, cap: Label -> int, f: Filter, m: Neighbour, n: Neighbour)
    requires Decided(cap, f, n)
    ensures Decided(cap, Step(k, cap, f, m), n)
  {
    CreditedOnce(f.counts, AllLabels(m));
    if Blocked(f.counts, AllLabels(n), cap) {
      BlockedStays(f.counts, [AllLabels(m)], AllLabels(n), cap);
    }
    hide Blocked, Credited;
  }

  lemma {:induction false} StepDecides(k: int, cap: Label -> int, f: Filter, n: Neighbour)
    requires !Full(k, Step(k, cap, f, n))
    ensures !Full(k, f) && Decided(cap, Step(k, cap, f, n), n)
  {
    PartsBlocked(f.counts, n, cap);
    hide Blocked, Credited;
  }

  lemma {:induction false} AllDecided(k: int, cap: Label -> int, ns: seq<Neighbour>, n: Neighbour)
    requires n in ns && !Full(k, Steps(k, cap, ns))
    ensures Decided(cap, Steps(k, cap, ns), n)
  {
    hide Step, Blocked, LabelsOf, Admitted;
    var front, last := ns[..|ns| - 1], ns[|ns| - 1];
    var f := Steps(k, cap, front);
    StepDecides(k, cap, f, last);
    if n != last {
      assert n in front by {
        assert ns == front + [last];
      }
      AllDecided(k, cap, front, n);
      StaysDecided(k, cap, f, last, n);
    }
  }

  /** Unless cut off, every neighbour that is not a result failed a test, or its song or an artist is used up. */
  lemma {:induction false} ResultsAreMaximal(k: int, maxPerArtist: int, ns: seq<Neighbour>, n: Neighbour)
    requires n in ns && !Full(k, Steps(k, Cap(maxPerArtist), ns))
    ensures var rs := Steps(k, Cap(maxPerArtist), ns).results;
            n in rs || n.verdict != Fits || Heard(rs, n) || AtCap(rs, n, maxPerArtist)
  {
    var f := Steps(k, Cap(maxPerArtist), ns);
    StepsSound(k, Cap(maxPerArtist), ns);
    AllDecided(k, Cap(maxPerArtist), ns, n);
    hide Steps, Blocked, Admitted, LabelsOf, Heard, AtCap;
    BlockedIff(f.results, n, maxPerArtist);
  }

  // ----------------------------------------------------------- neighbour by neighbour

  /**
   At the turn of a neighbour only nearer ones are results. They fill the list, or it
   fails a test, or its song or an artist is used up among them, or it comes next.
   */
  ghost predicate Turn(k: int, maxPerArtist: int, ns: seq<Neighbour>, rs: seq<Neighbour>, i: nat, n: nat)
    requires i < |ns| && n <= |rs|
  {
    && Within(rs[..n], ns[..i])
    && (|| (n > 0 && n >= k) || ns[i].verdict != Fits || Heard(rs[..n], ns[i]) || AtCap(rs[..n], ns[i], maxPerArtist)
        || (n < |rs| && rs[n] == ns[i]))
  }

  lemma {:induction false} StepTurn(k: int, maxPerArtist: int, f: Filter, n: Neighbour)
    requires Sound(Cap(maxPerArtist), f)
    ensures var g := Step(k, Cap(maxPerArtist), f, n);
            && (g.results == f.results || g.results == f.results + [n])
            && (|| Full(k, f) || n.verdict != Fits || Heard(f.results, n) || AtCap(f.results, n, maxPerArtist)
                || g.results == f.results + [n])
  {
    BlockedIff(f.results, n, maxPerArtist);
    PartsBlocked(f.counts, n, Cap(maxPerArtist));
    hide Blocked, Credited, Admitted, Heard, AtCap;
  }

  lemma {:induction false} StepGrows(k: int, cap: Label -> int, f: Filter, n: Neighbour)
    ensures f.results <= Step(k, cap, f, n).results
  {
    hide Blocked, Credited;
  }

  lemma {:induction false} StepsGrow(k: int, cap: Label -> int, ns: seq<Neighbour>, i: nat)
    requires i <= |ns|
    ensures Steps(k, cap, ns[..i]).results <= Steps(k, cap, ns).results
    decreases |ns|
  {
    hide Step;
    if i < |ns| {
      var n := |ns| - 1;
      assert ns[..n][..i] == ns[..i];
      StepsGrow(k, cap, ns[..n], i);
      StepGrows(k, cap, Steps(k, cap, ns[..n]), ns[n]);
    } else {
      assert ns[..i] == ns;
    }
  }

  /** Nearer neighbours come first: none is passed over but for nearer ones. */
  lemma {:induction false} NearestFirst(k: int, maxPerArtist: int, ns: seq<Neighbour>, i: nat) returns (n: nat)
    requires i < |ns|
    ensures n <= |Steps(k, Cap(maxPerArtist), ns).results|
    ensures Turn(k, maxPerArtist, ns, Steps(k, Cap(maxPerArtist), ns).results, i, n)
  {
    var cap := Cap(maxPerArtist);
    var f, rs := Steps(k, cap, ns[..i]), Steps(k, cap, ns).results;
    n := |f.results|;
    StepsGrow(k, cap, ns, i);
    StepsGrow(k, cap, ns, i + 1);
    StepsSound(k, cap, ns[..i]);
    ResultsInOrder(k, cap, ns[..i]);
    assert ns[..i + 1][..i] == ns[..i];
    assert Steps(k, cap, ns[..i + 1]) == Step(k, cap, f, ns[i]);
    StepTurn(k, maxPerArtist, f, ns[i]);
    hide Steps, Step, Sound, Within, Heard, AtCap;
    assert rs[..n] == f.results;
  }

  // ---------------------------------------------------------------- the reasons

  datatype Reason = Cut | Failed(verdict: Verdict) | Repeated | Capped | Chosen

  /** What the filter finds of a neighbour after the results before it. */
  ghost function ReasonOf(k: int, maxPerArtist: int, rs: seq<Neighbour>, n: Neighbour): Reason {
    if rs != [] && |rs| >= k then Cut
    else if n.verdict != Fits then Failed(n.verdict)
    else if Heard(rs, n) then Repeated
    else if AtCap(rs, n, maxPerArtist) then Capped
    else Chosen
  }

  /** Of how many neighbours the filter finds this. */
  ghost function Found(k: int, maxPerArtist: int, ns: seq<Neighbour>, r: Reason): nat {
    if ns == [] then 0
    else
      var front, n := ns[..|ns| - 1], ns[|ns| - 1];
      Found(k, maxPerArtist, front, r)
      + if ReasonOf(k, maxPerArtist, Steps(k, Cap(maxPerArtist), front).results, n) == r then 1 else 0
  }

  ghost function Counter(f: Filter, r: Reason): nat {
    match r
    case Failed(v) => SkippedOf(f, v)
    case Repeated => f.repeated
    case Capped => f.capped
    case _ => |f.results|
  }

  lemma {:induction false} StepReason(k: int, maxPerArtist: int, f: Filter, n: Neighbour, r: Reason)
    requires Sound(Cap(maxPerArtist), f) && !r.Cut?
    ensures Counter(Step(k, Cap(maxPerArtist), f, n), r) ==
            Counter(f, r) + if ReasonOf(k, maxPerArtist, f.results, n) == r then 1 else 0
  {
    SongBlocked(f.results, n, maxPerArtist);
    ArtistsBlocked(f.results, n, maxPerArtist);
    hide Blocked, Credited, LabelsOf, Heard, AtCap, Cap, AllLabels, Admitted;
  }

  /** Each counter counts the neighbours skipped for its reason, and the results are the rest. */
  lemma {:induction false} ReasonsCounted(k: int, maxPerArtist: int, ns: seq<Neighbour>, r: Reason)
    requires !r.Cut?
    ensures Counter(Steps(k, Cap(maxPerArtist), ns), r) == Found(k, maxPerArtist, ns, r)
  {
    if ns != [] {
      var n := |ns| - 1;
      ReasonsCounted(k, maxPerArtist, ns[..n], r);
      StepsSound(k, Cap(maxPerArtist), ns[..n]);
      hide Step, Sound, Counter, ReasonOf, Cap;
      StepReason(k, maxPerArtist, Steps(k, Cap(maxPerArtist), ns[..n]), ns[n], r);
    }
  }

  ghost function Skips(f: Filter): nat {
    SkippedOf(f, Excluded) + SkippedOf(f, Missing) + SkippedOf(f, Short) + SkippedOf(f, SameTrack)
    + SkippedOf(f, SameAlbum) + f.repeated + f.capped
  }

  lemma {:induction false} SkipCounts(f: Filter, v: Verdict)
    requires v != Fits
    ensures Skips(f.(skipped := f.skipped[v := SkippedOf(f, v) + 1])) == Skips(f) + 1
  {
    match v
    case Excluded =>
    case Missing =>
    case Short =>
    case SameTrack =>
    case SameAlbum =>
  }

  lemma {:induction false} CapCounts(f: Filter, n: Neighbour)
    ensures Skips(f.(repeated := f.repeated + 1)) == Skips(f.(capped := f.capped + 1)) == Skips(f) + 1
    ensures Skips(Added(f, n)) == Skips(f)
  {
    hide Credited, AllLabels;
  }

  lemma {:induction false} StepCounts(k: int, cap: Label -> int, f: Filter, n: Neighbour)
    ensures var g := Step(k, cap, f, n);
            |g.results| + Skips(g) == |f.results| + Skips(f) + if Full(k, f) then 0 else 1
  {
    hide Blocked, Credited, Skips, SkippedOf, AllLabels, SongLabels, CreditLabels;
    CapCounts(f, n);
    if n.verdict != Fits {
      SkipCounts(f, n.verdict);
    }
  }

  /** Every scanned neighbour is a result or counted under exactly one reason; without a cut-off that is all of them. */
  lemma {:induction false} NeighboursAccounted(k: int, cap: Label -> int, ns: seq<Neighbour>)
    ensures var f := Steps(k, cap, ns);
            |f.results| + Skips(f) <= |ns| && (!Full(k, f) ==> |f.results| + Skips(f) == |ns|)
  {
    if ns != [] {
      NeighboursAccounted(k, cap, ns[..|ns| - 1]);
      StepCounts(k, cap, Steps(k, cap, ns[..|ns| - 1]), ns[|ns| - 1]);
      StaysFull(k, cap, Steps(k, cap, ns[..|ns| - 1]), ns[|ns| - 1]);
      hide Step, Skips;
    }
  }

  lemma {:induction false} StaysFull(k: int, cap: Label -> int, f: Filter, n: Neighbour)
    ensures Full(k, f) ==> Step(k, cap, f, n) == f
  {
  }

  /** The filter loop of `similar_vector`, which ends when the results are full. */
  method FilterNeighbours(k: int, maxPerArtist: int, ns: seq<Neighbour>) returns (f: Filter)
    ensures f == Steps(k, Cap(maxPerArtist), ns)
  {
    hide Blocked, Credited, Step;
    var cap := Cap(maxPerArtist);
    f := Empty();
    var i := 0;
    while i < |ns|
      invariant 0 <= i <= |ns| && f == Steps(k, cap, ns[..i])
      invariant !Full(k, f)
    {
      assert ns[..i + 1][..i] == ns[..i];
      f := FilterOne(k, cap, f, ns[i]);
      i := i + 1;
      if f.results != [] && |f.results| >= k {
        break;
      }
    }
    RestIgnored(k, cap, ns, i);
  }

  lemma {:induction false} RestIgnored(k: int, cap: Label -> int, ns: seq<Neighbour>, i: nat)
    requires i <= |ns| && (i < |ns| ==> Full(k, Steps(k, cap, ns[..i])))
    ensures Steps(k, cap, ns) == Steps(k, cap, ns[..i])
    decreases |ns| - i
  {
    hide Blocked, Credited;
    if i == |ns| {
      assert ns[..i] == ns;
    } else {
      assert ns[..i + 1][..i] == ns[..i];
      RestIgnored(k, cap, ns, i + 1);
    }
  }

  method FilterOne(k: int, cap: Label -> int, f: Filter, n: Neighbour) returns (g: Filter)
    requires !Full(k, f)
    ensures g == Step(k, cap, f, n)
  {
    if n.verdict != Fits {
      return f.(skipped := f.skipped[n.verdict := SkippedOf(f, n.verdict) + 1]);
    }
    if Blocked(f.counts, SongLabels(n), cap) {
      return f.(repeated := f.repeated + 1);
    }
    if Blocked(f.counts, CreditLabels(n), cap) {
      return f.(capped := f.capped + 1);
    }
    g := Added(f, n);
  }
}
