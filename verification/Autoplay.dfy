/**
 Autoplay (app/autoplay.py:258-426, 501-539, app/store/playback.py:392-408, 572-642,
 692-722, 903-941): candidates under the session's artist and release caps, the pool
 from which the queue is refilled, and status changes of its items.
 */
module Autoplay {
  import opened Wrappers
  import opened Caps

  datatype Status = Queued | Playing | Played | Skipped | Removed

  datatype QueueItem = QueueItem(id: nat, track: TrackId, autoplay: bool, status: Status)

  // ----------------------------------------------------------------------- caps

  type CreditsOf = TrackId -> Credits

  function LabelsOf(tracks: seq<TrackId>, credits: CreditsOf): seq<seq<Label>> {
    seq(|tracks|, i requires 0 <= i < |tracks| => Labels(credits(tracks[i])))
  }

  /** The tracks of the queue that count: added by autoplay and not removed. */
  function Counted(queue: seq<QueueItem>): seq<TrackId> {
    if queue == [] then []
    else
      var last := queue[|queue| - 1];
      Counted(queue[..|queue| - 1]) + if last.autoplay && last.status != Removed then [last.track] else []
  }

  datatype Keep = Keep(kept: seq<TrackId>, counts: Counts, skippedArtist: nat, skippedRelease: nat)

  function Kept(s: Keep, t: TrackId, credits: CreditsOf): Keep {
    s.(kept := s.kept + [t], counts := Credited(s.counts, Labels(credits(t))))
  }

  function Step(s: Keep, t: TrackId, credits: CreditsOf, cap: Label -> int): Keep {
    if Blocked(s.counts, ArtistLabels(credits(t)), cap) then s.(skippedArtist := s.skippedArtist + 1)
    else if Blocked(s.counts, ReleaseLabels(credits(t)), cap) then s.(skippedRelease := s.skippedRelease + 1)
    else Kept(s, t, credits)
  }

  function Steps(base: Counts, ts: seq<TrackId>, credits: CreditsOf, cap: Label -> int): Keep {
    if ts == [] then Keep([], base, 0, 0)
    else Step(Steps(base, ts[..|ts| - 1], credits, cap), ts[|ts| - 1], credits, cap)
  }

  /** The counters belong to the queue and the kept tracks, each of which was below every cap when it was kept. */
  ghost predicate Sound(base: Counts, s: Keep, credits: CreditsOf, cap: Label -> int) {
    s.counts == CreditedEach(base, LabelsOf(s.kept, credits)) && Admitted(base, LabelsOf(s.kept, credits), cap)
  }

  lemma {:induction false} KeptSound(base: Counts, s: Keep, t: TrackId, credits: CreditsOf, cap: Label -> int)
    requires Sound(base, s, credits, cap) && !Blocked(s.counts, Labels(credits(t)), cap)
    ensures Sound(base, Kept(s, t, credits), credits, cap)
  {
    hide Blocked, Credited, Admitted;
    var tracks, labels := LabelsOf(s.kept, credits), Labels(credits(t));
    assert LabelsOf(s.kept + [t], credits) == tracks + [labels];
    hide LabelsOf;
    AdmitOne(base, tracks, labels, cap);
    assert (tracks + [labels])[..|tracks|] == tracks;
  }

  lemma {:induction false} StepsSound(base: Counts, ts: seq<TrackId>, credits: CreditsOf, cap: Label -> int)
    ensures Sound(base, Steps(base, ts, credits, cap), credits, cap)
  {
    if ts != [] {
      hide Blocked, Admitted, LabelsOf;
      var s, t := Steps(base, ts[..|ts| - 1], credits, cap), ts[|ts| - 1];
      StepsSound(base, ts[..|ts| - 1], credits, cap);
      BlockedParts(s.counts, credits(t), cap);
      if !Blocked(s.counts, Labels(credits(t)), cap) {
        KeptSound(base, s, t, credits, cap);
      }
    }
  }

  /** What `apply_autoplay_caps` starts from. */
  function Base(queue: seq<QueueItem>, credits: CreditsOf): Counts {
    CreditedEach(map[], LabelsOf(Counted(queue), credits))
  }

  function CreditsAll(tracks: seq<TrackId>, credits: CreditsOf): seq<Credits> {
    seq(|tracks|, i requires 0 <= i < |tracks| => credits(tracks[i]))
  }

  lemma {:induction false} LabelsAre(tracks: seq<TrackId>, credits: CreditsOf)
    ensures LabelsOf(tracks, credits) == LabelLists(CreditsAll(tracks, credits))
  {
    hide Labels;
  }

  /** The item was added by autoplay and not removed. */
  predicate Counts(item: QueueItem) {
    item.autoplay && item.status != Removed
  }

  /** Those autoplay items of the session that are not removed and credit the artist. */
  ghost function ArtistItems(queue: seq<QueueItem>, credits: CreditsOf, artist: nat): set<nat> {
    set i | 0 <= i < |queue| && Counts(queue[i]) && artist in credits(queue[i].track).artists
  }

  /** Those on the release. */
  ghost function ReleaseItems(queue: seq<QueueItem>, credits: CreditsOf, release: nat): set<nat> {
    set i | 0 <= i < |queue| && Counts(queue[i]) && credits(queue[i].track).release == Some(release)
  }

  lemma {:induction false} OneMore(s: set<nat>, i: nat)
    requires i !in s
    ensures |s + {i}| == |s| + 1
  {
  }

  lemma {:induction false} ArtistItemsStep(queue: seq<QueueItem>, credits: CreditsOf, a: nat)
    requires queue != []
    ensures var n := |queue| - 1;
            |ArtistItems(queue, credits, a)| == |ArtistItems(queue[..n], credits, a)|
              + if Counts(queue[n]) && a in credits(queue[n].track).artists then 1 else 0
  {
    hide Counts;
    var n := |queue| - 1;
    var before := ArtistItems(queue[..n], credits, a);
    assert ArtistItems(queue, credits, a)
        == if Counts(queue[n]) && a in credits(queue[n].track).artists then before + {n} else before;
    OneMore(before, n);
  }

  lemma {:induction false} ReleaseItemsStep(queue: seq<QueueItem>, credits: CreditsOf, r: nat)
    requires queue != []
    ensures var n := |queue| - 1;
            |ReleaseItems(queue, credits, r)| == |ReleaseItems(queue[..n], credits, r)|
              + if Counts(queue[n]) && credits(queue[n].track).release == Some(r) then 1 else 0
  {
    hide Counts;
    var n := |queue| - 1;
    var before := ReleaseItems(queue[..n], credits, r);
    assert ReleaseItems(queue, credits, r)
        == if Counts(queue[n]) && credits(queue[n].track).release == Some(r) then before + {n} else before;
    OneMore(before, n);
  }

  lemma {:induction false} CountedStep(queue: seq<QueueItem>, credits: CreditsOf, a: nat, r: nat)
    requires queue != []
    ensures var last, front := queue[|queue| - 1], CreditsAll(Counted(queue[..|queue| - 1]), credits);
            var counts := Counts(last);
            && OfArtist(CreditsAll(Counted(queue), credits), a) == OfArtist(front, a)
                 + (if counts && a in credits(last.track).artists then 1 else 0)
            && OfRelease(CreditsAll(Counted(queue), credits), r) == OfRelease(front, r)
                 + (if counts && credits(last.track).release == Some(r) then 1 else 0)
  {
    var last, tracks := queue[|queue| - 1], Counted(queue[..|queue| - 1]);
    var front := CreditsAll(tracks, credits);
    assert (front + [credits(last.track)])[..|front|] == front;
    assert CreditsAll(tracks + [last.track], credits) == front + [credits(last.track)];
    assert tracks + [] == tracks;
  }

  /** What the first loop counts: the items of the session that autoplay added and that are not removed. */
  lemma {:induction false} CountedTell(queue: seq<QueueItem>, credits: CreditsOf, a: nat, r: nat)
    ensures OfArtist(CreditsAll(Counted(queue), credits), a) == |ArtistItems(queue, credits, a)|
    ensures OfRelease(CreditsAll(Counted(queue), credits), r) == |ReleaseItems(queue, credits, r)|
  {
    if queue != [] {
      hide ArtistItems, ReleaseItems, Counted, CreditsAll, Counts;
      CountedTell(queue[..|queue| - 1], credits, a, r);
      CountedStep(queue, credits, a, r);
      ArtistItemsStep(queue, credits, a);
      ReleaseItemsStep(queue, credits, r);
    }
  }

  lemma {:induction false} MentionsEnough(tracks: seq<Credits>, a: nat)
    ensures OfArtist(tracks, a) <= Mentions(tracks, a)
  {
    if tracks != [] {
      MentionsEnough(tracks[..|tracks| - 1], a);
      assert a in tracks[|tracks| - 1].artists <==> a in multiset(tracks[|tracks| - 1].artists);
    }
  }

  /**
   With the kept tracks no artist or release of one of them is on more autoplay
   tracks of the session than its cap.
   */
  lemma {:induction false} SessionWithinCaps(queue: seq<QueueItem>, ts: seq<TrackId>, credits: CreditsOf,
                                             perArtist: int, perRelease: int, a: nat, r: nat)
    ensures var tracks := Steps(Base(queue, credits), ts, credits, Limit(perArtist, perRelease)).kept;
            var kept := CreditsAll(tracks, credits);
            && (OfArtist(kept, a) == 0 || |ArtistItems(queue, credits, a)| + OfArtist(kept, a) <= perArtist)
            && (OfRelease(kept, r) == 0 || |ReleaseItems(queue, credits, r)| + OfRelease(kept, r) <= perRelease)
  {
    var cap, base := Limit(perArtist, perRelease), Base(queue, credits);
    var tracks := Steps(base, ts, credits, cap).kept;
    var before, kept := CreditsAll(Counted(queue), credits), CreditsAll(tracks, credits);
    StepsSound(base, ts, credits, cap);
    LabelsAre(Counted(queue), credits);
    LabelsAre(tracks, credits);
    hide Steps, LabelsOf, LabelLists, Labels, CreditsAll, Counted, ArtistItems, ReleaseItems, Admitted, CreditedEach,
        Count, Uses, OfArtist, OfRelease, Mentions;
    CountsTell(before, a, r);
    CountedTell(queue, credits, a, r);
    MentionsEnough(before, a);
    UsesTell(kept, a, r);
    WithinCap(base, LabelLists(kept), cap, Artist(a));
    WithinCap(base, LabelLists(kept), cap, Release(r));
  }

  /** The counters are those of the counted queue and the kept tracks together. */
  lemma {:induction false} CountsAre(queue: seq<QueueItem>, s: Keep, credits: CreditsOf, perArtist: int,
                                     perRelease: int)
    requires Sound(Base(queue, credits), s, credits, Limit(perArtist, perRelease))
    ensures s.counts == CreditedEach(map[], LabelLists(CreditsAll(Counted(queue) + s.kept, credits)))
  {
    var before, all := Counted(queue), Counted(queue) + s.kept;
    assert Base(queue, credits) == CreditedEach(map[], LabelsOf(before, credits));
    hide *;
    CreditedEachJoin(map[], LabelsOf(before, credits), LabelsOf(s.kept, credits));
    LabelsJoin(before, s.kept, credits);
    LabelsAre(all, credits);
  }

  /** A track is blocked when one of its artists or its release is at the cap in the queue and the kept tracks. */
  lemma {:induction false} BlockedBy(queue: seq<QueueItem>, s: Keep, t: TrackId, credits: CreditsOf, perArtist: int,
                                     perRelease: int)
    requires Sound(Base(queue, credits), s, credits, Limit(perArtist, perRelease))
    ensures Blocked(s.counts, Labels(credits(t)), Limit(perArtist, perRelease)) <==>
            AtCap(CreditsAll(Counted(queue) + s.kept, credits), credits(t), perArtist, perRelease)
  {
    hide *;
    CountsAre(queue, s, credits, perArtist, perRelease);
    BlockedIff(CreditsAll(Counted(queue) + s.kept, credits), credits(t), perArtist, perRelease);
  }

  lemma {:induction false} LabelsJoin(a: seq<TrackId>, b: seq<TrackId>, credits: CreditsOf)
    ensures LabelsOf(a, credits) + LabelsOf(b, credits) == LabelsOf(a + b, credits)
  {
    hide Labels;
  }

  ghost predicate Decided(s: Keep, t: TrackId, credits: CreditsOf, cap: Label -> int) {
    t in s.kept || Blocked(s.counts, Labels(credits(t)), cap)
  }

  lemma {:induction false} StaysDecided(s: Keep, u: TrackId, t: TrackId, credits: CreditsOf, cap: Label -> int)
    requires Decided(s, t, credits, cap)
    ensures Decided(Step(s, u, credits, cap), t, credits, cap)
  {
    CreditedOnce(s.counts, Labels(credits(u)));
    if Blocked(s.counts, Labels(credits(t)), cap) {
      BlockedStays(s.counts, [Labels(credits(u))], Labels(credits(t)), cap);
    }
    hide Blocked, Credited;
  }

  lemma {:induction false} AllDecided(base: Counts, ts: seq<TrackId>, credits: CreditsOf, cap: Label -> int, t: TrackId)
    requires t in ts
    ensures Decided(Steps(base, ts, credits, cap), t, credits, cap)
  {
    hide Blocked, LabelsOf, Admitted;
    var front, last := ts[..|ts| - 1], ts[|ts| - 1];
    var s := Steps(base, front, credits, cap);
    if t == last {
      BlockedParts(s.counts, credits(t), cap);
    } else {
      assert t in front by {
        assert ts == front + [last];
      }
      AllDecided(base, front, credits, cap, t);
      StaysDecided(s, last, t, credits, cap);
    }
  }

  /** A rejected candidate is at a cap in the queue and the kept tracks: nothing could be added. */
  lemma {:induction false} CapsAreMaximal(queue: seq<QueueItem>, ts: seq<TrackId>, credits: CreditsOf, perArtist: int,
                                          perRelease: int, t: TrackId)
    requires t in ts
    ensures var kept := Steps(Base(queue, credits), ts, credits, Limit(perArtist, perRelease)).kept;
            t in kept || AtCap(CreditsAll(Counted(queue) + kept, credits), credits(t), perArtist, perRelease)
  {
    var base, cap := Base(queue, credits), Limit(perArtist, perRelease);
    StepsSound(base, ts, credits, cap);
    AllDecided(base, ts, credits, cap, t);
    hide Steps, Sound, Blocked, AtCap, CreditsAll, Counted, Base;
    BlockedBy(queue, Steps(base, ts, credits, cap), t, credits, perArtist, perRelease);
  }

  // ---------------------------------------------------------- candidate by candidate

  /** At the turn of a candidate only better ones are kept. It is at a cap with them and the queue, or it comes next. */
  ghost predicate Turn(queue: seq<QueueItem>, ts: seq<TrackId>, credits: CreditsOf, perArtist: int, perRelease: int,
                       kept: seq<TrackId>, i: nat, n: nat)
    requires i < |ts| && n <= |kept|
  {
    && Within(kept[..n], ts[..i])
    && (|| AtCap(CreditsAll(Counted(queue) + kept[..n], credits), credits(ts[i]), perArtist, perRelease)
        || (n < |kept| && kept[n] == ts[i]))
  }

  lemma {:induction false} StepGrows(s: Keep, t: TrackId, credits: CreditsOf, cap: Label -> int)
    ensures var u := Step(s, t, credits, cap);
            && s.kept <= u.kept
            && (Blocked(s.counts, Labels(credits(t)), cap) || u.kept == s.kept + [t])
  {
    BlockedParts(s.counts, credits(t), cap);
    hide Blocked, Credited;
  }

  lemma {:induction false} StepsGrow(base: Counts, ts: seq<TrackId>, credits: CreditsOf, cap: Label -> int, i: nat)
    requires i <= |ts|
    ensures Steps(base, ts[..i], credits, cap).kept <= Steps(base, ts, credits, cap).kept
    decreases |ts|
  {
    hide Step;
    if i < |ts| {
      var n := |ts| - 1;
      assert ts[..n][..i] == ts[..i];
      StepsGrow(base, ts[..n], credits, cap, i);
      StepGrows(Steps(base, ts[..n], credits, cap), ts[n], credits, cap);
    } else {
      assert ts[..i] == ts;
    }
  }

  /** Better candidates come first: none is passed over but for better ones and the queue. */
  lemma {:induction false} BestFirst(queue: seq<QueueItem>, ts: seq<TrackId>, credits: CreditsOf, perArtist: int,
                                     perRelease: int, i: nat)
    returns (n: nat)
    requires i < |ts|
    ensures var kept := Steps(Base(queue, credits), ts, credits, Limit(perArtist, perRelease)).kept;
            n <= |kept| && Turn(queue, ts, credits, perArtist, perRelease, kept, i, n)
  {
    var base, cap := Base(queue, credits), Limit(perArtist, perRelease);
    var s, kept := Steps(base, ts[..i], credits, cap), Steps(base, ts, credits, cap).kept;
    n := |s.kept|;
    assert ts[..i + 1][..i] == ts[..i];
    assert Steps(base, ts[..i + 1], credits, cap) == Step(s, ts[i], credits, cap);
    hide *;
    StepsGrow(base, ts, credits, cap, i);
    StepsGrow(base, ts, credits, cap, i + 1);
    StepGrows(s, ts[i], credits, cap);
    StepsSound(base, ts[..i], credits, cap);
    CandidatesAccounted(base, ts[..i], credits, cap);
    BlockedBy(queue, s, ts[i], credits, perArtist, perRelease);
    assert kept[..n] == s.kept;
    TurnIs(queue, ts, credits, perArtist, perRelease, kept, i, n);
  }

  lemma {:induction false} TurnIs(queue: seq<QueueItem>, ts: seq<TrackId>, credits: CreditsOf, perArtist: int,
                                  perRelease: int, kept: seq<TrackId>, i: nat, n: nat)
    requires i < |ts| && n <= |kept| && Within(kept[..n], ts[..i])
    requires || AtCap(CreditsAll(Counted(queue) + kept[..n], credits), credits(ts[i]), perArtist, perRelease)
             || (n < |kept| && kept[n] == ts[i])
    ensures Turn(queue, ts, credits, perArtist, perRelease, kept, i, n)
  {
  }

  lemma {:induction false} StepAccounts(s: Keep, t: TrackId, front: seq<TrackId>, credits: CreditsOf, cap: Label -> int)
    requires Within(s.kept, front)
    ensures var u := Step(s, t, credits, cap);
            && |u.kept| + u.skippedArtist + u.skippedRelease == |s.kept| + s.skippedArtist + s.skippedRelease + 1
            && Within(u.kept, front + [t])
  {
    hide Blocked, Credited, Within;
    WithinGrows(s.kept, front, t);
  }

  /** Every candidate is kept, in order, or counted under exactly one cap. */
  lemma {:induction false} CandidatesAccounted(base: Counts, ts: seq<TrackId>, credits: CreditsOf, cap: Label -> int)
    ensures var s := Steps(base, ts, credits, cap);
            |s.kept| + s.skippedArtist + s.skippedRelease == |ts| && Within(s.kept, ts)
  {
    if ts != [] {
      hide Step, Within, Base, LabelsOf, Blocked, CreditedEach, Credited, Admitted;
      var front, t := ts[..|ts| - 1], ts[|ts| - 1];
      assert front + [t] == ts;
      CandidatesAccounted(base, front, credits, cap);
      assert Steps(base, ts, credits, cap) == Step(Steps(base, front, credits, cap), t, credits, cap);
      hide Steps;
      StepAccounts(Steps(base, front, credits, cap), t, front, credits, cap);
    }
  }

  lemma {:induction false} BaseStep(queue: seq<QueueItem>, item: QueueItem, credits: CreditsOf)
    ensures Base(queue + [item], credits) ==
            if item.autoplay && item.status != Removed then Credited(Base(queue, credits), Labels(credits(item.track)))
            else Base(queue, credits)
  {
    assert (queue + [item])[..|queue|] == queue;
    var tracks := Counted(queue);
    assert tracks + [] == tracks;
    assert LabelsOf(tracks + [item.track], credits) == LabelsOf(tracks, credits) + [Labels(credits(item.track))];
    hide LabelsOf, Labels, Credited, Counted;
    CreditedEachJoin(map[], LabelsOf(tracks, credits), [Labels(credits(item.track))]);
    CreditedOnce(CreditedEach(map[], LabelsOf(tracks, credits)), Labels(credits(item.track)));
  }

  /** The first loop of `apply_autoplay_caps`. */
  method CountQueue(queue: seq<QueueItem>, credits: CreditsOf) returns (counts: Counts)
    ensures counts == Base(queue, credits)
  {
    hide Credited;
    counts := map[];
    for i := 0 to |queue|
      invariant counts == Base(queue[..i], credits)
    {
      BaseStep(queue[..i], queue[i], credits);
      assert queue[..i + 1] == queue[..i] + [queue[i]];
      hide Base;
      if queue[i].autoplay && queue[i].status != Removed {
        counts := Credited(counts, Labels(credits(queue[i].track)));
      }
    }
    assert queue[..|queue|] == queue;
  }

  /** `apply_autoplay_caps`. */
  method ApplyAutoplayCaps(queue: seq<QueueItem>, ts: seq<TrackId>, credits: CreditsOf, perArtist: int, perRelease: int)
    returns (s: Keep)
    ensures s == Steps(Base(queue, credits), ts, credits, Limit(perArtist, perRelease))
  {
    hide Blocked, Credited;
    var base := CountQueue(queue, credits);
    var cap := Limit(perArtist, perRelease);
    s := Keep([], base, 0, 0);
    for i := 0 to |ts|
      invariant s == Steps(base, ts[..i], credits, cap)
    {
      assert ts[..i + 1][..i] == ts[..i];
      var c := credits(ts[i]);
      if Blocked(s.counts, ArtistLabels(c), cap) {
        s := s.(skippedArtist := s.skippedArtist + 1);
      } else if Blocked(s.counts, ReleaseLabels(c), cap) {
        s := s.(skippedRelease := s.skippedRelease + 1);
      } else {
        s := Kept(s, ts[i], credits);
      }
    }
    assert ts[..|ts|] == ts;
  }

  // -------------------------------------------------------------------- the queue

  /** An entry of the stored pool; one without a usable track id is malformed. */
  datatype Entry = Malformed | Entry(track: TrackId)

  /** A session: its queue with removed items, the current item, and the stored pool. */
  datatype State = State(queue: seq<QueueItem>, current: Option<nat>, pool: seq<Entry>, nextId: nat)

  /** `list_queue_items`. */
  function Listed(queue: seq<QueueItem>): seq<QueueItem> {
    if queue == [] then []
    else Listed(queue[..|queue| - 1]) + if queue[|queue| - 1].status == Removed then [] else [queue[|queue| - 1]]
  }

  function TracksOf(items: seq<QueueItem>): set<TrackId> {
    set i | 0 <= i < |items| :: items[i].track
  }

  function Live(queue: seq<QueueItem>): set<TrackId> {
    TracksOf(Listed(queue))
  }

  ghost predicate DistinctTracks(items: seq<QueueItem>) {
    forall i, j :: 0 <= i < j < |items| ==> items[i].track != items[j].track
  }

  /** The place of the current item, or the first place. */
  function CurrentIndex(items: seq<QueueItem>, current: Option<nat>): (k: nat)
    ensures k == 0 || k < |items|
  {
    if current.Some? && exists i :: 0 <= i < |items| && items[i].id == current.value
    then FirstAt(items, current.value)
    else 0
  }

  function FirstAt(items: seq<QueueItem>, id: nat): (k: nat)
    requires exists i :: 0 <= i < |items| && items[i].id == id
    ensures k < |items| && items[k].id == id
  {
    if items[0].id == id then 0
    else
      assert exists i :: 0 <= i < |items[1..]| && items[1..][i].id == id by {
        var i :| 0 <= i < |items| && items[i].id == id;
        assert items[1..][i - 1].id == id;
      }
      1 + FirstAt(items[1..], id)
  }

  function QueuedIn(items: seq<QueueItem>): nat {
    if items == [] then 0 else QueuedIn(items[..|items| - 1]) + if items[|items| - 1].status == Queued then 1 else 0
  }

  function After(items: seq<QueueItem>, k: nat): seq<QueueItem> {
    if k + 1 <= |items| then items[k + 1..] else []
  }

  function NeededFor(items: seq<QueueItem>, current: Option<nat>, visible: nat): nat {
    var upcoming := QueuedIn(After(items, CurrentIndex(items, current)));
    if visible < upcoming then 0 else visible - upcoming
  }

  /** `autoplay_items_needed`. */
  function Needed(s: State, visible: nat): nat {
    NeededFor(Listed(s.queue), s.current, visible)
  }

  // --------------------------------------------------------------------- refilling

  /** `_dedupe_pool_items`: the first of each track. */
  function Dedupe(ts: seq<TrackId>): seq<TrackId> {
    if ts == [] then []
    else
      var front := Dedupe(ts[..|ts| - 1]);
      if ts[|ts| - 1] in front then front else front + [ts[|ts| - 1]]
  }

  /** The usable entries: well formed, available, and not in the queue. */
  function Usable(pool: seq<Entry>, live: set<TrackId>, available: set<TrackId>): seq<TrackId> {
    if pool == [] then []
    else
      var last := pool[|pool| - 1];
      Usable(pool[..|pool| - 1], live, available)
      + if last.Entry? && last.track !in live && last.track in available then [last.track] else []
  }

  function Only(ts: seq<TrackId>, keep: set<TrackId>, drop: set<TrackId>): seq<TrackId> {
    if ts == [] then []
    else Only(ts[..|ts| - 1], keep, drop) + if ts[|ts| - 1] in keep && ts[|ts| - 1] !in drop then [ts[|ts| - 1]] else []
  }

  function SetOf(ts: seq<TrackId>): set<TrackId> {
    set t | t in ts
  }

  /**
   A refill's settings and surroundings: the low-water mark that decides whether
   new candidates are generated, the tracks that are available, the neighbours
   ranked by score, and the played, skipped and current tracks to leave out.
   */
  datatype Env = Env(visible: nat, count: nat, low: nat, available: set<TrackId>, ranked: seq<TrackId>,
                     excluded: set<TrackId>, credits: CreditsOf, perArtist: int, perRelease: int)

  /** `generate_autoplay_candidates` on the ranked neighbours. */
  function Generated(s: State, env: Env): seq<TrackId> {
    Steps(Base(s.queue, env.credits), Only(env.ranked, env.available, Live(s.queue) + env.excluded), env.credits,
          Limit(env.perArtist, env.perRelease)).kept
  }

  /** The pool a refill draws from. */
  function Pool(s: State, env: Env): seq<TrackId> {
    var usable := Dedupe(Usable(s.pool, Live(s.queue), env.available));
    var generated :=
      if |usable| < Needed(s, env.visible) || |usable| < env.low
      then Only(Generated(s, env), SetOf(Generated(s, env)), SetOf(usable))
      else [];
    var all := Dedupe(usable + generated);
    if env.count < |all| then all[..env.count] else all
  }

  function Drawn(s: State, env: Env): (n: nat)
    ensures n <= |Pool(s, env)|
  {
    if Needed(s, env.visible) < |Pool(s, env)| then Needed(s, env.visible) else |Pool(s, env)|
  }

  function Items(ts: seq<TrackId>, id: nat): seq<QueueItem> {
    seq(|ts|, i requires 0 <= i < |ts| => QueueItem(id + i, ts[i], true, Queued))
  }

  function Entries(ts: seq<TrackId>): seq<Entry> {
    seq(|ts|, i requires 0 <= i < |ts| => Entry(ts[i]))
  }

  /** `refill_autoplay_queue`: the first needed tracks of the pool join the queue, the rest is stored. */
  function Refilled(s: State, env: Env): State {
    var pool, n := Pool(s, env), Drawn(s, env);
    s.(queue := s.queue + Items(pool[..n], s.nextId), pool := Entries(pool[n..]), nextId := s.nextId + n)
  }

  // --------------------------------------------------------- what a refill respects

  ghost predicate Distinct(ts: seq<TrackId>) {
    forall i, j :: 0 <= i < j < |ts| ==> ts[i] != ts[j]
  }

  lemma {:induction false} DedupeDistinct(ts: seq<TrackId>)
    ensures Distinct(Dedupe(ts)) && forall t :: t in Dedupe(ts) <==> t in ts
  {
    if ts != [] {
      DedupeDistinct(ts[..|ts| - 1]);
      assert ts == ts[..|ts| - 1] + [ts[|ts| - 1]];
    }
  }

  lemma {:induction false} UsableMembers(pool: seq<Entry>, live: set<TrackId>, available: set<TrackId>)
    ensures forall t :: t in Usable(pool, live, available) ==> t !in live && t in available && Entry(t) in pool
  {
    if pool != [] {
      UsableMembers(pool[..|pool| - 1], live, available);
      assert pool == pool[..|pool| - 1] + [pool[|pool| - 1]];
    }
  }

  lemma {:induction false} OnlyMembers(ts: seq<TrackId>, keep: set<TrackId>, drop: set<TrackId>)
    ensures forall t :: t in Only(ts, keep, drop) <==> t in ts && t in keep && t !in drop
  {
    if ts != [] {
      OnlyMembers(ts[..|ts| - 1], keep, drop);
      assert ts == ts[..|ts| - 1] + [ts[|ts| - 1]];
    }
  }

  lemma {:induction false} WithinMembers(a: seq<TrackId>, b: seq<TrackId>)
    requires Within(a, b)
    ensures forall t :: t in a ==> t in b
  {
    if a != [] {
      assert b == b[..|b| - 1] + [b[|b| - 1]];
      if a[|a| - 1] == b[|b| - 1] && Within(a[..|a| - 1], b[..|b| - 1]) {
        WithinMembers(a[..|a| - 1], b[..|b| - 1]);
        assert a == a[..|a| - 1] + [a[|a| - 1]];
      } else {
        WithinMembers(a, b[..|b| - 1]);
      }
    }
  }

  lemma {:induction false} GeneratedMembers(s: State, env: Env)
    ensures forall t :: t in Generated(s, env) ==> t !in Live(s.queue) && t !in env.excluded && t in env.available
  {
    var ts := Only(env.ranked, env.available, Live(s.queue) + env.excluded);
    CandidatesAccounted(Base(s.queue, env.credits), ts, env.credits, Limit(env.perArtist, env.perRelease));
    WithinMembers(Generated(s, env), ts);
    OnlyMembers(env.ranked, env.available, Live(s.queue) + env.excluded);
  }

  /** The pool holds available tracks that are not in the queue, none twice, and no more than the candidate count. */
  lemma {:induction false} PoolIsNew(s: State, env: Env)
    ensures Distinct(Pool(s, env)) && |Pool(s, env)| <= env.count
    ensures forall t :: t in Pool(s, env) ==> t !in Live(s.queue) && t in env.available
  {
    hide Generated, Live, Usable, Needed;
    var usable := Dedupe(Usable(s.pool, Live(s.queue), env.available));
    var g := Generated(s, env);
    var generated :=
      if |usable| < Needed(s, env.visible) || |usable| < env.low then Only(g, SetOf(g), SetOf(usable)) else [];
    UsableMembers(s.pool, Live(s.queue), env.available);
    DedupeDistinct(Usable(s.pool, Live(s.queue), env.available));
    GeneratedMembers(s, env);
    OnlyMembers(g, SetOf(g), SetOf(usable));
    DedupeDistinct(usable + generated);
    var all := Dedupe(usable + generated);
    hide Dedupe, Only;
    assert forall t :: t in Pool(s, env) ==> t in all;
  }

  /** The old pool and the new candidates split exactly into what is added and what is stored. */
  lemma {:induction false} RefillSplits(s: State, env: Env)
    ensures var t, pool, n := Refilled(s, env), Pool(s, env), Drawn(s, env);
            && t.queue[..|s.queue|] == s.queue && |t.queue| == |s.queue| + n
            && (forall i :: 0 <= i < n ==> t.queue[|s.queue| + i] == QueueItem(s.nextId + i, pool[i], true, Queued))
            && |t.pool| == |pool| - n && (forall i :: n <= i < |pool| ==> t.pool[i - n] == Entry(pool[i]))
            && n == if Needed(s, env.visible) < |pool| then Needed(s, env.visible) else |pool|
  {
    hide Pool, Needed;
  }

  lemma {:induction false} ListedJoin(a: seq<QueueItem>, b: seq<QueueItem>)
    ensures Listed(a + b) == Listed(a) + Listed(b)
  {
    if b == [] {
      assert a + b == a;
    } else {
      ListedJoin(a, b[..|b| - 1]);
      assert (a + b)[..|a + b| - 1] == a + b[..|b| - 1];
    }
  }

  lemma {:induction false} AllListed(items: seq<QueueItem>)
    requires forall i :: 0 <= i < |items| ==> items[i].status != Removed
    ensures Listed(items) == items
  {
    if items != [] {
      AllListed(items[..|items| - 1]);
    }
  }

  lemma {:induction false} ItemsListed(ts: seq<TrackId>, id: nat)
    ensures Listed(Items(ts, id)) == Items(ts, id)
  {
    AllListed(Items(ts, id));
  }

  /** The listed queue grows by the drawn tracks. */
  lemma {:induction false} RefillListed(s: State, env: Env)
    ensures |Pool(s, env)[..Drawn(s, env)]| == Drawn(s, env) <= Needed(s, env.visible)
    ensures Listed(Refilled(s, env).queue) == Listed(s.queue) + Items(Pool(s, env)[..Drawn(s, env)], s.nextId)
  {
    hide Pool, Needed, Items, Listed;
    ListedJoin(s.queue, Items(Pool(s, env)[..Drawn(s, env)], s.nextId));
    ItemsListed(Pool(s, env)[..Drawn(s, env)], s.nextId);
  }

  lemma {:induction false} ItemsAre(ts: seq<TrackId>, id: nat)
    ensures |Items(ts, id)| == |ts| && forall i :: 0 <= i < |ts| ==>
            Items(ts, id)[i] == QueueItem(id + i, ts[i], true, Queued)
  {
  }

  lemma {:induction false} DistinctAppend(before: seq<QueueItem>, ts: seq<TrackId>, id: nat)
    requires DistinctTracks(before) && Distinct(ts) && forall t :: t in ts ==> t !in TracksOf(before)
    ensures DistinctTracks(before + Items(ts, id))
  {
    var all := before + Items(ts, id);
    forall i, j | 0 <= i < j < |all| ensures all[i].track != all[j].track {
      if i < |before| <= j {
        assert before[i].track in TracksOf(before);
        assert ts[j - |before|] in ts;
      }
    }
  }

  /** A refill never adds a track that is in the queue, nor one twice. */
  lemma {:induction false} RefillKeepsDistinct(s: State, env: Env)
    requires DistinctTracks(Listed(s.queue))
    ensures DistinctTracks(Listed(Refilled(s, env).queue))
  {
    hide Pool, Drawn, Listed, Refilled, Items;
    var ts := Pool(s, env)[..Drawn(s, env)];
    PoolIsNew(s, env);
    RefillListed(s, env);
    assert forall t :: t in ts ==> t in Pool(s, env);
    DistinctAppend(Listed(s.queue), ts, s.nextId);
  }

  // ------------------------------------------------------------- plays and removals

  /**
   An item gets a status by its id, whatever it had before: a play, skip, jump or
   hand-over brings a removed item back. The current item may move.
   */
  function Marked(s: State, i: nat, status: Status, current: Option<nat>): State {
    if i < |s.queue| then s.(queue := s.queue[i := s.queue[i].(status := status)], current := current)
    else s.(current := current)
  }

  datatype Action = Refill(env: Env) | Mark(i: nat, status: Status, current: Option<nat>)

  function Next(s: State, a: Action): State {
    match a
    case Refill(env) => Refilled(s, env)
    case Mark(i, status, current) => Marked(s, i, status, current)
  }

  ghost function Run(s: State, actions: seq<Action>): State {
    if actions == [] then s else Next(Run(s, actions[..|actions| - 1]), actions[|actions| - 1])
  }

  /** No two items of the queue that are not removed have the same track. */
  ghost predicate DistinctLive(queue: seq<QueueItem>) {
    forall i, j :: 0 <= i < j < |queue| && queue[i].status != Removed && queue[j].status != Removed ==>
        queue[i].track != queue[j].track
  }

  lemma {:induction false} ListedTracks(queue: seq<QueueItem>, t: TrackId)
    ensures (exists k :: 0 <= k < |Listed(queue)| && Listed(queue)[k].track == t)
            <==> exists i :: 0 <= i < |queue| && queue[i].status != Removed && queue[i].track == t
  {
    if queue != [] {
      var n := |queue| - 1;
      ListedTracks(queue[..n], t);
      if exists i :: 0 <= i < n && queue[i].status != Removed && queue[i].track == t {
        var i :| 0 <= i < n && queue[i].status != Removed && queue[i].track == t;
        assert queue[..n][i] == queue[i];
        var k :| 0 <= k < |Listed(queue[..n])| && Listed(queue[..n])[k].track == t;
        assert Listed(queue)[k].track == t;
      }
      if queue[n].status != Removed && queue[n].track == t {
        assert Listed(queue)[|Listed(queue[..n])|].track == t;
      }
      if exists k :: 0 <= k < |Listed(queue)| && Listed(queue)[k].track == t {
        var k :| 0 <= k < |Listed(queue)| && Listed(queue)[k].track == t;
        if k < |Listed(queue[..n])| {
          assert Listed(queue[..n])[k].track == t;
          var i :| 0 <= i < n && queue[..n][i].status != Removed && queue[..n][i].track == t;
          assert queue[i] == queue[..n][i];
        }
      }
    }
  }

  lemma {:induction false} LiveStep(queue: seq<QueueItem>, last: QueueItem)
    ensures DistinctLive(queue + [last]) <==>
            && DistinctLive(queue)
            && (last.status != Removed ==>
                  !exists i :: 0 <= i < |queue| && queue[i].status != Removed && queue[i].track == last.track)
  {
    var all := queue + [last];
    assert all[|queue|] == last && forall i :: 0 <= i < |queue| ==> all[i] == queue[i];
  }

  lemma {:induction false} TracksStep(items: seq<QueueItem>, last: QueueItem)
    ensures DistinctTracks(items + [last]) <==>
            DistinctTracks(items) && !exists k :: 0 <= k < |items| && items[k].track == last.track
  {
    var all := items + [last];
    assert all[|items|] == last && forall i :: 0 <= i < |items| ==> all[i] == items[i];
  }

  lemma {:induction false} LiveIsListed(queue: seq<QueueItem>)
    ensures DistinctLive(queue) <==> DistinctTracks(Listed(queue))
  {
    if queue != [] {
      var n := |queue| - 1;
      var last := queue[n];
      assert queue == queue[..n] + [last];
      LiveIsListed(queue[..n]);
      ListedTracks(queue[..n], last.track);
      LiveStep(queue[..n], last);
      TracksStep(Listed(queue[..n]), last);
      assert Listed(queue[..n]) + [] == Listed(queue[..n]);
      hide DistinctLive, DistinctTracks;
    }
  }

  /** The item is removed, was not removed, or its track is not in the queue meanwhile. */
  ghost predicate Harmless(s: State, i: nat, status: Status) {
    i < |s.queue| ==> status == Removed || s.queue[i].status != Removed || s.queue[i].track !in Live(s.queue)
  }

  lemma {:induction false} LiveAt(queue: seq<QueueItem>, t: TrackId)
    ensures t in Live(queue) <==> exists i :: 0 <= i < |queue| && queue[i].status != Removed && queue[i].track == t
  {
    ListedTracks(queue, t);
    hide Listed;
  }

  /** A status change keeps the queue's tracks distinct exactly when it brings back no track that is there again. */
  lemma {:induction false} MarkDistinctIff(s: State, i: nat, status: Status, current: Option<nat>)
    requires DistinctTracks(Listed(s.queue))
    ensures DistinctTracks(Listed(Marked(s, i, status, current).queue)) <==> Harmless(s, i, status)
  {
    hide Listed, DistinctTracks, Live;
    LiveIsListed(s.queue);
    LiveIsListed(Marked(s, i, status, current).queue);
    if i < |s.queue| {
      LiveAt(s.queue, s.queue[i].track);
      MarkLive(s.queue, i, status);
    }
  }

  lemma {:induction false} MarkLive(queue: seq<QueueItem>, i: nat, status: Status)
    requires DistinctLive(queue) && i < |queue|
    ensures DistinctLive(queue[i := queue[i].(status := status)]) <==>
            || status == Removed || queue[i].status != Removed
            || !exists j :: 0 <= j < |queue| && queue[j].status != Removed && queue[j].track == queue[i].track
  {
    var after := queue[i := queue[i].(status := status)];
    assert forall j :: 0 <= j < |queue| && j != i ==> after[j] == queue[j];
    if status != Removed && queue[i].status == Removed {
      if j :| 0 <= j < |queue| && queue[j].status != Removed && queue[j].track == queue[i].track {
        assert after[j].track == after[i].track && after[j].status != Removed && after[i].status != Removed && j != i;
        assert !DistinctLive(after);
      }
    }
  }

  /** Every status change of the run is harmless where it happens. */
  ghost predicate HarmlessRun(s: State, actions: seq<Action>) {
    forall k :: 0 <= k < |actions| && actions[k].Mark? ==>
      Harmless(Run(s, actions[..k]), actions[k].i, actions[k].status)
  }

  ghost predicate StaysDistinct(s: State, actions: seq<Action>) {
    forall k :: 0 <= k <= |actions| ==> DistinctTracks(Listed(Run(s, actions[..k]).queue))
  }

  lemma {:induction false} NextDistinctIff(s: State, a: Action)
    requires DistinctTracks(Listed(s.queue))
    ensures DistinctTracks(Listed(Next(s, a).queue)) <==> (a.Mark? ==> Harmless(s, a.i, a.status))
  {
    hide Listed, Refilled, Marked, DistinctTracks, Harmless;
    match a
    case Refill(env) => RefillKeepsDistinct(s, env);
    case Mark(i, status, current) => MarkDistinctIff(s, i, status, current);
  }

  lemma {:induction false} HarmlessParts(s: State, actions: seq<Action>)
    requires actions != []
    ensures var n := |actions| - 1; var last := actions[n];
            HarmlessRun(s, actions) <==>
            HarmlessRun(s, actions[..n]) && (last.Mark? ==> Harmless(Run(s, actions[..n]), last.i, last.status))
  {
    hide Harmless, Run;
    var n := |actions| - 1;
    assert forall k :: 0 <= k < n ==> actions[..n][..k] == actions[..k] && actions[..n][k] == actions[k];
  }

  lemma {:induction false} DistinctParts(s: State, actions: seq<Action>)
    requires actions != []
    ensures StaysDistinct(s, actions) <==>
            StaysDistinct(s, actions[..|actions| - 1]) && DistinctTracks(Listed(Run(s, actions).queue))
  {
    hide DistinctTracks, Run, Listed;
    var n := |actions| - 1;
    assert actions[..|actions|] == actions;
    assert forall k :: 0 <= k <= n ==> actions[..n][..k] == actions[..k];
    if StaysDistinct(s, actions) {
      forall k | 0 <= k <= n ensures DistinctTracks(Listed(Run(s, actions[..n][..k]).queue)) {
        assert DistinctTracks(Listed(Run(s, actions[..k]).queue));
      }
      assert DistinctTracks(Listed(Run(s, actions[..|actions|]).queue));
    }
    if StaysDistinct(s, actions[..n]) && DistinctTracks(Listed(Run(s, actions).queue)) {
      forall k | 0 <= k <= |actions| ensures DistinctTracks(Listed(Run(s, actions[..k]).queue)) {
        if k <= n {
          assert DistinctTracks(Listed(Run(s, actions[..n][..k]).queue));
        }
      }
    }
  }

  /**
   Over any run of refills, plays, skips, jumps and removals: no track is ever in the
   queue twice exactly when no removed item is brought back while its track is in the
   queue again.
   */
  lemma {:induction false} QueueStaysDistinctIff(s: State, actions: seq<Action>)
    requires DistinctTracks(Listed(s.queue))
    ensures StaysDistinct(s, actions) <==> HarmlessRun(s, actions)
  {
    if actions == [] {
      assert actions[..0] == actions;
    } else {
      var n := |actions| - 1;
      QueueStaysDistinctIff(s, actions[..n]);
      HarmlessParts(s, actions);
      DistinctParts(s, actions);
      assert Run(s, actions) == Next(Run(s, actions[..n]), actions[n]);
      hide HarmlessRun, DistinctTracks, Harmless, Listed, Run, Next;
      if StaysDistinct(s, actions[..n]) {
        assert actions[..n][..n] == actions[..n];
        assert DistinctTracks(Listed(Run(s, actions[..n][..n]).queue));
        NextDistinctIff(Run(s, actions[..n]), actions[n]);
      }
    }
  }

  /** A session that offers one track with no credits, at a queue that shows one. */
  function OneTrack(t: TrackId): Env {
    Env(1, 1, 0, {t}, [t], {}, (u: TrackId) => Credits([], None), 1, 1)
  }

  lemma {:induction false} OffersTrack(s: State, t: TrackId)
    requires Listed(s.queue) == [] && s.pool == []
    ensures Refilled(s, OneTrack(t))
            == State(s.queue + [QueueItem(s.nextId, t, true, Queued)], s.current, [], s.nextId + 1)
  {
    var env := OneTrack(t);
    NothingNeeds(s.current, 1);
    assert Live(s.queue) == {};
    assert [t][..0] == [];
    assert Only([], env.available, Live(s.queue) + env.excluded) == [];
    assert Only([t], env.available, Live(s.queue) + env.excluded) == [t];
    var base := Base(s.queue, env.credits);
    assert Steps(base, [], env.credits, Limit(1, 1)) == Keep([], base, 0, 0);
    assert Steps(base, [t], env.credits, Limit(1, 1)).kept == [t];
    assert Generated(s, env) == [t];
    hide Generated, Steps, Base;
    assert Dedupe([]) == [];
    assert Only([], SetOf([t]), SetOf([])) == [];
    assert Only([t], SetOf([t]), SetOf([])) == [t];
    assert Dedupe([t]) == [t];
    assert [] + [t] == [t];
    assert Pool(s, env) == [t];
    assert [t][..1] == [t] && [t][1..] == [];
    assert Items([t], s.nextId) == [QueueItem(s.nextId, t, true, Queued)];
    assert Entries([]) == [];
  }

  /** A track is queued, removed, queued again, and its first item is played after all: now it is in the queue twice. */
  function Comeback(t: TrackId): seq<Action> {
    [Refill(OneTrack(t)), Mark(0, Removed, None), Refill(OneTrack(t)), Mark(0, Playing, Some(0))]
  }

  lemma {:induction false} ComesBackTwice(t: TrackId)
    ensures var s := State([], None, [], 0);
            && DistinctTracks(Listed(s.queue))
            && Listed(Run(s, Comeback(t)).queue) == [QueueItem(0, t, true, Playing), QueueItem(1, t, true, Queued)]
            && !StaysDistinct(s, Comeback(t))
  {
    hide Run, Comeback;
    var s := State([], None, [], 0);
    ComebackEnds(t);
    var queue := Run(s, Comeback(t)).queue;
    AllListed(queue);
    assert Listed(s.queue) == [];
    hide Listed;
    assert Comeback(t)[..|Comeback(t)|] == Comeback(t);
    assert !DistinctTracks(queue) by {
      assert queue[0].track == queue[1].track;
    }
  }

  lemma {:induction false} ComebackEnds(t: TrackId)
    ensures Run(State([], None, [], 0), Comeback(t))
            == State([QueueItem(0, t, true, Playing), QueueItem(1, t, true, Queued)], Some(0), [], 2)
  {
    hide Refilled, OneTrack, Run;
    var gone, one, two := QueueItem(0, t, true, Removed), QueueItem(0, t, true, Queued), QueueItem(1, t, true, Queued);
    var s, s1 := State([], None, [], 0), State([one], None, [], 1);
    var s2, s3 := State([gone], None, [], 1), State([gone, two], None, [], 2);
    OffersTrack(s, t);
    assert s.queue + [one] == [one];
    ListedGone(gone);
    OffersTrack(s2, t);
    assert s2.queue + [two] == [gone, two];
    hide Listed;
    assert Marked(s1, 0, Removed, None) == s2;
    assert Marked(s3, 0, Playing, Some(0)).queue == [QueueItem(0, t, true, Playing), two];
    hide Marked;
    RunFour(s, Refill(OneTrack(t)), Mark(0, Removed, None), Refill(OneTrack(t)), Mark(0, Playing, Some(0)));
  }

  lemma {:induction false} ListedGone(gone: QueueItem)
    requires gone.status == Removed
    ensures Listed([gone]) == [] && RemovedItems([gone]) == [gone]
  {
    assert [gone][..0] == [];
  }

  lemma {:induction false} RunMore(s: State, actions: seq<Action>, a: Action)
    ensures Run(s, actions + [a]) == Next(Run(s, actions), a)
  {
    hide Next;
    assert (actions + [a])[..|actions|] == actions;
  }

  lemma {:induction false} RunTwo(s: State, actions: seq<Action>, a: Action, b: Action)
    ensures Run(s, actions + [a, b]) == Next(Next(Run(s, actions), a), b)
  {
    hide Run, Next;
    RunMore(s, actions, a);
    RunMore(s, actions + [a], b);
    assert actions + [a] + [b] == actions + [a, b];
  }

  lemma {:induction false} RunFour(s: State, a: Action, b: Action, c: Action, d: Action)
    ensures Run(s, [a, b, c, d]) == Next(Next(Next(Next(s, a), b), c), d)
  {
    hide Next;
    assert Run(s, []) == s;
    hide Run;
    RunTwo(s, [], a, b);
    RunTwo(s, [] + [a, b], c, d);
    assert [] + [a, b] + [c, d] == [a, b, c, d];
  }

  // ------------------------------------------------------------ what is reported

  /** Row ids are handed out once. */
  ghost predicate IdsGiven(s: State) {
    && (forall i :: 0 <= i < |s.queue| ==> s.queue[i].id < s.nextId)
    && (forall i, j :: 0 <= i < j < |s.queue| ==> s.queue[i].id != s.queue[j].id)
  }

  lemma {:induction false} NextKeepsIds(s: State, a: Action)
    requires IdsGiven(s)
    ensures IdsGiven(Next(s, a))
  {
    match a
    case Refill(env) =>
      hide Pool, Needed;
      ItemsAre(Pool(s, env)[..Drawn(s, env)], s.nextId);
      hide Items;
    case Mark(i, status, current) =>
  }

  function IdsOf(items: seq<QueueItem>): set<nat> {
    set i | 0 <= i < |items| :: items[i].id
  }

  /** The rows whose id is not among these. */
  function Unknown(rows: seq<QueueItem>, ids: set<nat>): seq<QueueItem> {
    if rows == [] then []
    else Unknown(rows[..|rows| - 1], ids) + if rows[|rows| - 1].id in ids then [] else [rows[|rows| - 1]]
  }

  function RemovedItems(queue: seq<QueueItem>): seq<QueueItem> {
    if queue == [] then []
    else RemovedItems(queue[..|queue| - 1]) + if queue[|queue| - 1].status == Removed then [queue[|queue| - 1]] else []
  }

  function NewItems(s: State, env: Env): seq<QueueItem> {
    Items(Pool(s, env)[..Drawn(s, env)], s.nextId)
  }

  /** `append_queue_items`: all rows, removed ones too, but without anything to append only the listed ones. */
  function Appended(s: State, env: Env): seq<QueueItem> {
    if Drawn(s, env) == 0 then Listed(s.queue) else Refilled(s, env).queue
  }

  /** `added_items`: the returned rows that were not listed before. */
  function Reported(s: State, env: Env): seq<QueueItem> {
    Unknown(Appended(s, env), IdsOf(Listed(s.queue)))
  }

  lemma {:induction false} UnknownJoin(a: seq<QueueItem>, b: seq<QueueItem>, ids: set<nat>)
    ensures Unknown(a + b, ids) == Unknown(a, ids) + Unknown(b, ids)
  {
    if b == [] {
      assert a + b == a;
    } else {
      UnknownJoin(a, b[..|b| - 1], ids);
      assert (a + b)[..|a + b| - 1] == a + b[..|b| - 1];
    }
  }

  lemma {:induction false} NoneUnknown(rows: seq<QueueItem>, ids: set<nat>)
    requires forall i :: 0 <= i < |rows| ==> rows[i].id in ids
    ensures Unknown(rows, ids) == []
  {
    if rows != [] {
      NoneUnknown(rows[..|rows| - 1], ids);
    }
  }

  lemma {:induction false} AllUnknown(rows: seq<QueueItem>, ids: set<nat>)
    requires forall i :: 0 <= i < |rows| ==> rows[i].id !in ids
    ensures Unknown(rows, ids) == rows
  {
    if rows != [] {
      AllUnknown(rows[..|rows| - 1], ids);
    }
  }

  /** A listed id is the id of a row that is not removed. */
  lemma {:induction false} ListedIds(queue: seq<QueueItem>, id: nat)
    ensures id in IdsOf(Listed(queue)) <==>
            exists i :: 0 <= i < |queue| && queue[i].status != Removed && queue[i].id == id
  {
    if queue != [] {
      var front, last := queue[..|queue| - 1], queue[|queue| - 1];
      ListedIds(front, id);
      assert forall i :: 0 <= i < |front| ==> front[i] == queue[i];
      IdsMore(Listed(front), last);
      assert Listed(front) + [] == Listed(front);
    }
  }

  lemma {:induction false} IdsMore(items: seq<QueueItem>, last: QueueItem)
    ensures IdsOf(items + [last]) == IdsOf(items) + {last.id}
  {
    assert (items + [last])[|items|] == last;
    forall i | 0 <= i < |items| ensures items[i].id in IdsOf(items + [last]) {
      assert (items + [last])[i] == items[i];
    }
  }

  /** With ids given once, the rows that are not listed are the removed ones. */
  lemma {:induction false} UnlistedAreRemoved(queue: seq<QueueItem>, ids: set<nat>)
    requires forall i :: 0 <= i < |queue| ==> (queue[i].id in ids <==> queue[i].status != Removed)
    ensures Unknown(queue, ids) == RemovedItems(queue)
  {
    if queue != [] {
      UnlistedAreRemoved(queue[..|queue| - 1], ids);
    }
  }

  lemma {:induction false} IdsTell(s: State)
    requires IdsGiven(s)
    ensures forall i :: 0 <= i < |s.queue| ==>
              (s.queue[i].id in IdsOf(Listed(s.queue)) <==> s.queue[i].status != Removed)
    ensures forall id :: id in IdsOf(Listed(s.queue)) ==> id < s.nextId
  {
    forall id
      ensures id in IdsOf(Listed(s.queue)) <==>
              exists i :: 0 <= i < |s.queue| && s.queue[i].status != Removed && s.queue[i].id == id
    {
      ListedIds(s.queue, id);
    }
    hide Listed, IdsOf;
  }

  /** What a refill reports as added: nothing, or every removed item of the session and then the new ones. */
  lemma {:induction false} ReportedAre(s: State, env: Env)
    requires IdsGiven(s)
    ensures Reported(s, env) == if Drawn(s, env) == 0 then [] else RemovedItems(s.queue) + NewItems(s, env)
  {
    var ids := IdsOf(Listed(s.queue));
    IdsTell(s);
    if Drawn(s, env) == 0 {
      hide Pool, Needed, Items, Drawn;
      NoneUnknown(Listed(s.queue), ids);
    } else {
      ItemsAre(Pool(s, env)[..Drawn(s, env)], s.nextId);
      hide Pool, Needed, Items, Drawn, Listed, IdsOf, IdsGiven;
      UnknownJoin(s.queue, NewItems(s, env), ids);
      AllUnknown(NewItems(s, env), ids);
      UnlistedAreRemoved(s.queue, ids);
    }
  }

  lemma {:induction false} RemovedAre(queue: seq<QueueItem>)
    ensures RemovedItems(queue) == [] <==> forall i :: 0 <= i < |queue| ==> queue[i].status != Removed
  {
    if queue != [] {
      RemovedAre(queue[..|queue| - 1]);
      assert forall i :: 0 <= i < |queue| - 1 ==> queue[..|queue| - 1][i] == queue[i];
    }
  }

  /** The report is what was added exactly when nothing was added or no item of the session is removed. */
  lemma {:induction false} ReportedIff(s: State, env: Env)
    requires IdsGiven(s)
    ensures Reported(s, env) == NewItems(s, env) <==>
            Drawn(s, env) == 0 || forall i :: 0 <= i < |s.queue| ==> s.queue[i].status != Removed
    ensures |Reported(s, env)| == Drawn(s, env) <==> Reported(s, env) == NewItems(s, env)
  {
    ReportedAre(s, env);
    RemovedAre(s.queue);
    NewCount(s, env);
    var removed, added := RemovedItems(s.queue), NewItems(s, env);
    hide *;
    assert removed == [] ==> removed + added == added;
    assert |removed + added| == |removed| + |added|;
  }

  lemma {:induction false} NewCount(s: State, env: Env)
    ensures |NewItems(s, env)| == Drawn(s, env)
  {
    ItemsAre(Pool(s, env)[..Drawn(s, env)], s.nextId);
  }

  lemma {:induction false} OffersItem(s: State, t: TrackId)
    requires Listed(s.queue) == [] && s.pool == []
    ensures Drawn(s, OneTrack(t)) == 1 && NewItems(s, OneTrack(t)) == [QueueItem(s.nextId, t, true, Queued)]
  {
    OffersTrack(s, t);
    NewCount(s, OneTrack(t));
    assert Refilled(s, OneTrack(t)).queue == s.queue + NewItems(s, OneTrack(t));
    hide Listed, OneTrack, Pool, Drawn, NewItems, Refilled;
    SameTail(s.queue, NewItems(s, OneTrack(t)), [QueueItem(s.nextId, t, true, Queued)]);
  }

  /** One removed item and one new one: both are reported as added. */
  lemma {:induction false} RemovedIsReported(t: TrackId, u: TrackId)
    ensures var s := State([QueueItem(0, t, true, Removed)], None, [], 1);
            && IdsGiven(s) && NewItems(s, OneTrack(u)) == [QueueItem(1, u, true, Queued)]
            && Reported(s, OneTrack(u)) == [QueueItem(0, t, true, Removed), QueueItem(1, u, true, Queued)]
  {
    hide OneTrack, Pool, Drawn, Reported, Items, IdsOf, Listed, RemovedItems, NewItems;
    var gone, s := QueueItem(0, t, true, Removed), State([QueueItem(0, t, true, Removed)], None, [], 1);
    ListedGone(gone);
    OffersItem(s, u);
    ReportedAre(s, OneTrack(u));
  }

  lemma {:induction false} SameTail(a: seq<QueueItem>, b: seq<QueueItem>, c: seq<QueueItem>)
    requires a + b == a + c
    ensures b == c
  {
    assert (a + b)[|a|..] == b && (a + c)[|a|..] == c;
  }

  // --------------------------------------------------------------- after a refill

  lemma {:induction false} QueuedJoin(a: seq<QueueItem>, b: seq<QueueItem>)
    ensures QueuedIn(a + b) == QueuedIn(a) + QueuedIn(b)
  {
    if b == [] {
      assert a + b == a;
    } else {
      QueuedJoin(a, b[..|b| - 1]);
      assert (a + b)[..|a + b| - 1] == a + b[..|b| - 1];
    }
  }

  lemma {:induction false} ItemsQueued(items: seq<QueueItem>)
    requires forall i :: 0 <= i < |items| ==> items[i].status == Queued
    ensures QueuedIn(items) == |items|
  {
    if items != [] {
      ItemsQueued(items[..|items| - 1]);
    }
  }

  /** New items do not move the current place. */
  lemma {:induction false} CurrentStays(items: seq<QueueItem>, added: seq<QueueItem>, current: Option<nat>)
    requires items != [] && (current.Some? ==> forall i :: 0 <= i < |added| ==> added[i].id != current.value)
    ensures CurrentIndex(items + added, current) == CurrentIndex(items, current)
  {
    var all := items + added;
    assert forall i :: 0 <= i < |items| ==> all[i] == items[i];
    assert forall i :: |items| <= i < |all| ==> all[i] == added[i - |items|];
    if current.Some? && exists i :: 0 <= i < |items| && items[i].id == current.value {
      FirstJoin(items, added, current.value);
    }
  }

  lemma {:induction false} FirstJoin(items: seq<QueueItem>, added: seq<QueueItem>, id: nat)
    requires exists i :: 0 <= i < |items| && items[i].id == id
    ensures exists i :: 0 <= i < |items + added| && (items + added)[i].id == id
    ensures FirstAt(items + added, id) == FirstAt(items, id)
  {
    var k :| 0 <= k < |items| && items[k].id == id;
    assert (items + added)[k].id == id;
    assert (items + added)[0] == items[0];
    if items[0].id != id {
      assert items[1..][k - 1].id == id;
      assert (items + added)[1..] == items[1..] + added;
      FirstJoin(items[1..], added, id);
    }
  }

  /** New queued items at the end of a list that is not empty all come after the current place. */
  lemma {:induction false} NeededJoin(items: seq<QueueItem>, added: seq<QueueItem>, current: Option<nat>, visible: nat)
    requires items != [] && forall i :: 0 <= i < |added| ==> added[i].status == Queued
    requires current.Some? ==> forall i :: 0 <= i < |added| ==> added[i].id != current.value
    requires |added| <= NeededFor(items, current, visible)
    ensures NeededFor(items + added, current, visible) == NeededFor(items, current, visible) - |added|
  {
    var k := CurrentIndex(items, current);
    CurrentStays(items, added, current);
    assert After(items + added, k) == After(items, k) + added;
    QueuedJoin(After(items, k), added);
    ItemsQueued(added);
    hide CurrentIndex, QueuedIn, After;
  }

  /** In an empty list the first new item takes the current place. */
  lemma {:induction false} NeededFromNothing(added: seq<QueueItem>, current: Option<nat>, visible: nat)
    requires forall i :: 0 <= i < |added| ==> added[i].status == Queued
    requires current.Some? ==> forall i :: 0 <= i < |added| ==> added[i].id != current.value
    requires |added| <= visible
    ensures NeededFor(added, current, visible) == visible - if |added| > 0 then |added| - 1 else 0
  {
    NoCurrent(added, current);
    ItemsQueued(After(added, 0));
    hide CurrentIndex, QueuedIn;
  }

  /**
   What is still needed after a refill. With a queue that lists something, every
   drawn track counts; in an empty queue the first one becomes current and does not.
   */
  lemma {:induction false} NeededAfter(s: State, env: Env)
    requires s.current.Some? ==> s.current.value < s.nextId
    ensures Listed(s.queue) != [] ==> Needed(Refilled(s, env), env.visible) == Needed(s, env.visible) - Drawn(s, env)
    ensures Listed(s.queue) == [] ==>
              Needed(Refilled(s, env), env.visible) == env.visible - if Drawn(s, env) > 0 then Drawn(s, env) - 1 else 0
  {
    hide Pool, Drawn, Listed, Items, NeededFor;
    var items, ts := Listed(s.queue), Pool(s, env)[..Drawn(s, env)];
    var added := Items(ts, s.nextId);
    RefillListed(s, env);
    ItemsAre(ts, s.nextId);
    NothingNeeds(s.current, env.visible);
    if items != [] {
      NeededJoin(items, added, s.current, env.visible);
    } else {
      assert items + added == added;
      NeededFromNothing(added, s.current, env.visible);
    }
  }

  lemma {:induction false} NothingNeeds(current: Option<nat>, visible: nat)
    ensures NeededFor([], current, visible) == visible
  {
  }

  lemma {:induction false} NoCurrent(items: seq<QueueItem>, current: Option<nat>)
    requires current.Some? ==> forall i :: 0 <= i < |items| ==> items[i].id != current.value
    ensures CurrentIndex(items, current) == 0
  {
  }

  /**
   A refill with enough in the pool leaves nothing needed exactly when the queue was
   not empty, or nothing is to be shown.
   */
  lemma {:induction false} RefillSuffices(s: State, env: Env)
    requires (s.current.Some? ==> s.current.value < s.nextId) && Needed(s, env.visible) <= |Pool(s, env)|
    ensures Needed(Refilled(s, env), env.visible) == 0 <==> Listed(s.queue) != [] || env.visible == 0
  {
    NeededAfter(s, env);
    hide Pool, Listed;
    NothingNeeds(s.current, env.visible);
  }

  // --------------------------------------------------------------------- the loops

  /** `_dedupe_pool_items`, with the set of tracks already seen. */
  method DedupeItems(ts: seq<TrackId>) returns (result: seq<TrackId>)
    ensures result == Dedupe(ts)
  {
    result := [];
    var seen: set<TrackId> := {};
    for i := 0 to |ts|
      invariant result == Dedupe(ts[..i])
      invariant forall t :: t in seen <==> t in result
    {
      assert ts[..i + 1][..i] == ts[..i];
      if ts[i] !in seen {
        seen := seen + {ts[i]};
        result := result + [ts[i]];
      }
    }
    assert ts[..|ts|] == ts;
  }

  /** `_valid_autoplay_pool_items`. */
  method ValidPoolItems(s: State, available: set<TrackId>) returns (valid: seq<TrackId>)
    ensures valid == Dedupe(Usable(s.pool, Live(s.queue), available))
  {
    var live := Live(s.queue);
    valid := [];
    for i := 0 to |s.pool|
      invariant valid == Usable(s.pool[..i], live, available)
    {
      assert s.pool[..i + 1][..i] == s.pool[..i];
      if s.pool[i].Entry? {
        if s.pool[i].track !in live && s.pool[i].track in available {
          valid := valid + [s.pool[i].track];
        }
      }
    }
    assert s.pool[..|s.pool|] == s.pool;
    valid := DedupeItems(valid);
  }

  method Keeping(ts: seq<TrackId>, keep: set<TrackId>, drop: set<TrackId>) returns (kept: seq<TrackId>)
    ensures kept == Only(ts, keep, drop)
  {
    kept := [];
    for i := 0 to |ts|
      invariant kept == Only(ts[..i], keep, drop)
    {
      assert ts[..i + 1][..i] == ts[..i];
      if ts[i] in keep && ts[i] !in drop {
        kept := kept + [ts[i]];
      }
    }
    assert ts[..|ts|] == ts;
  }

  /** `generate_autoplay_candidates` from the ranked neighbours on. */
  method GenerateCandidates(s: State, env: Env) returns (generated: seq<TrackId>)
    ensures generated == Generated(s, env)
  {
    var candidates := Keeping(env.ranked, env.available, Live(s.queue) + env.excluded);
    var capped := ApplyAutoplayCaps(s.queue, candidates, env.credits, env.perArtist, env.perRelease);
    generated := capped.kept;
  }

  /** The pool part of `refill_autoplay_queue`. */
  method BuildPool(s: State, env: Env) returns (pool: seq<TrackId>)
    ensures pool == Pool(s, env)
  {
    hide Needed, Generated, Live, Usable, Dedupe, Only;
    var needed := Needed(s, env.visible);
    pool := ValidPoolItems(s, env.available);
    var generated := [];
    if |pool| < needed || |pool| < env.low {
      generated := GenerateCandidates(s, env);
      generated := Keeping(generated, SetOf(generated), SetOf(pool));
    }
    pool := DedupeItems(pool + generated);
    if env.count < |pool| {
      pool := pool[..env.count];
    }
  }

  class Session {
    var queue: seq<QueueItem>
    var current: Option<nat>
    var pool: seq<Entry>
    var nextId: nat

    constructor (s: State)
      ensures Now() == s
    {
      queue, current, pool, nextId := s.queue, s.current, s.pool, s.nextId;
    }

    function Now(): State
      reads this
    {
      State(queue, current, pool, nextId)
    }

    /** `refill_autoplay_queue`; the rows it reports as added. */
    method RefillAutoplayQueue(env: Env) returns (added: seq<QueueItem>)
      modifies this
      ensures Now() == Refilled(old(Now()), env)
      ensures added == Reported(old(Now()), env)
      ensures DistinctTracks(Listed(old(queue))) ==> DistinctTracks(Listed(queue))
    {
      hide Pool, Needed, Listed, Live, DistinctTracks;
      ghost var s := Now();
      var needed := Needed(Now(), env.visible);
      var candidates := BuildPool(Now(), env);
      if DistinctTracks(Listed(queue)) {
        RefillKeepsDistinct(s, env);
      }
      var n := if needed < |candidates| then needed else |candidates|;
      ItemsAre(candidates[..n], nextId);
      var before := IdsOf(Listed(queue));
      var rows := Append(Items(candidates[..n], nextId));
      assert n == 0 ==> queue == s.queue;
      added := NotListed(rows, before);
      pool := Entries(candidates[n..]);
      nextId := nextId + n;
    }

    /** `append_queue_items`. */
    method Append(items: seq<QueueItem>) returns (rows: seq<QueueItem>)
      modifies this`queue
      ensures queue == old(queue) + items
      ensures rows == if items == [] then Listed(queue) else queue
    {
      if items == [] {
        rows := Listed(queue);
      } else {
        queue := queue + items;
        rows := queue;
      }
    }
  }

  method NotListed(rows: seq<QueueItem>, ids: set<nat>) returns (added: seq<QueueItem>)
    ensures added == Unknown(rows, ids)
  {
    added := [];
    for i := 0 to |rows|
      invariant added == Unknown(rows[..i], ids)
    {
      assert rows[..i + 1][..i] == rows[..i];
      if rows[i].id !in ids {
        added := added + [rows[i]];
      }
    }
    assert rows[..|rows|] == rows;
  }
}
