/**
 Choosing and ordering the tracks of generated mixes (app/mixes.py:189-263,
 565-656, 686-706). Scores are settled before: candidates come best first.
 */
module MixSelection {
  import opened Wrappers
  import opened Caps

  datatype Candidate = Candidate(id: TrackId, known: bool, credits: Credits)

  datatype Config = Config(tracks: nat, quota: nat, perArtist: int, perRelease: int, strict: bool)

  function Cap(cfg: Config): Label -> int {
    Limit(cfg.perArtist, cfg.perRelease)
  }

  function LabelsOf(cs: seq<Candidate>): seq<seq<Label>> {
    seq(|cs|, i requires 0 <= i < |cs| => Labels(cs[i].credits))
  }

  function CreditsOf(cs: seq<Candidate>): seq<Credits> {
    seq(|cs|, i requires 0 <= i < |cs| => cs[i].credits)
  }

  lemma {:induction false} LabelsAre(cs: seq<Candidate>)
    ensures LabelsOf(cs) == LabelLists(CreditsOf(cs))
  {
    hide Labels;
  }

  ghost predicate DistinctIds(cs: seq<Candidate>) {
    forall i, j :: 0 <= i < j < |cs| ==> cs[i].id != cs[j].id
  }

  predicate HasId(cs: seq<Candidate>, id: TrackId) {
    exists i :: 0 <= i < |cs| && cs[i].id == id
  }

  function KnownIn(cs: seq<Candidate>): nat {
    if cs == [] then 0 else KnownIn(cs[..|cs| - 1]) + if cs[|cs| - 1].known then 1 else 0
  }

  // ------------------------------------------------------------------ selection

  /** The selection so far; `deferred` are the known tracks beyond the quota. */
  datatype Selection = Selection(picked: seq<Candidate>, counts: Counts, known: nat, deferred: seq<Candidate>,
                                 skippedDuplicate: nat, skippedKnown: nat, skippedArtist: nat, skippedRelease: nat)

  function Nothing(): Selection { Selection([], map[], 0, [], 0, 0, 0, 0) }

  function Picked(s: Selection, c: Candidate): Selection {
    s.(picked := s.picked + [c], counts := Credited(s.counts, Labels(c.credits)),
       known := s.known + if c.known then 1 else 0)
  }

  /** One candidate of the first loop, which ends when the mix is full. */
  function Scan(cfg: Config, used: set<TrackId>, s: Selection, c: Candidate): Selection {
    if |s.picked| >= cfg.tracks then s
    else if cfg.strict && c.id in used then s.(skippedDuplicate := s.skippedDuplicate + 1)
    else if c.known && s.known >= cfg.quota then s.(skippedKnown := s.skippedKnown + 1, deferred := s.deferred + [c])
    else if Blocked(s.counts, ArtistLabels(c.credits), Cap(cfg)) then s.(skippedArtist := s.skippedArtist + 1)
    else if Blocked(s.counts, ReleaseLabels(c.credits), Cap(cfg)) then s.(skippedRelease := s.skippedRelease + 1)
    else Picked(s, c)
  }

  function ScanEach(cfg: Config, used: set<TrackId>, cs: seq<Candidate>): Selection {
    if cs == [] then Nothing() else Scan(cfg, used, ScanEach(cfg, used, cs[..|cs| - 1]), cs[|cs| - 1])
  }

  /** One deferred track of the second loop. */
  function Fill(cfg: Config, used: set<TrackId>, s: Selection, c: Candidate): Selection {
    if |s.picked| >= cfg.tracks || (cfg.strict && c.id in used) || HasId(s.picked, c.id)
        || Blocked(s.counts, Labels(c.credits), Cap(cfg))
    then s else Picked(s, c)
  }

  function FillEach(cfg: Config, used: set<TrackId>, s: Selection, ds: seq<Candidate>): Selection {
    if ds == [] then s else Fill(cfg, used, FillEach(cfg, used, s, ds[..|ds| - 1]), ds[|ds| - 1])
  }

  function Select(cfg: Config, used: set<TrackId>, cs: seq<Candidate>): Selection {
    FillEach(cfg, used, ScanEach(cfg, used, cs), ScanEach(cfg, used, cs).deferred)
  }

  // ------------------------------------------------------------ what it respects

  /** The counters are those of the picked tracks, each of which was free of capped labels when it was picked. */
  ghost predicate Sound(cfg: Config, s: Selection) {
    s.counts == CreditedEach(map[], LabelsOf(s.picked)) && Admitted(map[], LabelsOf(s.picked), Cap(cfg))
  }

  lemma {:induction false} LabelsOfStep(cs: seq<Candidate>, c: Candidate)
    ensures LabelsOf(cs + [c]) == LabelsOf(cs) + [Labels(c.credits)]
  {
  }

  lemma {:induction false} PickedSound(cfg: Config, s: Selection, c: Candidate)
    requires Sound(cfg, s) && !Blocked(s.counts, Labels(c.credits), Cap(cfg))
    ensures Sound(cfg, Picked(s, c))
  {
    LabelsOfStep(s.picked, c);
    var tracks := LabelsOf(s.picked);
    AdmitOne(map[], tracks, Labels(c.credits), Cap(cfg));
    assert (tracks + [Labels(c.credits)])[..|tracks|] == tracks;
  }

  lemma {:induction false} ScanSound(cfg: Config, used: set<TrackId>, cs: seq<Candidate>)
    ensures Sound(cfg, ScanEach(cfg, used, cs))
  {
    if cs != [] {
      hide Sound, Blocked;
      ScanSound(cfg, used, cs[..|cs| - 1]);
      var s, c := ScanEach(cfg, used, cs[..|cs| - 1]), cs[|cs| - 1];
      BlockedParts(s.counts, c.credits, Cap(cfg));
      if !Blocked(s.counts, Labels(c.credits), Cap(cfg)) {
        PickedSound(cfg, s, c);
      }
      SoundOfPicks(cfg, s, Scan(cfg, used, s, c));
    }
  }

  lemma {:induction false} SoundOfPicks(cfg: Config, s: Selection, t: Selection)
    requires Sound(cfg, s)
    ensures t.picked == s.picked && t.counts == s.counts ==> Sound(cfg, t)
  {
  }

  lemma {:induction false} FillSound(cfg: Config, used: set<TrackId>, s: Selection, ds: seq<Candidate>)
    requires Sound(cfg, s)
    ensures Sound(cfg, FillEach(cfg, used, s, ds))
  {
    if ds != [] {
      FillSound(cfg, used, s, ds[..|ds| - 1]);
      var t, c := FillEach(cfg, used, s, ds[..|ds| - 1]), ds[|ds| - 1];
      if !Blocked(t.counts, Labels(c.credits), Cap(cfg)) {
        PickedSound(cfg, t, c);
      }
    }
  }

  /** Every artist and release stays within its cap over the whole selection. */
  lemma {:induction false} SelectionWithinCaps(cfg: Config, used: set<TrackId>, cs: seq<Candidate>)
    ensures CapsKept(CreditsOf(Select(cfg, used, cs).picked), cfg.perArtist, cfg.perRelease)
  {
    ScanSound(cfg, used, cs);
    FillSound(cfg, used, ScanEach(cfg, used, cs), ScanEach(cfg, used, cs).deferred);
    var picked := Select(cfg, used, cs).picked;
    hide Select, Admitted, Labels, CapsKept;
    LabelsAre(picked);
    AdmittedKeepCaps(CreditsOf(picked), cfg.perArtist, cfg.perRelease);
  }

  /** A track is blocked by a selection when one of its artists or its release is at the cap there. */
  lemma {:induction false} BlockedBy(cfg: Config, s: Selection, c: Candidate)
    requires Sound(cfg, s)
    ensures Blocked(s.counts, Labels(c.credits), Cap(cfg)) <==>
            AtCap(CreditsOf(s.picked), c.credits, cfg.perArtist, cfg.perRelease)
  {
    hide Blocked, AtCap, Admitted, LabelLists, Limit;
    LabelsAre(s.picked);
    BlockedIff(CreditsOf(s.picked), c.credits, cfg.perArtist, cfg.perRelease);
  }

  /** What the first loop picks and defers. */
  ghost predicate ScanShape(cfg: Config, used: set<TrackId>, cs: seq<Candidate>, s: Selection) {
    && (forall c :: c in s.picked ==> c in cs && !(cfg.strict && c.id in used))
    && (forall c :: c in s.deferred ==> c in cs && c.known)
    && |s.picked| <= cfg.tracks && s.known == KnownIn(s.picked) <= cfg.quota
  }

  lemma {:induction false} KnownStep(cs: seq<Candidate>, c: Candidate)
    ensures KnownIn(cs + [c]) == KnownIn(cs) + if c.known then 1 else 0
  {
    assert (cs + [c])[..|cs|] == cs;
  }

  lemma {:induction false} ScanKnownStep(cfg: Config, used: set<TrackId>, s: Selection, c: Candidate)
    requires |s.picked| <= cfg.tracks && s.known == KnownIn(s.picked) <= cfg.quota
    ensures var t := Scan(cfg, used, s, c);
            |t.picked| <= cfg.tracks && t.known == KnownIn(t.picked) <= cfg.quota
  {
    hide Blocked, Credited, Labels, ArtistLabels, ReleaseLabels;
    KnownStep(s.picked, c);
    hide KnownIn;
  }

  lemma {:induction false} ScanKnown(cfg: Config, used: set<TrackId>, cs: seq<Candidate>)
    ensures var s := ScanEach(cfg, used, cs);
            |s.picked| <= cfg.tracks && s.known == KnownIn(s.picked) <= cfg.quota
  {
    if cs != [] {
      hide Scan, KnownIn;
      ScanKnown(cfg, used, cs[..|cs| - 1]);
      ScanKnownStep(cfg, used, ScanEach(cfg, used, cs[..|cs| - 1]), cs[|cs| - 1]);
    }
  }

  lemma {:induction false} ScanMembersStep(cfg: Config, used: set<TrackId>, s: Selection, d: Candidate)
    ensures var t := Scan(cfg, used, s, d);
            && (forall c :: c in t.picked ==> c in s.picked || (c == d && !(cfg.strict && c.id in used)))
            && (forall c :: c in t.deferred ==> c in s.deferred || (c == d && c.known))
  {
    hide Blocked, Credited, Labels, ArtistLabels, ReleaseLabels;
  }

  lemma {:induction false} ScanMembers(cfg: Config, used: set<TrackId>, cs: seq<Candidate>)
    ensures var s := ScanEach(cfg, used, cs);
            && (forall c :: c in s.picked ==> c in cs && !(cfg.strict && c.id in used))
            && (forall c :: c in s.deferred ==> c in cs && c.known)
  {
    if cs != [] {
      hide Scan;
      var front, d := cs[..|cs| - 1], cs[|cs| - 1];
      ScanMembers(cfg, used, front);
      ScanMembersStep(cfg, used, ScanEach(cfg, used, front), d);
      assert cs == front + [d];
    }
  }

  lemma {:induction false} ScanShapes(cfg: Config, used: set<TrackId>, cs: seq<Candidate>)
    ensures ScanShape(cfg, used, cs, ScanEach(cfg, used, cs))
  {
    ScanKnown(cfg, used, cs);
    ScanMembers(cfg, used, cs);
  }

  /** A candidate the first loop was done with: picked, excluded, deferred or blocked for good. */
  ghost predicate Decided(cfg: Config, used: set<TrackId>, s: Selection, c: Candidate) {
    c in s.picked || (cfg.strict && c.id in used) || c in s.deferred || Blocked(s.counts, Labels(c.credits), Cap(cfg))
  }

  lemma {:induction false} StaysDecided(cfg: Config, used: set<TrackId>, s: Selection, d: Candidate, c: Candidate)
    requires Decided(cfg, used, s, c)
    ensures Decided(cfg, used, Scan(cfg, used, s, d), c)
  {
    if Blocked(s.counts, Labels(c.credits), Cap(cfg)) {
      BlockedStays(s.counts, [Labels(d.credits)], Labels(c.credits), Cap(cfg));
      CreditedOnce(s.counts, Labels(d.credits));
    }
    hide Blocked, Credited;
  }

  lemma {:induction false} ScanDecides(cfg: Config, used: set<TrackId>, cs: seq<Candidate>, c: Candidate)
    requires c in cs && |ScanEach(cfg, used, cs).picked| < cfg.tracks
    ensures Decided(cfg, used, ScanEach(cfg, used, cs), c)
  {
    var front, last := cs[..|cs| - 1], cs[|cs| - 1];
    var s := ScanEach(cfg, used, front);
    if c == last {
      BlockedParts(s.counts, c.credits, Cap(cfg));
    } else {
      assert c in front by {
        assert cs == front + [last];
      }
      ScanDecides(cfg, used, front, c);
      StaysDecided(cfg, used, s, last, c);
    }
  }

  lemma {:induction false} FillGrows(cfg: Config, used: set<TrackId>, s: Selection, ds: seq<Candidate>)
    ensures s.picked <= FillEach(cfg, used, s, ds).picked
    ensures |s.picked| >= cfg.tracks ==> FillEach(cfg, used, s, ds) == s
    ensures forall c: Candidate :: Blocked(s.counts, Labels(c.credits), Cap(cfg)) ==>
            Blocked(FillEach(cfg, used, s, ds).counts, Labels(c.credits), Cap(cfg))
    ensures forall c :: c in FillEach(cfg, used, s, ds).picked ==>
            c in s.picked || (c in ds && !(cfg.strict && c.id in used))
  {
    if ds != [] {
      var n := |ds| - 1;
      var t, d := FillEach(cfg, used, s, ds[..n]), ds[n];
      FillGrows(cfg, used, s, ds[..n]);
      assert ds == ds[..n] + [d];
      CreditedOnce(t.counts, Labels(d.credits));
      forall c: Candidate | Blocked(t.counts, Labels(c.credits), Cap(cfg))
          ensures Blocked(Fill(cfg, used, t, d).counts, Labels(c.credits), Cap(cfg)) {
        BlockedStays(t.counts, [Labels(d.credits)], Labels(c.credits), Cap(cfg));
      }
    }
  }

  /** A deferred track the second loop was done with: chosen, excluded or blocked for good. */
  ghost predicate FillDecided(cfg: Config, used: set<TrackId>, t: Selection, c: Candidate) {
    HasId(t.picked, c.id) || (cfg.strict && c.id in used) || Blocked(t.counts, Labels(c.credits), Cap(cfg))
  }

  lemma {:induction false} FillStaysDecided(cfg: Config, used: set<TrackId>, t: Selection, d: Candidate, c: Candidate)
    requires FillDecided(cfg, used, t, c)
    ensures FillDecided(cfg, used, Fill(cfg, used, t, d), c)
  {
    CreditedOnce(t.counts, Labels(d.credits));
    if Blocked(t.counts, Labels(c.credits), Cap(cfg)) {
      BlockedStays(t.counts, [Labels(d.credits)], Labels(c.credits), Cap(cfg));
    }
    hide Blocked, Credited;
    if HasId(t.picked, c.id) {
      var i :| 0 <= i < |t.picked| && t.picked[i].id == c.id;
      assert Fill(cfg, used, t, d).picked[i].id == c.id;
    }
  }

  lemma {:induction false} FillDecidesOwn(cfg: Config, used: set<TrackId>, t: Selection, c: Candidate)
    requires |Fill(cfg, used, t, c).picked| < cfg.tracks
    ensures FillDecided(cfg, used, Fill(cfg, used, t, c), c)
  {
    hide Blocked, Credited;
    if !FillDecided(cfg, used, t, c) && |t.picked| < cfg.tracks {
      assert Picked(t, c).picked[|t.picked|].id == c.id;
    }
  }

  lemma {:induction false} FillDecides(cfg: Config, used: set<TrackId>, s: Selection, ds: seq<Candidate>, c: Candidate)
    requires c in ds && |FillEach(cfg, used, s, ds).picked| < cfg.tracks
    ensures FillDecided(cfg, used, FillEach(cfg, used, s, ds), c)
  {
    var n := |ds| - 1;
    var t, d := FillEach(cfg, used, s, ds[..n]), ds[n];
    FillRoom(cfg, used, t, d);
    hide Fill, FillDecided;
    if c == d {
      FillDecidesOwn(cfg, used, t, c);
    } else {
      assert c in ds[..n] by {
        assert ds == ds[..n] + [d];
      }
      FillDecides(cfg, used, s, ds[..n], c);
      FillStaysDecided(cfg, used, t, d, c);
    }
  }

  lemma {:induction false} FillRoom(cfg: Config, used: set<TrackId>, t: Selection, d: Candidate)
    ensures |t.picked| <= |Fill(cfg, used, t, d).picked|
  {
    hide Blocked, Credited;
  }

  /** An unfilled mix is maximal: whatever was left out is excluded or blocked by what was chosen. */
  lemma {:induction false} SelectionIsMaximal(cfg: Config, used: set<TrackId>, cs: seq<Candidate>, c: Candidate)
    requires DistinctIds(cs) && c in cs && |Select(cfg, used, cs).picked| < cfg.tracks
    ensures var picked := Select(cfg, used, cs).picked;
            || c in picked || (cfg.strict && c.id in used)
            || AtCap(CreditsOf(picked), c.credits, cfg.perArtist, cfg.perRelease)
  {
    hide AtCap;
    var s, t := ScanEach(cfg, used, cs), Select(cfg, used, cs);
    FillGrows(cfg, used, s, s.deferred);
    ScanSound(cfg, used, cs);
    FillSound(cfg, used, s, s.deferred);
    ScanShapes(cfg, used, cs);
    ScanDecides(cfg, used, cs, c);
    BlockedBy(cfg, t, c);
    if c in s.deferred {
      FillDecides(cfg, used, s, s.deferred, c);
      if HasId(t.picked, c.id) {
        var i :| 0 <= i < |t.picked| && t.picked[i].id == c.id;
        assert t.picked[i] in t.picked;
        SameCandidate(cs, t.picked[i], c);
      }
    }
  }

  lemma {:induction false} SameCandidate(cs: seq<Candidate>, c: Candidate, d: Candidate)
    requires DistinctIds(cs) && c in cs && d in cs && c.id == d.id
    ensures c == d
  {
    var i :| 0 <= i < |cs| && cs[i] == c;
    var j :| 0 <= j < |cs| && cs[j] == d;
    assert i == j;
  }

  /** Known tracks beyond the quota come only after every new track was chosen, excluded or blocked. */
  lemma {:induction false} DiscoveryFirst(cfg: Config, used: set<TrackId>, cs: seq<Candidate>, c: Candidate)
    requires c in cs && !c.known && KnownIn(Select(cfg, used, cs).picked) > cfg.quota
    ensures var picked := Select(cfg, used, cs).picked;
            || c in picked || (cfg.strict && c.id in used)
            || AtCap(CreditsOf(picked), c.credits, cfg.perArtist, cfg.perRelease)
  {
    hide AtCap;
    var s := ScanEach(cfg, used, cs);
    ScanSound(cfg, used, cs);
    FillSound(cfg, used, s, s.deferred);
    BlockedBy(cfg, Select(cfg, used, cs), c);
    ScanShapes(cfg, used, cs);
    FillGrows(cfg, used, s, s.deferred);
    ScanDecides(cfg, used, cs, c);
  }

  /** A selection holds candidates only, none of them excluded, and never more than the mix has room for. */
  lemma {:induction false} SelectionIsChosen(cfg: Config, used: set<TrackId>, cs: seq<Candidate>)
    ensures var t := Select(cfg, used, cs);
            && |t.picked| <= cfg.tracks
            && forall c :: c in t.picked ==> c in cs && !(cfg.strict && c.id in used)
  {
    var s := ScanEach(cfg, used, cs);
    ScanShapes(cfg, used, cs);
    FillGrows(cfg, used, s, s.deferred);
    FillFits(cfg, used, s, s.deferred);
  }

  lemma {:induction false} FillFits(cfg: Config, used: set<TrackId>, s: Selection, ds: seq<Candidate>)
    requires |s.picked| <= cfg.tracks
    ensures |FillEach(cfg, used, s, ds).picked| <= cfg.tracks
  {
    if ds != [] {
      FillFits(cfg, used, s, ds[..|ds| - 1]);
    }
  }

  /** While the mix is not full every scanned candidate is picked or counted under one reason. */
  lemma {:induction false} ScanAccounts(cfg: Config, used: set<TrackId>, cs: seq<Candidate>)
    ensures var s := ScanEach(cfg, used, cs);
            var counted := |s.picked| + s.skippedDuplicate + s.skippedKnown + s.skippedArtist + s.skippedRelease;
            && counted <= |cs| && (|s.picked| < cfg.tracks ==> counted == |cs|)
            && s.skippedKnown == |s.deferred|
  {
    if cs != [] {
      hide Blocked, Credited;
      ScanAccounts(cfg, used, cs[..|cs| - 1]);
    }
  }

  lemma {:induction false} NotPickedYet(cfg: Config, used: set<TrackId>, cs: seq<Candidate>)
    requires DistinctIds(cs) && cs != []
    ensures forall c :: c in ScanEach(cfg, used, cs[..|cs| - 1]).picked ==> c.id != cs[|cs| - 1].id
  {
    var n := |cs| - 1;
    ScanMembers(cfg, used, cs[..n]);
    hide ScanEach;
    forall c | c in ScanEach(cfg, used, cs[..n]).picked ensures c.id != cs[n].id {
      var j :| 0 <= j < n && cs[..n][j] == c;
      assert cs[j].id != cs[n].id;
    }
  }

  lemma {:induction false} PickDistinct(cfg: Config, used: set<TrackId>, s: Selection, c: Candidate)
    requires DistinctIds(s.picked) && forall d :: d in s.picked ==> d.id != c.id
    ensures DistinctIds(Scan(cfg, used, s, c).picked)
  {
    hide Blocked, Credited;
  }

  lemma {:induction false} ScanDistinct(cfg: Config, used: set<TrackId>, cs: seq<Candidate>)
    requires DistinctIds(cs)
    ensures DistinctIds(ScanEach(cfg, used, cs).picked)
  {
    if cs != [] {
      hide Scan;
      ScanDistinct(cfg, used, cs[..|cs| - 1]);
      NotPickedYet(cfg, used, cs);
      PickDistinct(cfg, used, ScanEach(cfg, used, cs[..|cs| - 1]), cs[|cs| - 1]);
    }
  }

  lemma {:induction false} FillDistinct(cfg: Config, used: set<TrackId>, s: Selection, ds: seq<Candidate>)
    requires DistinctIds(s.picked)
    ensures DistinctIds(FillEach(cfg, used, s, ds).picked)
  {
    if ds != [] {
      hide Blocked, Credited;
      FillDistinct(cfg, used, s, ds[..|ds| - 1]);
    }
  }

  /** No track is in a mix twice. */
  lemma {:induction false} SelectionDistinct(cfg: Config, used: set<TrackId>, cs: seq<Candidate>)
    requires DistinctIds(cs)
    ensures DistinctIds(Select(cfg, used, cs).picked)
  {
    ScanDistinct(cfg, used, cs);
    FillDistinct(cfg, used, ScanEach(cfg, used, cs), ScanEach(cfg, used, cs).deferred);
  }

  // ------------------------------------------------------------------- the loops

  /** The selection loops of `_generate_region_items`. */
  method GenerateRegionItems(cfg: Config, used: set<TrackId>, cs: seq<Candidate>) returns (s: Selection)
    requires cfg.tracks > 0
    ensures s == Select(cfg, used, cs)
  {
    hide Blocked, Credited, Fill, Scan;
    s := ScanCandidates(cfg, used, cs);
    var deferred := s.deferred;
    ghost var first := s;
    var i := 0;
    while i < |deferred| && |s.picked| < cfg.tracks
      invariant 0 <= i <= |deferred| && s == FillEach(cfg, used, first, deferred[..i])
    {
      assert deferred[..i + 1][..i] == deferred[..i];
      s := FillOne(cfg, used, s, deferred[i]);
      i := i + 1;
    }
    RestUnfilled(cfg, used, first, deferred, i);
  }

  /** Once the mix is full the rest of the deferred tracks changes nothing. */
  lemma {:induction false} RestUnfilled(cfg: Config, used: set<TrackId>, s: Selection, ds: seq<Candidate>, i: nat)
    requires i <= |ds| && (i < |ds| ==> |FillEach(cfg, used, s, ds[..i]).picked| >= cfg.tracks)
    ensures FillEach(cfg, used, s, ds) == FillEach(cfg, used, s, ds[..i])
    decreases |ds| - i
  {
    hide Blocked, Credited;
    if i == |ds| {
      assert ds[..i] == ds;
    } else {
      assert ds[..i + 1][..i] == ds[..i];
      RestUnfilled(cfg, used, s, ds, i + 1);
    }
  }

  method FillOne(cfg: Config, used: set<TrackId>, s: Selection, c: Candidate) returns (t: Selection)
    requires |s.picked| < cfg.tracks
    ensures t == Fill(cfg, used, s, c)
  {
    t := s;
    if cfg.strict && c.id in used {
      return;
    }
    if exists i :: 0 <= i < |s.picked| && s.picked[i].id == c.id {
      return;
    }
    BlockedParts(s.counts, c.credits, Cap(cfg));
    if Blocked(s.counts, ArtistLabels(c.credits), Cap(cfg)) || Blocked(s.counts, ReleaseLabels(c.credits), Cap(cfg)) {
      return;
    }
    t := Picked(s, c);
  }

  /** The first loop; it leaves as soon as the mix is full. */
  method ScanCandidates(cfg: Config, used: set<TrackId>, cs: seq<Candidate>) returns (s: Selection)
    requires cfg.tracks > 0
    ensures s == ScanEach(cfg, used, cs)
  {
    hide Blocked, Credited, Scan;
    s := Nothing();
    var i := 0;
    while i < |cs|
      invariant 0 <= i <= |cs| && s == ScanEach(cfg, used, cs[..i])
      invariant |s.picked| < cfg.tracks
    {
      assert cs[..i + 1][..i] == cs[..i];
      s := ScanOne(cfg, used, s, cs[i]);
      i := i + 1;
      if |s.picked| >= cfg.tracks {
        break;
      }
    }
    RestUnscanned(cfg, used, cs, i);
  }

  lemma {:induction false} RestUnscanned(cfg: Config, used: set<TrackId>, cs: seq<Candidate>, i: nat)
    requires i <= |cs| && (i < |cs| ==> |ScanEach(cfg, used, cs[..i]).picked| >= cfg.tracks)
    ensures ScanEach(cfg, used, cs) == ScanEach(cfg, used, cs[..i])
    decreases |cs| - i
  {
    hide Blocked, Credited;
    if i == |cs| {
      assert cs[..i] == cs;
    } else {
      assert cs[..i + 1][..i] == cs[..i];
      RestUnscanned(cfg, used, cs, i + 1);
    }
  }

  method ScanOne(cfg: Config, used: set<TrackId>, s: Selection, c: Candidate) returns (t: Selection)
    requires |s.picked| < cfg.tracks
    ensures t == Scan(cfg, used, s, c)
  {
    if cfg.strict && c.id in used {
      return s.(skippedDuplicate := s.skippedDuplicate + 1);
    }
    if c.known && s.known >= cfg.quota {
      return s.(skippedKnown := s.skippedKnown + 1, deferred := s.deferred + [c]);
    }
    if Blocked(s.counts, ArtistLabels(c.credits), Cap(cfg)) {
      return s.(skippedArtist := s.skippedArtist + 1);
    }
    if Blocked(s.counts, ReleaseLabels(c.credits), Cap(cfg)) {
      return s.(skippedRelease := s.skippedRelease + 1);
    }
    t := Picked(s, c);
  }

  // -------------------------------------------------------------------- sequence

  /** What the next track is compared with. */
  datatype Last = Last(artists: set<nat>, release: Option<nat>)

  function LastOf(c: Candidate): Last {
    Last(set i | 0 <= i < |c.credits.artists| :: c.credits.artists[i], c.credits.release)
  }

  /** A shared artist, or the same release; two absent releases are the same. */
  predicate Conflicts(last: Last, c: Candidate) {
    !(LastOf(c).artists !! last.artists) || c.credits.release == last.release
  }

  /** The first track that does not conflict, or the first one. */
  function FirstFit(cs: seq<Candidate>, last: Last, i: nat): (k: nat)
    requires cs != [] && i <= |cs|
    ensures k < |cs|
    decreases |cs| - i
  {
    if i == |cs| then 0 else if !Conflicts(last, cs[i]) then i else FirstFit(cs, last, i + 1)
  }

  lemma {:induction false} FirstFitConflicts(cs: seq<Candidate>, last: Last, i: nat)
    requires cs != [] && i <= |cs| && Conflicts(last, cs[FirstFit(cs, last, i)])
    ensures forall j :: i <= j < |cs| ==> Conflicts(last, cs[j])
    decreases |cs| - i
  {
    if i < |cs| {
      if Conflicts(last, cs[i]) {
        FirstFitConflicts(cs, last, i + 1);
      }
    }
  }

  function Without<T>(s: seq<T>, i: nat): seq<T>
    requires i < |s|
  {
    s[..i] + s[i + 1..]
  }

  function Sequence(cs: seq<Candidate>, last: Last): (out: seq<Candidate>)
    ensures |out| == |cs|
    decreases |cs|
  {
    if cs == [] then []
    else
      var k := FirstFit(cs, last, 0);
      [cs[k]] + Sequence(Without(cs, k), LastOf(cs[k]))
  }

  lemma {:induction false} WithoutPermutes<T>(s: seq<T>, i: nat)
    requires i < |s|
    ensures multiset(s) == multiset{s[i]} + multiset(Without(s, i))
  {
    assert s == s[..i] + [s[i]] + s[i + 1..];
  }

  /** Sequencing only reorders. */
  lemma {:induction false} SequencePermutes(cs: seq<Candidate>, last: Last)
    ensures multiset(Sequence(cs, last)) == multiset(cs)
    decreases |cs|
  {
    if cs != [] {
      var k := FirstFit(cs, last, 0);
      SequencePermutes(Without(cs, k), LastOf(cs[k]));
      WithoutPermutes(cs, k);
    }
  }

  ghost function Before(out: seq<Candidate>, last: Last, k: nat): Last
    requires k < |out|
  {
    if k == 0 then last else LastOf(out[k - 1])
  }

  /** A track conflicts with the one before it only if every later track would have. */
  lemma {:induction false} ConflictsAreForced(cs: seq<Candidate>, last: Last, k: nat, j: nat)
    requires k <= j < |cs| && Conflicts(Before(Sequence(cs, last), last, k), Sequence(cs, last)[k])
    ensures Conflicts(Before(Sequence(cs, last), last, k), Sequence(cs, last)[j])
    decreases |cs|
  {
    var i := FirstFit(cs, last, 0);
    var rest := Sequence(Without(cs, i), LastOf(cs[i]));
    if k == 0 {
      FirstFitConflicts(cs, last, 0);
      SequencePermutes(cs, last);
      InSequence(cs, last, j);
    } else {
      assert Before(Sequence(cs, last), last, k) == Before(rest, LastOf(cs[i]), k - 1);
      ConflictsAreForced(Without(cs, i), LastOf(cs[i]), k - 1, j - 1);
    }
  }

  lemma {:induction false} InSequence(cs: seq<Candidate>, last: Last, j: nat)
    requires j < |cs|
    ensures exists i :: 0 <= i < |cs| && cs[i] == Sequence(cs, last)[j]
  {
    SequencePermutes(cs, last);
    assert Sequence(cs, last)[j] in multiset(Sequence(cs, last));
    assert Sequence(cs, last)[j] in multiset(cs);
  }

  datatype Placed = Placed(position: nat, track: Candidate)

  /** `_sequence_items`. */
  method SequenceItems(items: seq<Candidate>) returns (sequenced: seq<Placed>)
    ensures |sequenced| == |items|
    ensures forall k :: 0 <= k < |items| ==> sequenced[k] == Placed(k, Sequence(items, Last({}, None))[k])
  {
    var remaining, last := items, Last({}, None);
    sequenced := [];
    while remaining != []
      invariant |sequenced| + |remaining| == |items|
      invariant forall k :: 0 <= k < |sequenced| ==> sequenced[k] == Placed(k, Sequence(items, Last({}, None))[k])
      invariant Sequence(items, Last({}, None))[|sequenced|..] == Sequence(remaining, last)
      decreases |remaining|
    {
      var chosen := ChooseNext(remaining, last);
      ghost var out := Sequence(items, Last({}, None));
      assert out[|sequenced|] == out[|sequenced|..][0] == remaining[chosen];
      assert out[|sequenced| + 1..] == out[|sequenced|..][1..];
      sequenced := sequenced + [Placed(|sequenced|, remaining[chosen])];
      last := LastOf(remaining[chosen]);
      remaining := Without(remaining, chosen);
    }
  }

  /** The inner loop of `_sequence_items`. */
  method ChooseNext(remaining: seq<Candidate>, last: Last) returns (chosen: nat)
    requires remaining != []
    ensures chosen == FirstFit(remaining, last, 0)
  {
    chosen := 0;
    for index := 0 to |remaining|
      invariant chosen == 0 && FirstFit(remaining, last, 0) == FirstFit(remaining, last, index)
    {
      var item := remaining[index];
      if LastOf(item).artists !! last.artists && item.credits.release != last.release {
        chosen := index;
        break;
      }
    }
  }

  // ------------------------------------------------------------------ generation

  ghost function IdsOf(mix: seq<Placed>): set<TrackId> {
    set i | 0 <= i < |mix| :: mix[i].track.id
  }

  ghost predicate Disjoint(mixes: seq<seq<Placed>>) {
    forall i, j :: 0 <= i < j < |mixes| ==> IdsOf(mixes[i]) !! IdsOf(mixes[j])
  }

  ghost function AllIds(mixes: seq<seq<Placed>>): set<TrackId> {
    if mixes == [] then {} else AllIds(mixes[..|mixes| - 1]) + IdsOf(mixes[|mixes| - 1])
  }

  ghost function Sizes(mixes: seq<seq<Placed>>): nat {
    if mixes == [] then 0 else Sizes(mixes[..|mixes| - 1]) + |mixes[|mixes| - 1]|
  }

  lemma {:induction false} MemberIds(mixes: seq<seq<Placed>>, i: nat)
    requires i < |mixes|
    ensures IdsOf(mixes[i]) <= AllIds(mixes)
  {
    if i < |mixes| - 1 {
      MemberIds(mixes[..|mixes| - 1], i);
    }
  }

  /** One more mix that shares no track with the ones before. */
  lemma {:induction false} DisjointStep(mixes: seq<seq<Placed>>, mix: seq<Placed>)
    requires Disjoint(mixes) && IdsOf(mix) !! AllIds(mixes)
    ensures Disjoint(mixes + [mix])
    ensures AllIds(mixes + [mix]) == AllIds(mixes) + IdsOf(mix) && Sizes(mixes + [mix]) == Sizes(mixes) + |mix|
  {
    var all := mixes + [mix];
    assert all[..|mixes|] == mixes;
    forall i, j | 0 <= i < j < |all| ensures IdsOf(all[i]) !! IdsOf(all[j]) {
      if j == |mixes| {
        MemberIds(mixes, i);
      } else {
        assert IdsOf(mixes[i]) !! IdsOf(mixes[j]);
      }
    }
  }

  /** A mix of distinct tracks has as many ids as tracks. */
  lemma {:induction false} IdsCount(mix: seq<Placed>)
    requires forall i, j :: 0 <= i < j < |mix| ==> mix[i].track.id != mix[j].track.id
    ensures |IdsOf(mix)| == |mix|
  {
    if mix != [] {
      var n := |mix| - 1;
      IdsCount(mix[..n]);
      assert forall i :: 0 <= i < n ==> mix[..n][i] == mix[i];
      assert IdsOf(mix) == IdsOf(mix[..n]) + {mix[n].track.id};
      assert mix[n].track.id !in IdsOf(mix[..n]);
    }
  }

  /** The ids of a sequenced selection are those of the selection. */
  lemma {:induction false} SequencedIds(picked: seq<Candidate>, mix: seq<Placed>)
    requires DistinctIds(picked) && |mix| == |picked|
    requires forall k :: 0 <= k < |picked| ==> mix[k] == Placed(k, Sequence(picked, Last({}, None))[k])
    ensures |IdsOf(mix)| == |mix|
    ensures forall id :: id in IdsOf(mix) ==> exists c :: c in picked && c.id == id
  {
    var out := Sequence(picked, Last({}, None));
    SequencePermutes(picked, Last({}, None));
    SortedDistinct(picked, out);
    IdsCount(mix);
    forall id | id in IdsOf(mix) ensures exists c :: c in picked && c.id == id {
      var k :| 0 <= k < |mix| && mix[k].track.id == id;
      assert out[k] in multiset(out);
      assert out[k] in multiset(picked);
    }
  }

  lemma {:induction false} SortedDistinct(cs: seq<Candidate>, out: seq<Candidate>)
    requires DistinctIds(cs) && multiset(out) == multiset(cs)
    ensures DistinctIds(out)
  {
    forall i, j | 0 <= i < j < |out| ensures out[i].id != out[j].id {
      assert out[i] in multiset(out) && out[j] in multiset(out);
      var a :| 0 <= a < |cs| && cs[a] == out[i];
      var b :| 0 <= b < |cs| && cs[b] == out[j];
      if a == b {
        Once(cs, a);
        Twice(out, i, j);
      }
    }
  }

  lemma {:induction false} Twice<T>(s: seq<T>, i: nat, j: nat)
    requires i < j < |s| && s[i] == s[j]
    ensures multiset(s)[s[i]] >= 2
  {
    assert s == s[..i] + [s[i]] + s[i + 1..j] + [s[j]] + s[j + 1..];
  }

  lemma {:induction false} Once(cs: seq<Candidate>, i: nat)
    requires DistinctIds(cs) && i < |cs|
    ensures multiset(cs)[cs[i]] == 1
  {
    assert cs == cs[..i] + [cs[i]] + cs[i + 1..];
    assert cs[i] !in cs[..i] && cs[i] !in cs[i + 1..];
  }

  /** A region's mix: its selection in sequence, with positions from zero. */
  function MixOf(cfg: Config, used: set<TrackId>, cs: seq<Candidate>): (mix: seq<Placed>)
    ensures |mix| == |Select(cfg, used, cs).picked|
  {
    var out := Sequence(Select(cfg, used, cs).picked, Last({}, None));
    seq(|out|, k requires 0 <= k < |out| => Placed(k, out[k]))
  }

  /** The tracks used after the first `n` regions. */
  ghost function UsedAfter(cfg: Config, candidatesOf: (nat, set<TrackId>) -> seq<Candidate>, n: nat): set<TrackId> {
    if n == 0 then {}
    else
      var used := UsedAfter(cfg, candidatesOf, n - 1);
      if cfg.strict then used + IdsOf(MixOf(cfg, used, candidatesOf(n - 1, used))) else used
  }

  /** The mix of a region, which avoids what the regions before it used. */
  ghost function MixAt(cfg: Config, candidatesOf: (nat, set<TrackId>) -> seq<Candidate>, region: nat): seq<Placed> {
    var used := UsedAfter(cfg, candidatesOf, region);
    MixOf(cfg, used, candidatesOf(region, used))
  }

  /** The mixes of the first `n` regions, without the empty ones. */
  ghost function SavedAfter(cfg: Config, candidatesOf: (nat, set<TrackId>) -> seq<Candidate>,
                            n: nat): seq<seq<Placed>> {
    if n == 0 then []
    else
      var mix := MixAt(cfg, candidatesOf, n - 1);
      SavedAfter(cfg, candidatesOf, n - 1) + if mix == [] then [] else [mix]
  }

  /**
   The region loop of `generate_mixes`; `candidatesOf` gives a region's ranked
   candidates, which may depend on the tracks used so far.
   */
  method GenerateMixes(cfg: Config, regions: nat, candidatesOf: (nat, set<TrackId>) -> seq<Candidate>)
    returns (saved: seq<seq<Placed>>, used: set<TrackId>)
    requires cfg.tracks > 0
    ensures saved == SavedAfter(cfg, candidatesOf, regions) && used == UsedAfter(cfg, candidatesOf, regions)
  {
    hide MixOf;
    saved, used := [], {};
    for region := 0 to regions
      invariant saved == SavedAfter(cfg, candidatesOf, region) && used == UsedAfter(cfg, candidatesOf, region)
    {
      var mix := GenerateMix(cfg, used, candidatesOf(region, used));
      if cfg.strict {
        used := used + set i | 0 <= i < |mix| :: mix[i].track.id;
      }
      if mix != [] {
        saved := saved + [mix];
      }
    }
  }

  method GenerateMix(cfg: Config, used: set<TrackId>, cs: seq<Candidate>) returns (mix: seq<Placed>)
    requires cfg.tracks > 0
    ensures mix == MixOf(cfg, used, cs)
  {
    hide Select, Sequence;
    var s := GenerateRegionItems(cfg, used, cs);
    mix := SequenceItems(s.picked);
  }

  // ------------------------------------------------------------ the saved mixes

  /** Every saved mix is the mix of a region. */
  lemma {:induction false} SavedFrom(cfg: Config, candidatesOf: (nat, set<TrackId>) -> seq<Candidate>, n: nat, k: nat)
    returns (region: nat)
    requires k < |SavedAfter(cfg, candidatesOf, n)|
    ensures region < n && SavedAfter(cfg, candidatesOf, n)[k] == MixAt(cfg, candidatesOf, region) != []
  {
    hide MixAt;
    region := n - 1;
    if k < |SavedAfter(cfg, candidatesOf, n - 1)| {
      region := SavedFrom(cfg, candidatesOf, n - 1, k);
    }
  }

  lemma {:induction false} MixIds(cfg: Config, used: set<TrackId>, cs: seq<Candidate>)
    requires DistinctIds(cs)
    ensures |IdsOf(MixOf(cfg, used, cs))| == |MixOf(cfg, used, cs)| <= cfg.tracks
    ensures cfg.strict ==> IdsOf(MixOf(cfg, used, cs)) !! used
  {
    SelectionIsChosen(cfg, used, cs);
    SelectionDistinct(cfg, used, cs);
    SequencedIds(Select(cfg, used, cs).picked, MixOf(cfg, used, cs));
    hide Select, Sequence, MixOf;
  }

  /** The mixes share no track, and together they hold exactly the used ones. */
  ghost predicate Tallies(saved: seq<seq<Placed>>, used: set<TrackId>) {
    Disjoint(saved) && used == AllIds(saved) && Sizes(saved) == |used|
  }

  lemma {:induction false} TallyOne(saved: seq<seq<Placed>>, used: set<TrackId>, mix: seq<Placed>)
    requires Tallies(saved, used) && IdsOf(mix) !! used && |IdsOf(mix)| == |mix|
    ensures Tallies(saved + if mix == [] then [] else [mix], used + IdsOf(mix))
  {
    DisjointStep(saved, mix);
    if mix == [] {
      assert used + IdsOf(mix) == used && saved + [] == saved;
    }
  }

  /** In strict mode the saved mixes share no track, and together they hold exactly the used ones. */
  lemma {:induction false} SavedAreDisjoint(cfg: Config, candidatesOf: (nat, set<TrackId>) -> seq<Candidate>, n: nat)
    requires forall region, ids :: DistinctIds(candidatesOf(region, ids))
    ensures if cfg.strict then Tallies(SavedAfter(cfg, candidatesOf, n), UsedAfter(cfg, candidatesOf, n))
            else UsedAfter(cfg, candidatesOf, n) == {}
  {
    if n > 0 {
      SavedAreDisjoint(cfg, candidatesOf, n - 1);
      var used := UsedAfter(cfg, candidatesOf, n - 1);
      MixIds(cfg, used, candidatesOf(n - 1, used));
      hide MixOf, DistinctIds, Tallies, IdsOf;
      if cfg.strict {
        TallyOne(SavedAfter(cfg, candidatesOf, n - 1), used, MixAt(cfg, candidatesOf, n - 1));
      }
    }
  }

  ghost function TracksOf(mix: seq<Placed>): seq<Candidate> {
    seq(|mix|, k requires 0 <= k < |mix| => mix[k].track)
  }

  ghost function Sum(cs: seq<Candidate>, f: Candidate -> nat): nat {
    if cs == [] then 0 else Sum(cs[..|cs| - 1], f) + f(cs[|cs| - 1])
  }

  lemma {:induction false} SumJoin(a: seq<Candidate>, b: seq<Candidate>, f: Candidate -> nat)
    ensures Sum(a + b, f) == Sum(a, f) + Sum(b, f)
  {
    if b == [] {
      assert a + b == a;
    } else {
      SumJoin(a, b[..|b| - 1], f);
      assert (a + b)[..|a + b| - 1] == a + b[..|b| - 1];
    }
  }

  /** Sequencing keeps every sum over the tracks. */
  lemma {:induction false} SequenceSum(cs: seq<Candidate>, last: Last, f: Candidate -> nat)
    ensures Sum(Sequence(cs, last), f) == Sum(cs, f)
    decreases |cs|
  {
    if cs != [] {
      hide Sum;
      var k := FirstFit(cs, last, 0);
      var rest := Without(cs, k);
      SequenceSum(rest, LastOf(cs[k]), f);
      SumJoin([cs[k]], Sequence(rest, LastOf(cs[k])), f);
      SumJoin(cs[..k], cs[k + 1..], f);
      SumJoin(cs[..k] + [cs[k]], cs[k + 1..], f);
      SumJoin(cs[..k], [cs[k]], f);
      assert cs == cs[..k] + [cs[k]] + cs[k + 1..];
    }
  }

  ghost function MentionsOf(artist: nat): Candidate -> nat {
    (c: Candidate) => multiset(c.credits.artists)[artist]
  }

  ghost function CreditsArtist(artist: nat): Candidate -> nat {
    (c: Candidate) => if artist in c.credits.artists then 1 else 0
  }

  ghost function OnRelease(release: nat): Candidate -> nat {
    (c: Candidate) => if c.credits.release == Some(release) then 1 else 0
  }

  lemma {:induction false} SumsAre(cs: seq<Candidate>, a: nat, r: nat)
    ensures Mentions(CreditsOf(cs), a) == Sum(cs, MentionsOf(a))
    ensures OfArtist(CreditsOf(cs), a) == Sum(cs, CreditsArtist(a))
    ensures OfRelease(CreditsOf(cs), r) == Sum(cs, OnRelease(r))
  {
    if cs != [] {
      var n := |cs| - 1;
      assert CreditsOf(cs)[..n] == CreditsOf(cs[..n]) && CreditsOf(cs)[n] == cs[n].credits;
      hide CreditsOf;
      SumsAre(cs[..n], a, r);
    }
  }

  /** Sequencing keeps how often artists are credited and how many tracks releases have. */
  lemma {:induction false} SequenceCounts(cs: seq<Candidate>, last: Last, a: nat, r: nat)
    ensures var before, after := CreditsOf(cs), CreditsOf(Sequence(cs, last));
            && Mentions(after, a) == Mentions(before, a)
            && OfArtist(after, a) == OfArtist(before, a) && OfRelease(after, r) == OfRelease(before, r)
  {
    hide Sum, CreditsOf, Sequence, Mentions, OfArtist, OfRelease;
    SequenceSum(cs, last, MentionsOf(a));
    SequenceSum(cs, last, CreditsArtist(a));
    SequenceSum(cs, last, OnRelease(r));
    SumsAre(cs, a, r);
    SumsAre(Sequence(cs, last), a, r);
  }

  lemma {:induction false} SequenceKeepsCaps(cs: seq<Candidate>, last: Last, perArtist: int, perRelease: int)
    requires CapsKept(CreditsOf(cs), perArtist, perRelease)
    ensures CapsKept(CreditsOf(Sequence(cs, last)), perArtist, perRelease)
  {
    hide CreditsOf, Sequence, OfArtist, OfRelease;
    var after := CreditsOf(Sequence(cs, last));
    forall a ensures OfArtist(after, a) == 0 || OfArtist(after, a) <= perArtist {
      SequenceCounts(cs, last, a, 0);
    }
    forall r ensures OfRelease(after, r) == 0 || OfRelease(after, r) <= perRelease {
      SequenceCounts(cs, last, 0, r);
    }
  }

  lemma {:induction false} SequenceAtCap(cs: seq<Candidate>, last: Last, c: Credits, perArtist: int, perRelease: int)
    requires AtCap(CreditsOf(cs), c, perArtist, perRelease)
    ensures AtCap(CreditsOf(Sequence(cs, last)), c, perArtist, perRelease)
  {
    hide CreditsOf, Sequence, Mentions, OfRelease;
    if a :| a in c.artists && Mentions(CreditsOf(cs), a) >= perArtist {
      SequenceCounts(cs, last, a, 0);
    } else {
      SequenceCounts(cs, last, 0, c.release.value);
    }
  }

  /**
   A region's mix: its positions count from zero, no artist or release is on more
   of its tracks than the cap, a track conflicts with the one before it only if
   every later one would have, and while the mix is not full every candidate is
   in it, excluded, or at a cap among its tracks.
   */
  lemma {:induction false} MixLimits(cfg: Config, used: set<TrackId>, cs: seq<Candidate>)
    requires DistinctIds(cs)
    ensures forall k :: 0 <= k < |MixOf(cfg, used, cs)| ==> MixOf(cfg, used, cs)[k].position == k
    ensures var tracks := TracksOf(MixOf(cfg, used, cs));
            && CapsKept(CreditsOf(tracks), cfg.perArtist, cfg.perRelease)
            && (forall k, j :: 0 <= k <= j < |tracks| && Conflicts(Before(tracks, Last({}, None), k), tracks[k])
                  ==> Conflicts(Before(tracks, Last({}, None), k), tracks[j]))
            && (|tracks| < cfg.tracks ==> forall c :: c in cs ==>
                  || c in tracks || (cfg.strict && c.id in used)
                  || AtCap(CreditsOf(tracks), c.credits, cfg.perArtist, cfg.perRelease))
  {
    var picked, first := Select(cfg, used, cs).picked, Last({}, None);
    var out := Sequence(picked, first);
    assert TracksOf(MixOf(cfg, used, cs)) == out;
    hide Select, Sequence, CreditsOf, CapsKept, AtCap, Conflicts, Before, MixOf, TracksOf, DistinctIds;
    SelectionWithinCaps(cfg, used, cs);
    SequenceKeepsCaps(picked, first, cfg.perArtist, cfg.perRelease);
    forall k, j | 0 <= k <= j < |out| && Conflicts(Before(out, first, k), out[k])
      ensures Conflicts(Before(out, first, k), out[j])
    {
      ConflictsAreForced(picked, first, k, j);
    }
    if |out| < cfg.tracks {
      forall c | c in cs
        ensures c in out || (cfg.strict && c.id in used)
                || AtCap(CreditsOf(out), c.credits, cfg.perArtist, cfg.perRelease)
      {
        LeftOut(cfg, used, cs, c);
      }
    }
  }

  /** A candidate left out of a mix that is not full. */
  lemma {:induction false} LeftOut(cfg: Config, used: set<TrackId>, cs: seq<Candidate>, c: Candidate)
    requires DistinctIds(cs) && c in cs && |Select(cfg, used, cs).picked| < cfg.tracks
    ensures var out := Sequence(Select(cfg, used, cs).picked, Last({}, None));
            c in out || (cfg.strict && c.id in used)
                || AtCap(CreditsOf(out), c.credits, cfg.perArtist, cfg.perRelease)
  {
    hide Select, Sequence, CreditsOf, AtCap;
    var picked := Select(cfg, used, cs).picked;
    var out := Sequence(picked, Last({}, None));
    SelectionIsMaximal(cfg, used, cs, c);
    if c in picked {
      SequencePermutes(picked, Last({}, None));
      assert c in multiset(picked);
      assert c in multiset(out);
    } else if AtCap(CreditsOf(picked), c.credits, cfg.perArtist, cfg.perRelease) {
      SequenceAtCap(picked, Last({}, None), c.credits, cfg.perArtist, cfg.perRelease);
    }
  }
}
