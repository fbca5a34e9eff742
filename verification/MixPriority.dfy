/**
 In which order the tracks of a mix are chosen (app/mixes.py:564-656, 686-706):
 the better ranked come first, new ones before known ones beyond the quota.
 */
module MixPriority {
  import opened Wrappers
  import opened Caps
  import opened MixSelection

  // ------------------------------------------------------------------ the turns

  /** The known tracks beyond the quota: at its turn the mix is full, the candidate is at a cap, or it comes next. */
  ghost predicate SecondTurn(cfg: Config, cs: seq<Candidate>, picked: seq<Candidate>, m: nat, i: nat, n: nat)
    requires m <= n <= |picked| && i < |cs|
  {
    && Within(picked[m..n], cs[..i])
    && (|| n == cfg.tracks
        || AtCap(CreditsOf(picked[..n]), cs[i].credits, cfg.perArtist, cfg.perRelease)
        || (n < |picked| && picked[n] == cs[i]))
  }

  ghost predicate HasSecondTurn(cfg: Config, cs: seq<Candidate>, picked: seq<Candidate>, m: nat, i: nat)
    requires m <= |picked| && i < |cs|
  {
    exists n :: m <= n <= |picked| && SecondTurn(cfg, cs, picked, m, i, n)
  }

  /**
   At the turn of a candidate only better ranked ones have been chosen. Either they
   fill the mix, or the candidate is excluded, or at one of their caps, or comes next,
   or is a known one for which there is no room in the quota and has its turn again
   after the first `m` tracks.
   */
  ghost predicate FirstTurn(cfg: Config, used: set<TrackId>, cs: seq<Candidate>, picked: seq<Candidate>, m: nat,
                            i: nat, n: nat)
    requires n <= m <= |picked| && i < |cs|
  {
    && Within(picked[..n], cs[..i])
    && (|| n == cfg.tracks
        || (cfg.strict && cs[i].id in used)
        || (if cs[i].known && KnownIn(picked[..n]) >= cfg.quota
            then HasSecondTurn(cfg, cs, picked, m, i)
            else || AtCap(CreditsOf(picked[..n]), cs[i].credits, cfg.perArtist, cfg.perRelease)
                 || (n < m && picked[n] == cs[i])))
  }

  ghost predicate HasTurn(cfg: Config, used: set<TrackId>, cs: seq<Candidate>, picked: seq<Candidate>, m: nat, i: nat)
    requires m <= |picked| && i < |cs|
  {
    exists n :: 0 <= n <= m && FirstTurn(cfg, used, cs, picked, m, i, n)
  }

  /**
   The choice is greedy: the first `m` tracks are in the order of the ranking, and so
   are the others, which are known; and every candidate has its turn.
   */
  ghost predicate Greedy(cfg: Config, used: set<TrackId>, cs: seq<Candidate>, picked: seq<Candidate>, m: nat) {
    && m <= |picked|
    && Within(picked[..m], cs) && Within(picked[m..], cs) && (forall c :: c in picked[m..] ==> c.known)
    && forall i :: 0 <= i < |cs| ==> HasTurn(cfg, used, cs, picked, m, i)
  }

  // -------------------------------------------------------------- the first loop

  lemma {:induction false} ScanGrows(cfg: Config, used: set<TrackId>, cs: seq<Candidate>, i: nat)
    requires i <= |cs|
    ensures ScanEach(cfg, used, cs[..i]).picked <= ScanEach(cfg, used, cs).picked
    ensures ScanEach(cfg, used, cs[..i]).deferred <= ScanEach(cfg, used, cs).deferred
    decreases |cs|
  {
    if i < |cs| {
      var n := |cs| - 1;
      assert cs[..n][..i] == cs[..i];
      ScanGrows(cfg, used, cs[..n], i);
      ScanStepGrows(cfg, used, ScanEach(cfg, used, cs[..n]), cs[n]);
      hide Scan;
    } else {
      assert cs[..i] == cs;
    }
  }

  lemma {:induction false} ScanStepGrows(cfg: Config, used: set<TrackId>, s: Selection, c: Candidate)
    ensures var t := Scan(cfg, used, s, c);
            && (t.picked == s.picked || t.picked == s.picked + [c])
            && (t.deferred == s.deferred || t.deferred == s.deferred + [c])
  {
    hide Blocked, Credited;
  }

  lemma {:induction false} ScanInOrder(cfg: Config, used: set<TrackId>, cs: seq<Candidate>)
    ensures Within(ScanEach(cfg, used, cs).picked, cs) && Within(ScanEach(cfg, used, cs).deferred, cs)
  {
    if cs != [] {
      var front, c := cs[..|cs| - 1], cs[|cs| - 1];
      var s := ScanEach(cfg, used, front);
      assert cs == front + [c];
      ScanInOrder(cfg, used, front);
      ScanStepGrows(cfg, used, s, c);
      WithinGrows(s.picked, front, c);
      WithinGrows(s.deferred, front, c);
      hide Scan, Within;
    }
  }

  /** What one step of the first loop does, told from the tracks chosen before it. */
  lemma {:induction false} ScanTurn(cfg: Config, used: set<TrackId>, s: Selection, c: Candidate)
    requires Sound(cfg, s) && |s.picked| <= cfg.tracks && s.known == KnownIn(s.picked)
    ensures var t := Scan(cfg, used, s, c);
            || |s.picked| == cfg.tracks
            || (cfg.strict && c.id in used)
            || (if c.known && KnownIn(s.picked) >= cfg.quota then t.deferred == s.deferred + [c]
                else || AtCap(CreditsOf(s.picked), c.credits, cfg.perArtist, cfg.perRelease)
                     || t.picked == s.picked + [c])
  {
    BlockedBy(cfg, s, c);
    BlockedParts(s.counts, c.credits, Cap(cfg));
    hide Blocked, Credited, AtCap, CreditsOf, KnownIn, Sound;
  }

  lemma {:induction false} Picks(cfg: Config, used: set<TrackId>, cs: seq<Candidate>, i: nat)
    requires i < |cs|
    ensures cs[..i + 1][..i] == cs[..i] && cs[..i + 1][i] == cs[i]
    ensures ScanEach(cfg, used, cs[..i + 1]) == Scan(cfg, used, ScanEach(cfg, used, cs[..i]), cs[i])
  {
    hide Scan;
  }

  // ------------------------------------------------------------- the second loop

  /** No chosen track is deferred, and none is deferred twice. */
  ghost predicate Apart(s: Selection) {
    && DistinctIds(s.deferred)
    && (forall c, d :: c in s.picked && d in s.deferred ==> c.id != d.id)
  }

  lemma {:induction false} ScanApart(cfg: Config, used: set<TrackId>, cs: seq<Candidate>)
    requires DistinctIds(cs)
    ensures Apart(ScanEach(cfg, used, cs))
  {
    if cs != [] {
      var n := |cs| - 1;
      ScanApart(cfg, used, cs[..n]);
      ScanMembers(cfg, used, cs[..n]);
      forall c | c in cs[..n] ensures c.id != cs[n].id {
        var j :| 0 <= j < n && cs[j] == c;
      }
      hide ScanEach;
      StepApart(cfg, used, ScanEach(cfg, used, cs[..n]), cs[n]);
    }
  }

  lemma {:induction false} StepApart(cfg: Config, used: set<TrackId>, s: Selection, c: Candidate)
    requires Apart(s)
    requires forall d :: d in s.picked || d in s.deferred ==> d.id != c.id
    ensures Apart(Scan(cfg, used, s, c))
  {
    hide Blocked, Credited;
  }

  lemma {:induction false} FillPrefix(cfg: Config, used: set<TrackId>, s: Selection, ds: seq<Candidate>, j: nat)
    requires j <= |ds|
    ensures FillEach(cfg, used, s, ds[..j]).picked <= FillEach(cfg, used, s, ds).picked
    decreases |ds|
  {
    if j < |ds| {
      var n := |ds| - 1;
      assert ds[..n][..j] == ds[..j];
      FillPrefix(cfg, used, s, ds[..n], j);
      hide Blocked, Credited;
    } else {
      assert ds[..j] == ds;
    }
  }

  lemma {:induction false} FillStepGrows(cfg: Config, used: set<TrackId>, s: Selection, c: Candidate)
    ensures var t := Fill(cfg, used, s, c); t.picked == s.picked || t.picked == s.picked + [c]
  {
    hide Blocked, Credited;
  }

  lemma {:induction false} FillInOrder(cfg: Config, used: set<TrackId>, s: Selection, ds: seq<Candidate>)
    ensures s.picked <= FillEach(cfg, used, s, ds).picked
    ensures Within(FillEach(cfg, used, s, ds).picked[|s.picked|..], ds)
  {
    if ds != [] {
      var front, d := ds[..|ds| - 1], ds[|ds| - 1];
      var t := FillEach(cfg, used, s, front);
      assert FillEach(cfg, used, s, ds) == Fill(cfg, used, t, d) by {
        hide Fill;
      }
      assert ds == front + [d];
      hide *;
      FillInOrder(cfg, used, s, front);
      FillStepGrows(cfg, used, t, d);
      var extra := t.picked[|s.picked|..];
      WithinGrows(extra, front, d);
      assert (t.picked + [d])[|s.picked|..] == extra + [d];
    } else {
      hide Fill, Blocked;
    }
  }

  /** What one step of the second loop does. */
  lemma {:induction false} FillTurn(cfg: Config, used: set<TrackId>, t: Selection, c: Candidate)
    requires Sound(cfg, t) && |t.picked| <= cfg.tracks && !(cfg.strict && c.id in used) && !HasId(t.picked, c.id)
    ensures || |t.picked| == cfg.tracks
            || AtCap(CreditsOf(t.picked), c.credits, cfg.perArtist, cfg.perRelease)
            || Fill(cfg, used, t, c).picked == t.picked + [c]
  {
    BlockedBy(cfg, t, c);
    hide Blocked, Credited, AtCap, CreditsOf, Sound, HasId;
  }

  lemma {:induction false} NotChosenYet(cfg: Config, used: set<TrackId>, s: Selection, j: nat)
    requires Apart(s) && j < |s.deferred|
    ensures !HasId(FillEach(cfg, used, s, s.deferred[..j]).picked, s.deferred[j].id)
  {
    var ds := s.deferred;
    FillGrows(cfg, used, s, ds[..j]);
    hide FillEach, Blocked;
    var picked := FillEach(cfg, used, s, ds[..j]).picked;
    forall k | 0 <= k < |picked| ensures picked[k].id != ds[j].id {
      assert picked[k] in picked && ds[j] in ds;
      if picked[k] in ds[..j] {
        var l :| 0 <= l < j && ds[l] == picked[k];
      }
    }
  }

  lemma {:induction false} SelectExtends(cfg: Config, used: set<TrackId>, cs: seq<Candidate>)
    ensures ScanEach(cfg, used, cs).picked <= Select(cfg, used, cs).picked
  {
    FillInOrder(cfg, used, ScanEach(cfg, used, cs), ScanEach(cfg, used, cs).deferred);
  }

  /** The second loop is at a deferred track. */
  lemma {:induction false} FillState(cfg: Config, used: set<TrackId>, cs: seq<Candidate>, j: nat)
    requires DistinctIds(cs) && j < |ScanEach(cfg, used, cs).deferred|
    ensures var s, picked := ScanEach(cfg, used, cs), Select(cfg, used, cs).picked;
            var t, d := FillEach(cfg, used, s, s.deferred[..j]), s.deferred[j];
            && s.picked <= t.picked <= picked && Within(t.picked[|s.picked|..], s.deferred[..j])
            && ((cfg.strict && d.id in used) || |t.picked| == cfg.tracks
                || AtCap(CreditsOf(t.picked), d.credits, cfg.perArtist, cfg.perRelease)
                || (|t.picked| < |picked| && picked[|t.picked|] == d))
  {
    var s := ScanEach(cfg, used, cs);
    var ds := s.deferred;
    var t, d := FillEach(cfg, used, s, ds[..j]), ds[j];
    FillInOrder(cfg, used, s, ds[..j]);
    FillPrefix(cfg, used, s, ds, j);
    FillPrefix(cfg, used, s, ds, j + 1);
    assert ds[..j + 1][..j] == ds[..j];
    assert FillEach(cfg, used, s, ds[..j + 1]) == Fill(cfg, used, t, d);
    ScanSound(cfg, used, cs);
    FillSound(cfg, used, s, ds[..j]);
    ScanKnown(cfg, used, cs);
    hide *;
    FillFits(cfg, used, s, ds[..j]);
    ScanApart(cfg, used, cs);
    NotChosenYet(cfg, used, s, j);
    if !(cfg.strict && d.id in used) {
      FillTurn(cfg, used, t, d);
    }
    SelectIs(cfg, used, cs);
  }

  lemma {:induction false} SelectIs(cfg: Config, used: set<TrackId>, cs: seq<Candidate>)
    ensures Select(cfg, used, cs) == FillEach(cfg, used, ScanEach(cfg, used, cs), ScanEach(cfg, used, cs).deferred)
  {
  }

  /** The first loop is at a candidate. */
  lemma {:induction false} ScanState(cfg: Config, used: set<TrackId>, cs: seq<Candidate>, i: nat)
    requires i < |cs|
    ensures var s, t := ScanEach(cfg, used, cs[..i]), ScanEach(cfg, used, cs);
            && s.picked <= t.picked && s.deferred <= t.deferred
            && Within(s.picked, cs[..i]) && Within(s.deferred, cs[..i])
            && (|| |s.picked| == cfg.tracks
                || (cfg.strict && cs[i].id in used)
                || (if cs[i].known && KnownIn(s.picked) >= cfg.quota
                    then |s.deferred| < |t.deferred| && t.deferred[|s.deferred|] == cs[i]
                    else || AtCap(CreditsOf(s.picked), cs[i].credits, cfg.perArtist, cfg.perRelease)
                         || (|s.picked| < |t.picked| && t.picked[|s.picked|] == cs[i])))
  {
    hide *;
    ScanGrows(cfg, used, cs, i);
    ScanGrows(cfg, used, cs, i + 1);
    ScanInOrder(cfg, used, cs[..i]);
    Picks(cfg, used, cs, i);
    ScanSound(cfg, used, cs[..i]);
    ScanKnown(cfg, used, cs[..i]);
    ScanTurn(cfg, used, ScanEach(cfg, used, cs[..i]), cs[i]);
  }

  lemma {:induction false} DeferredTurn(cfg: Config, used: set<TrackId>, cs: seq<Candidate>, i: nat)
    requires DistinctIds(cs) && i < |cs| && !(cfg.strict && cs[i].id in used)
    requires var s, t := ScanEach(cfg, used, cs[..i]), ScanEach(cfg, used, cs);
             |s.deferred| < |t.deferred| && t.deferred[|s.deferred|] == cs[i]
    ensures |ScanEach(cfg, used, cs).picked| <= |Select(cfg, used, cs).picked|
    ensures HasSecondTurn(cfg, cs, Select(cfg, used, cs).picked, |ScanEach(cfg, used, cs).picked|, i)
  {
    hide *;
    var s, picked := ScanEach(cfg, used, cs), Select(cfg, used, cs).picked;
    var j, m := |ScanEach(cfg, used, cs[..i]).deferred|, |s.picked|;
    ScanState(cfg, used, cs, i);
    FillState(cfg, used, cs, j);
    var t := FillEach(cfg, used, s, s.deferred[..j]);
    var n := |t.picked|;
    assert s.deferred[..j] == ScanEach(cfg, used, cs[..i]).deferred;
    WithinThrough(t.picked[m..], s.deferred[..j], cs[..i]);
    assert picked[m..n] == t.picked[m..] && picked[..n] == t.picked;
    SecondTurnAt(cfg, cs, picked, m, i, n);
  }

  lemma {:induction false} SecondTurnAt(cfg: Config, cs: seq<Candidate>, picked: seq<Candidate>, m: nat, i: nat,
                                        n: nat)
    requires m <= n <= |picked| && i < |cs| && Within(picked[m..n], cs[..i])
    requires || n == cfg.tracks
             || AtCap(CreditsOf(picked[..n]), cs[i].credits, cfg.perArtist, cfg.perRelease)
             || (n < |picked| && picked[n] == cs[i])
    ensures HasSecondTurn(cfg, cs, picked, m, i)
  {
    assert SecondTurn(cfg, cs, picked, m, i, n);
  }

  lemma {:induction false} EveryTurn(cfg: Config, used: set<TrackId>, cs: seq<Candidate>, i: nat)
    requires DistinctIds(cs) && i < |cs|
    ensures |ScanEach(cfg, used, cs).picked| <= |Select(cfg, used, cs).picked|
    ensures HasTurn(cfg, used, cs, Select(cfg, used, cs).picked, |ScanEach(cfg, used, cs).picked|, i)
  {
    hide ScanEach, Select, Within, KnownIn, AtCap, CreditsOf, DistinctIds, HasSecondTurn;
    var s, t, picked := ScanEach(cfg, used, cs[..i]), ScanEach(cfg, used, cs), Select(cfg, used, cs).picked;
    var n, m := |s.picked|, |t.picked|;
    ScanState(cfg, used, cs, i);
    SelectExtends(cfg, used, cs);
    if cs[i].known && KnownIn(s.picked) >= cfg.quota && n != cfg.tracks && !(cfg.strict && cs[i].id in used) {
      DeferredTurn(cfg, used, cs, i);
    }
    assert picked[..n] == s.picked;
    assert FirstTurn(cfg, used, cs, picked, m, i, n);
  }

  /**
   The tracks of a mix are chosen greedily: best first, no candidate is passed over
   but for better ranked ones, and known ones beyond the quota come after all others.
   */
  lemma {:induction false} SelectionIsGreedy(cfg: Config, used: set<TrackId>, cs: seq<Candidate>)
    requires DistinctIds(cs)
    ensures Greedy(cfg, used, cs, Select(cfg, used, cs).picked, |ScanEach(cfg, used, cs).picked|)
  {
    hide ScanEach, Select, Within, HasTurn, DistinctIds;
    var s, picked := ScanEach(cfg, used, cs), Select(cfg, used, cs).picked;
    var m := |s.picked|;
    ScanInOrder(cfg, used, cs);
    FillInOrder(cfg, used, s, s.deferred);
    SelectIs(cfg, used, cs);
    ScanMembers(cfg, used, cs);
    FillGrows(cfg, used, s, s.deferred);
    hide FillEach;
    WithinThrough(picked[m..], s.deferred, cs);
    assert picked[..m] == s.picked;
    forall c | c in picked[m..] ensures c.known {
      WithinMember(picked[m..], s.deferred, c);
    }
    forall i | 0 <= i < |cs| ensures HasTurn(cfg, used, cs, picked, m, i) {
      EveryTurn(cfg, used, cs, i);
    }
  }

  lemma {:induction false} WithinMember<T>(a: seq<T>, b: seq<T>, x: T)
    requires Within(a, b) && x in a
    ensures x in b
  {
    var a', b' := a[..|a| - 1], b[..|b| - 1];
    assert a == a' + [a[|a| - 1]] && b == b' + [b[|b| - 1]];
    if Within(a, b') {
      WithinMember(a, b', x);
    } else if x in a' {
      WithinMember(a', b', x);
    }
  }

  // ------------------------------------------------------------- the reasons

  datatype Reason = Full | Duplicate | Deferred | ArtistCap | ReleaseCap | Chosen

  /** What the first loop finds of a candidate after the tracks chosen before it. */
  ghost function ReasonOf(cfg: Config, used: set<TrackId>, picked: seq<Candidate>, c: Candidate): Reason {
    if |picked| >= cfg.tracks then Full
    else if cfg.strict && c.id in used then Duplicate
    else if c.known && KnownIn(picked) >= cfg.quota then Deferred
    else if ArtistAtCap(CreditsOf(picked), c.credits, cfg.perArtist) then ArtistCap
    else if ReleaseAtCap(CreditsOf(picked), c.credits, cfg.perRelease) then ReleaseCap
    else Chosen
  }

  /** Of how many candidates the first loop finds this. */
  ghost function Found(cfg: Config, used: set<TrackId>, cs: seq<Candidate>, r: Reason): nat {
    if cs == [] then 0
    else
      var front, c := cs[..|cs| - 1], cs[|cs| - 1];
      Found(cfg, used, front, r) + if ReasonOf(cfg, used, ScanEach(cfg, used, front).picked, c) == r then 1 else 0
  }

  ghost function Counter(s: Selection, r: Reason): nat {
    match r
    case Duplicate => s.skippedDuplicate
    case Deferred => s.skippedKnown
    case ArtistCap => s.skippedArtist
    case ReleaseCap => s.skippedRelease
    case _ => |s.picked|
  }

  lemma {:induction false} ScanReason(cfg: Config, used: set<TrackId>, s: Selection, c: Candidate, r: Reason)
    requires Sound(cfg, s) && s.known == KnownIn(s.picked) && !r.Full?
    ensures Counter(Scan(cfg, used, s, c), r) == Counter(s, r) + if ReasonOf(cfg, used, s.picked, c) == r then 1 else 0
  {
    LabelsAre(s.picked);
    hide Blocked, Credited, CreditsOf, KnownIn, Admitted, LabelLists, Limit, ArtistAtCap, ReleaseAtCap;
    ArtistsBlocked(CreditsOf(s.picked), c.credits, cfg.perArtist, cfg.perRelease);
    ReleaseBlocked(CreditsOf(s.picked), c.credits, cfg.perArtist, cfg.perRelease);
  }

  /** Each counter of the first loop counts the candidates skipped for its reason, and the choice is the rest. */
  lemma {:induction false} ReasonsCounted(cfg: Config, used: set<TrackId>, cs: seq<Candidate>, r: Reason)
    requires !r.Full?
    ensures Counter(ScanEach(cfg, used, cs), r) == Found(cfg, used, cs, r)
  {
    if cs != [] {
      var n := |cs| - 1;
      ReasonsCounted(cfg, used, cs[..n], r);
      ScanSound(cfg, used, cs[..n]);
      ScanKnown(cfg, used, cs[..n]);
      hide Scan, Sound, KnownIn, Counter, ReasonOf;
      ScanReason(cfg, used, ScanEach(cfg, used, cs[..n]), cs[n], r);
    }
  }

  // ------------------------------------------------------------- the sequence

  /** A better ranked track waits only while it conflicts, and only for one that does not. */
  ghost predicate Waits(cs: seq<Candidate>, out: seq<Candidate>, last: Last, k: nat, a: nat, b: nat)
    requires k < |out| && a < b < |cs|
  {
    out[k] == cs[b] && cs[a] !in out[..k] ==>
      Conflicts(Before(out, last, k), cs[a]) && !Conflicts(Before(out, last, k), cs[b])
  }

  /** A track conflicts with the one before it when they share an artist or are on the same release, or on none. */
  lemma {:induction false} ConflictsIff(c: Candidate, before: Candidate)
    ensures Conflicts(LastOf(before), c) <==>
            || (exists a :: a in c.credits.artists && a in before.credits.artists)
            || c.credits.release == before.credits.release
  {
    if a :| a in c.credits.artists && a in before.credits.artists {
      assert a in LastOf(c).artists && a in LastOf(before).artists;
    }
    if !(LastOf(c).artists !! LastOf(before).artists) {
      var a :| a in LastOf(c).artists && a in LastOf(before).artists;
      assert a in c.credits.artists && a in before.credits.artists;
    }
  }

  /** The first track conflicts only if it is on no release. */
  lemma {:induction false} FirstConflicts(c: Candidate)
    ensures Conflicts(Last({}, None), c) <==> c.credits.release == None
  {
  }

  lemma {:induction false} FirstFitIs(cs: seq<Candidate>, last: Last, i: nat)
    requires cs != [] && i <= |cs|
    ensures var k := FirstFit(cs, last, i);
            || k == 0
            || (i <= k < |cs| && !Conflicts(last, cs[k]) && forall j :: i <= j < k ==> Conflicts(last, cs[j]))
    decreases |cs| - i
  {
    if i < |cs| {
      FirstFitIs(cs, last, i + 1);
      hide Conflicts;
    }
  }

  lemma {:induction false} WithoutAt(cs: seq<Candidate>, i: nat, a: nat)
    requires i < |cs| && a < |cs| && a != i
    ensures var b := if a < i then a else a - 1; b < |Without(cs, i)| && Without(cs, i)[b] == cs[a]
  {
  }

  lemma {:induction false} WithoutDistinct(cs: seq<Candidate>, i: nat)
    requires DistinctIds(cs) && i < |cs|
    ensures DistinctIds(Without(cs, i))
  {
  }

  lemma {:induction false} SequenceWaits(cs: seq<Candidate>, last: Last, k: nat, a: nat, b: nat)
    requires DistinctIds(cs) && a < b < |cs| && k < |cs|
    ensures Waits(cs, Sequence(cs, last), last, k, a, b)
    decreases |cs|, 1
  {
    var out := Sequence(cs, last);
    if out[k] == cs[b] && cs[a] !in out[..k] {
      var i := FirstFit(cs, last, 0);
      var rest := Without(cs, i);
      assert out == [cs[i]] + Sequence(rest, LastOf(cs[i]));
      FirstFitIs(cs, last, 0);
      if k == 0 {
        assert i == b;
      } else {
        SequencePermutes(cs, last);
        SortedDistinct(cs, out);
        assert out[0] in out[..k] && out[0].id != out[k].id;
        assert i != a && i != b;
        WithoutDistinct(cs, i);
        WithoutAt(cs, i, a);
        WithoutAt(cs, i, b);
        var c, d := if a < i then a else a - 1, if b < i then b else b - 1;
        WaitsOn(cs, last, i, k, a, b, c, d);
      }
    }
  }

  lemma {:induction false} WaitsOn(cs: seq<Candidate>, last: Last, i: nat, k: nat, a: nat, b: nat, c: nat, d: nat)
    requires i < |cs| && DistinctIds(Without(cs, i)) && 0 < k < |cs| && c < d < |cs| - 1 && a < |cs| && b < |cs|
    requires Without(cs, i)[c] == cs[a] && Without(cs, i)[d] == cs[b]
    requires Sequence(cs, last) == [cs[i]] + Sequence(Without(cs, i), LastOf(cs[i]))
    requires Sequence(cs, last)[k] == cs[b] && cs[a] !in Sequence(cs, last)[..k]
    ensures Conflicts(Before(Sequence(cs, last), last, k), cs[a])
    ensures !Conflicts(Before(Sequence(cs, last), last, k), cs[b])
    decreases |cs|, 0
  {
    var out, rest := Sequence(cs, last), Without(cs, i);
    var more := Sequence(rest, LastOf(cs[i]));
    hide Sequence, Conflicts, DistinctIds, FirstFit;
    assert out[k] == more[k - 1];
    assert out[1..k] == more[..k - 1];
    assert forall x :: x in more[..k - 1] ==> x in out[..k];
    SequenceWaits(rest, LastOf(cs[i]), k - 1, c, d);
    assert Before(out, last, k) == Before(more, LastOf(cs[i]), k - 1);
  }

  /** A mix holds a greedy choice of its candidates, in an order in which better ranked tracks wait only if forced. */
  lemma {:induction false} MixIsGreedy(cfg: Config, used: set<TrackId>, cs: seq<Candidate>)
    returns (picked: seq<Candidate>, m: nat)
    requires DistinctIds(cs)
    ensures Greedy(cfg, used, cs, picked, m)
    ensures var tracks := TracksOf(MixOf(cfg, used, cs));
            && multiset(tracks) == multiset(picked) && |tracks| == |picked|
            && forall k, a, b :: 0 <= k < |tracks| && 0 <= a < b < |picked| ==>
                 Waits(picked, tracks, Last({}, None), k, a, b)
  {
    picked, m := Select(cfg, used, cs).picked, |ScanEach(cfg, used, cs).picked|;
    var first := Last({}, None);
    assert TracksOf(MixOf(cfg, used, cs)) == Sequence(picked, first);
    SelectionDistinct(cfg, used, cs);
    SelectionIsGreedy(cfg, used, cs);
    SequencePermutes(picked, first);
    hide *;
    forall k, a, b | 0 <= k < |picked| && 0 <= a < b < |picked|
      ensures Waits(picked, Sequence(picked, first), first, k, a, b)
    {
      SequenceWaits(picked, first, k, a, b);
    }
  }

  /** Every saved mix holds a greedy choice of the candidates of its region, given what was used before. */
  lemma {:induction false} SavedAreGreedy(cfg: Config, candidatesOf: (nat, set<TrackId>) -> seq<Candidate>, n: nat,
                                          k: nat)
    returns (region: nat, picked: seq<Candidate>, m: nat)
    requires forall r, ids :: DistinctIds(candidatesOf(r, ids))
    requires k < |SavedAfter(cfg, candidatesOf, n)|
    ensures region < n
    ensures var used := UsedAfter(cfg, candidatesOf, region);
            && Greedy(cfg, used, candidatesOf(region, used), picked, m)
            && multiset(TracksOf(SavedAfter(cfg, candidatesOf, n)[k])) == multiset(picked)
  {
    region := SavedFrom(cfg, candidatesOf, n, k);
    var used := UsedAfter(cfg, candidatesOf, region);
    hide Greedy, MixOf, UsedAfter, SavedAfter, DistinctIds, TracksOf;
    picked, m := MixIsGreedy(cfg, used, candidatesOf(region, used));
  }
}
