/**
 Merging empty releases into their successors
 (app/navidrome_migration.py:67-339): what one candidate, one batch and all
 batches do to the tables.
 */
module ReleaseRepair {
  import opened Wrappers
  import opened Folds
  import opened Totals

  type ReleaseId = nat
  type UserId = nat

  datatype PrefKey = PrefKey(user: UserId, release: ReleaseId)

  /** A row of `user_release_preferences`; times are ISO texts, ordered as their instants. */
  datatype Pref = Pref(liked: bool, plays: int, completions: int, skips: int, score: real,
                       lastPlayed: Option<nat>, lastCompleted: Option<nat>, updated: Option<nat>)

  /** A JSON value; Python counts booleans as numbers. */
  datatype Json = Number(value: real) | Flag(on: bool) | Null | Other(text: string) {
    predicate Numeric() { Number? || Flag? }

    function Weight(): real { if Number? then value else if Flag? && on then 1.0 else 0.0 }
  }

  /** `session_release_plays`. */
  type Plays = map<ReleaseId, Json>

  /** `source` is the release a session started from, if it is one; `plays` its play dictionary, if it has one. */
  datatype Session = Session(source: Option<ReleaseId>, caption: string, plays: Option<Plays>)

  datatype ExternalKey = ExternalKey(provider: string, id: string)

  /** `members` are the releases with tracks, which a repair never changes. */
  datatype Db = Db(
    releases: map<ReleaseId, string>,
    members: set<ReleaseId>,
    prefs: map<PrefKey, Pref>,
    events: map<nat, Option<ReleaseId>>,
    sessions: map<nat, Session>,
    queue: map<nat, Option<ReleaseId>>,
    external: map<ExternalKey, Option<ReleaseId>>)

  datatype Candidate = Candidate(dead: ReleaseId, target: ReleaseId, title: string)

  // ------------------------------------------------------------ one candidate

  /** `_latest_text`. */
  function Latest(a: Option<nat>, b: Option<nat>): (r: Option<nat>)
    ensures r == a || r == b
    ensures forall t :: t in {a, b} && t.Some? ==> r.Some? && t.value <= r.value
  {
    if a.None? then b else if b.None? then a else if a.value < b.value then b else a
  }

  function Merged(dead: Pref, target: Pref): Pref {
    Pref(dead.liked || target.liked,
         dead.plays + target.plays, dead.completions + target.completions, dead.skips + target.skips,
         dead.score + target.score,
         Latest(dead.lastPlayed, target.lastPlayed), Latest(dead.lastCompleted, target.lastCompleted),
         Latest(dead.updated, target.updated))
  }

  /** `_merge_release_preference` for one user. */
  function MergeUser(prefs: map<PrefKey, Pref>, u: UserId, o: ReleaseId, t: ReleaseId): map<PrefKey, Pref> {
    var from, onto := PrefKey(u, o), PrefKey(u, t);
    if from !in prefs then prefs
    else (prefs - {from})[onto := if onto in prefs then Merged(prefs[from], prefs[onto]) else prefs[from]]
  }

  /** The rows of these users as the merge leaves them, each told from the rows before it. */
  ghost function MergeUsers(prefs: map<PrefKey, Pref>, users: set<UserId>, o: ReleaseId,
                            t: ReleaseId): map<PrefKey, Pref> {
    map k | k in prefs.Keys + (set u | u in users && PrefKey(u, o) in prefs :: PrefKey(u, t))
            && !(k.release == o && k.user in users) ::
      if k.release == t && k.user in users && PrefKey(k.user, o) in prefs
      then if k in prefs then Merged(prefs[PrefKey(k.user, o)], prefs[k]) else prefs[PrefKey(k.user, o)]
      else prefs[k]
  }

  ghost function UsersOf(prefs: map<PrefKey, Pref>, o: ReleaseId): set<UserId> {
    set k | k in prefs && k.release == o :: k.user
  }

  lemma {:induction false} MergeUsersStep(prefs: map<PrefKey, Pref>, users: set<UserId>, u: UserId, o: ReleaseId,
                                          t: ReleaseId)
    requires o != t && u !in users
    ensures MergeUsers(prefs, users + {u}, o, t) == MergeUser(MergeUsers(prefs, users, o, t), u, o, t)
  {
    var before := MergeUsers(prefs, users, o, t);
    var after := MergeUser(before, u, o, t);
    var all := MergeUsers(prefs, users + {u}, o, t);
    assert PrefKey(u, o) in before <==> PrefKey(u, o) in prefs;
    assert PrefKey(u, t) in before <==> PrefKey(u, t) in prefs;
    forall k ensures k in all <==> k in after {
    }
    forall k | k in all ensures all[k] == after[k] {
    }
  }

  function Repoint<K>(refs: map<K, Option<ReleaseId>>, o: ReleaseId, t: ReleaseId): map<K, Option<ReleaseId>> {
    map k | k in refs :: if refs[k] == Some(o) then Some(t) else refs[k]
  }

  function RepointSessions(sessions: map<nat, Session>, c: Candidate): map<nat, Session> {
    map k | k in sessions ::
      if sessions[k].source == Some(c.dead) then sessions[k].(source := Some(c.target), caption := c.title)
          else sessions[k]
  }

  /** The statements of the batch loop for one candidate. */
  ghost function Merge(db: Db, c: Candidate): Db {
    db.(prefs := MergeUsers(db.prefs, UsersOf(db.prefs, c.dead), c.dead, c.target),
        events := Repoint(db.events, c.dead, c.target),
        sessions := RepointSessions(db.sessions, c),
        queue := Repoint(db.queue, c.dead, c.target),
        external := Repoint(db.external, c.dead, c.target),
        releases := if c.dead in db.members then db.releases else db.releases - {c.dead})
  }

  ghost function MergeEach(db: Db, cs: seq<Candidate>): Db {
    Fold(Merge, db, cs)
  }

  // ------------------------------------------------------- session dictionaries

  /** One key of `_rewrite_session_release_states`. */
  function Move(plays: Plays, p: Pair<ReleaseId>): Plays {
    if p.dead !in plays then plays
    else
      var rest := plays - {p.dead};
      var value := plays[p.dead];
      if p.target !in rest || rest[p.target].Null? then rest[p.target := value]
      else if value.Numeric() && rest[p.target].Numeric()
          then rest[p.target := Number(value.Weight() + rest[p.target].Weight())]
      else rest
  }

  function MoveEach(plays: Plays, pairs: seq<Pair<ReleaseId>>): Plays {
    Fold(Move, plays, pairs)
  }

  function RewriteOne(s: Session, pairs: seq<Pair<ReleaseId>>): Session {
    if s.plays.Some? then s.(plays := Some(MoveEach(s.plays.value, pairs))) else s
  }

  function Rewrite(db: Db, pairs: seq<Pair<ReleaseId>>): Db {
    db.(sessions := map k | k in db.sessions :: RewriteOne(db.sessions[k], pairs))
  }

  /** `release_id_map` in insertion order: a key keeps its first place and gets its last value. */
  function DictOf(cs: seq<Candidate>): seq<Pair<ReleaseId>> {
    if cs == [] then [] else Put(DictOf(cs[..|cs| - 1]), Pair(cs[|cs| - 1].dead, cs[|cs| - 1].target))
  }

  function Put(dict: seq<Pair<ReleaseId>>, p: Pair<ReleaseId>): seq<Pair<ReleaseId>> {
    if dict == [] then [p]
    else if dict[0].dead == p.dead then [p] + dict[1..]
    else [dict[0]] + Put(dict[1..], p)
  }

  function PairsOf(cs: seq<Candidate>): seq<Pair<ReleaseId>> {
    seq(|cs|, i requires 0 <= i < |cs| => Pair(cs[i].dead, cs[i].target))
  }

  // ------------------------------------------------------------------- batches

  ghost function Batch(db: Db, cs: seq<Candidate>): Db {
    Rewrite(MergeEach(db, cs), DictOf(cs))
  }

  /** The tables once the first `k` batches have committed. */
  ghost function Batches(db: Db, cs: seq<Candidate>, size: nat, k: nat): Db {
    if k == 0 then db else Batch(Batches(db, cs, size, k - 1), Slice(cs, size, k - 1))
  }

  /** The dictionaries of the first `k` batches one after the other. */
  ghost function Dicts(cs: seq<Candidate>, size: nat, k: nat): seq<Pair<ReleaseId>> {
    if k == 0 then [] else Dicts(cs, size, k - 1) + DictOf(Slice(cs, size, k - 1))
  }

  // --------------------------------------------- batches are one long sequence

  lemma {:induction false} RewriteJoin(db: Db, p: seq<Pair<ReleaseId>>, q: seq<Pair<ReleaseId>>)
    ensures Rewrite(Rewrite(db, p), q) == Rewrite(db, p + q)
  {
    forall k | k in db.sessions
      ensures RewriteOne(RewriteOne(db.sessions[k], p), q) == RewriteOne(db.sessions[k], p + q)
    {
      if db.sessions[k].plays.Some? {
        FoldJoin(Move, db.sessions[k].plays.value, p, q);
      }
    }
    assert Rewrite(Rewrite(db, p), q).sessions == Rewrite(db, p + q).sessions;
  }

  /** Rewriting play dictionaries and repointing rows do not meet. */
  lemma {:induction false} RewriteThenMerge(db: Db, pairs: seq<Pair<ReleaseId>>, c: Candidate)
    ensures Merge(Rewrite(db, pairs), c) == Rewrite(Merge(db, c), pairs)
  {
    assert RepointSessions(Rewrite(db, pairs).sessions, c) == Rewrite(Merge(db, c), pairs).sessions;
  }

  lemma {:induction false} RewriteThenMergeEach(db: Db, pairs: seq<Pair<ReleaseId>>, cs: seq<Candidate>)
    ensures MergeEach(Rewrite(db, pairs), cs) == Rewrite(MergeEach(db, cs), pairs)
  {
    forall r, c ensures Merge(Rewrite(r, pairs), c) == Rewrite(Merge(r, c), pairs) {
      RewriteThenMerge(r, pairs, c);
    }
    FoldCommutes(Merge, r => Rewrite(r, pairs), db, cs);
  }

  lemma {:induction false} BatchStep(db: Db, a: seq<Candidate>, b: seq<Candidate>, p: seq<Pair<ReleaseId>>)
    ensures Batch(Rewrite(MergeEach(db, a), p), b) == Rewrite(MergeEach(db, a + b), p + DictOf(b))
  {
    RewriteThenMergeEach(MergeEach(db, a), p, b);
    FoldJoin(Merge, db, a, b);
    RewriteJoin(MergeEach(db, a + b), p, DictOf(b));
  }

  lemma {:induction false} RewriteNothing(db: Db)
    ensures Rewrite(db, []) == db && MergeEach(db, []) == db
  {
    assert Rewrite(db, []).sessions == db.sessions;
  }

  /** Committed batches are all their candidates merged in order, then all their dictionaries applied in order. */
  lemma {:induction false} BatchesAre(db: Db, cs: seq<Candidate>, size: nat, k: nat)
    ensures Batches(db, cs, size, k) == Rewrite(MergeEach(db, Done(cs, size, k)), Dicts(cs, size, k))
  {
    hide Merge, MergeEach, Rewrite, DictOf;
    if k == 0 {
      RewriteNothing(db);
      assert Done(cs, size, 0) == [];
    } else {
      BatchesAre(db, cs, size, k - 1);
      BatchStep(db, Done(cs, size, k - 1), Slice(cs, size, k - 1), Dicts(cs, size, k - 1));
      SliceJoins(cs, size, k);
    }
  }
}
