/**
 The state of the analysis worker (app/cli.py:1384-1447) and the elementary
 changes its handlers make to it, with what each of them keeps.
 */
module WorkerState {
  datatype TaskId = TaskId(text: string)

  /** The three kinds of work: audio features, the head pack, and embeddings of a named model. */
  datatype Model = Features | Heads | Embedding(name: string)

  datatype Task = Task(id: TaskId, model: Model, path: string)

  type Future = nat
  type Patch = seq<real>
  type Row = seq<real>

  /** A task whose patches wait for the GPU. */
  datatype Item = Item(task: Task, patches: seq<Patch>)

  /** A row of one of the four submit buffers. */
  datatype Outcome = Vector(id: TaskId, vector: Row) | Analysis(id: TaskId, features: Row)
                   | HeadRow(id: TaskId, scores: seq<Row>) | Failure(id: TaskId)

  datatype Exn = Http(code: nat) | Url | OtherError

  /** The server's word on a task, or the exception that asking for it raised. */
  datatype Reply = Active | Inactive | Fails(e: Exn)

  /** What was asked: `task_is_active`, or the state check of `close_inactive_task`. */
  datatype Answer = Asked(id: TaskId, reply: Reply) | Checked(id: TaskId, reply: Reply)

  /**
   History kept for the proofs: every outcome in the order it was produced; the
   outcomes handed to the server; the server's answers and the handled futures
   in order; the tasks let go because an inactive check was not confirmed,
   because the worker drains, or because the server did not answer their
   submission.
   */
  datatype Trace = Trace(log: seq<Outcome>, sent: multiset<Outcome>, answers: seq<Answer>, handled: seq<Future>,
                         unconfirmed: set<TaskId>, abandoned: set<TaskId>, unanswered: set<TaskId>)

  datatype State = State(
    draining: bool,
    leased: set<TaskId>, acknowledged: set<TaskId>, completed: set<TaskId>,
    audioPaths: map<TaskId, string>,
    results: seq<Outcome>, features: seq<Outcome>, heads: seq<Outcome>, failures: seq<Outcome>,
    downloads: map<Future, Task>, cpu: map<Future, Task>, preprocessing: map<Future, Task>,
    readyEmbeddings: seq<Item>, readyHeads: seq<Task>,
    nextFuture: Future,
    trace: Trace)

  function Start(): State {
    State(false, {}, {}, {}, map[], [], [], [], [], map[], map[], map[], [], [], 0,
        Trace([], multiset{}, [], [], {}, {}, {}))
  }

  // ------------------------------------------------------------------- readings

  ghost predicate Holds(m: map<Future, Task>, id: TaskId) {
    exists f :: f in m && m[f].id == id
  }

  ghost predicate HasItem(items: seq<Item>, id: TaskId) {
    exists i :: 0 <= i < |items| && items[i].task.id == id
  }

  ghost predicate HasTask(tasks: seq<Task>, id: TaskId) {
    exists i :: 0 <= i < |tasks| && tasks[i].id == id
  }

  ghost predicate HasRow(rows: seq<Outcome>, id: TaskId) {
    exists i :: 0 <= i < |rows| && rows[i].id == id
  }

  ghost function IdsOfRows(rows: seq<Outcome>): set<TaskId> {
    set i | 0 <= i < |rows| :: rows[i].id
  }

  /** The task is downloading, computing, or ready for a batch. */
  ghost predicate Staged(s: State, id: TaskId) {
    || Holds(s.downloads, id) || Holds(s.cpu, id) || Holds(s.preprocessing, id)
    || HasItem(s.readyEmbeddings, id) || HasTask(s.readyHeads, id)
  }

  /** A row of the task waits to be submitted. */
  ghost predicate Buffered(s: State, id: TaskId) {
    HasRow(s.results, id) || HasRow(s.features, id) || HasRow(s.heads, id) || HasRow(s.failures, id)
  }

  ghost predicate LetGo(s: State, id: TaskId) {
    id in s.trace.unconfirmed || id in s.trace.abandoned || id in s.trace.unanswered
  }

  /** The future is in one of the three maps. */
  ghost predicate Pending(s: State, f: Future) {
    f in s.downloads || f in s.cpu || f in s.preprocessing
  }

  /** What counts against `max_inflight_tasks`. */
  function Load(s: State): nat {
    |s.downloads| + |s.cpu| + |s.preprocessing| + |s.readyEmbeddings| + |s.readyHeads|
  }

  ghost function Rows(s: State): multiset<Outcome> {
    multiset(s.results) + multiset(s.features) + multiset(s.heads) + multiset(s.failures)
  }

  // ----------------------------------------------------------------- invariants

  /** A temporary file is held for exactly the leased tasks that are not acknowledged. */
  ghost predicate Owned(s: State) {
    s.acknowledged <= s.leased && s.audioPaths.Keys == s.leased - s.acknowledged
  }

  /** The task is in a stage, in a buffer, or was let go. */
  ghost predicate InPlay(s: State, id: TaskId) {
    Staged(s, id) || Buffered(s, id) || LetGo(s, id)
  }

  /** The worker handles only what it leased. */
  ghost predicate Known(s: State) {
    forall id :: InPlay(s, id) ==> id in s.leased
  }

  /** No leased task is lost: it is acknowledged, in play, or in hand. */
  ghost predicate Accounted(s: State, hand: set<TaskId>) {
    forall id :: id in s.leased ==> id in s.acknowledged || InPlay(s, id) || id in hand
  }

  /** `hand` are the tasks a handler has taken from a stage and not yet decided on. */
  ghost predicate Books(s: State, hand: set<TaskId>) {
    Owned(s) && Known(s) && hand <= s.leased && Accounted(s, hand)
  }

  ghost predicate Below(m: map<Future, Task>, n: Future) {
    forall f :: f in m ==> f < n
  }

  ghost predicate Apart(a: map<Future, Task>, b: map<Future, Task>) {
    forall f :: f in a ==> f !in b
  }

  /** No future is in two maps, and all futures were handed out before. */
  ghost predicate OwnFutures(s: State) {
    && Below(s.downloads, s.nextFuture) && Below(s.cpu, s.nextFuture) && Below(s.preprocessing, s.nextFuture)
    && Apart(s.downloads, s.cpu) && Apart(s.downloads, s.preprocessing) && Apart(s.cpu, s.preprocessing)
  }

  /** Each buffer holds rows of its kind. */
  ghost predicate Kinds(s: State) {
    && (forall o :: o in s.results ==> o.Vector?) && (forall o :: o in s.features ==> o.Analysis?)
    && (forall o :: o in s.heads ==> o.HeadRow?) && (forall o :: o in s.failures ==> o.Failure?)
  }

  /** What was produced is waiting or was sent; tasks are abandoned only while draining. */
  ghost predicate Conserved(s: State) {
    && multiset(s.trace.log) == s.trace.sent + Rows(s)
    && (s.trace.abandoned != {} ==> s.draining)
  }

  /** A check that closes the task: it is inactive or unknown. */
  predicate Confirms(reply: Reply) {
    reply == Inactive || reply == Fails(Http(404))
  }

  ghost predicate ConfirmedAt(answers: seq<Answer>, i: nat, id: TaskId) {
    i < |answers| && answers[i].Checked? && answers[i].id == id && Confirms(answers[i].reply)
  }

  /** The server said that the task is inactive, and the check right after did not confirm it. */
  ghost predicate RefusedAt(answers: seq<Answer>, i: nat, id: TaskId) {
    && i + 1 < |answers| && answers[i] == Asked(id, Inactive)
    && answers[i + 1].Checked? && answers[i + 1].id == id && !Confirms(answers[i + 1].reply)
  }

  ghost predicate Confirmed(answers: seq<Answer>, id: TaskId) {
    exists i: nat :: ConfirmedAt(answers, i, id)
  }

  ghost predicate Refused(answers: seq<Answer>, id: TaskId) {
    exists i: nat :: RefusedAt(answers, i, id)
  }

  ghost predicate WasSent(sent: multiset<Outcome>, id: TaskId) {
    exists o :: o in sent && o.id == id
  }

  /**
   A task is acknowledged or let go only for what the server said or what was sent to
   it, and a task of which a row was sent is acknowledged or counts as unanswered.
   */
  ghost predicate Justified(s: State) {
    && (forall id :: WasSent(s.trace.sent, id) ==> id in s.acknowledged || id in s.trace.unanswered)
    && (forall id :: id in s.trace.unconfirmed ==> Refused(s.trace.answers, id))
    && (forall id :: id in s.trace.unanswered ==> WasSent(s.trace.sent, id))
    && (forall id :: id in s.acknowledged ==> WasSent(s.trace.sent, id) || Confirmed(s.trace.answers, id))
  }

  /** Every future handed out is pending or was handled, never both, and none was handled twice. */
  ghost predicate Served(s: State) {
    && (forall f: Future :: Pending(s, f) || f in s.trace.handled <==> f < s.nextFuture)
    && (forall f: Future :: Pending(s, f) ==> f !in s.trace.handled)
    && (forall i, j :: 0 <= i < j < |s.trace.handled| ==> s.trace.handled[i] != s.trace.handled[j])
  }

  ghost predicate Good(s: State, hand: set<TaskId>) {
    Books(s, hand) && OwnFutures(s) && Served(s) && Kinds(s) && Conserved(s) && Justified(s)
  }

  /**
   What any number of steps keeps: nothing is forgotten, draining stops leasing,
   and exactly the `taken` futures are handled, in order, and leave their map.
   */
  ghost predicate Follows(a: State, b: State, taken: seq<Future>) {
    && (a.draining ==> b.draining && b.leased == a.leased)
    && a.leased <= b.leased && a.acknowledged <= b.acknowledged && a.completed <= b.completed
    && a.trace.log <= b.trace.log && a.trace.answers <= b.trace.answers && a.nextFuture <= b.nextFuture
    && b.trace.handled == a.trace.handled + taken
    && Stays(a.downloads, b.downloads, taken) && Stays(a.cpu, b.cpu, taken)
       && Stays(a.preprocessing, b.preprocessing, taken)
  }

  ghost predicate Stays(a: map<Future, Task>, b: map<Future, Task>, taken: seq<Future>) {
    forall f :: f in a && f !in taken ==> f in b && b[f] == a[f]
  }

  /** Any number of changes: the state stays good, follows, and takes up at most `room` more places. */
  ghost predicate Step(a: State, b: State, hand: set<TaskId>, taken: seq<Future>, room: int) {
    Good(b, hand) && Follows(a, b, taken) && Load(b) <= Load(a) + room
  }

  lemma {:induction false} FollowsJoin(a: State, b: State, c: State, p: seq<Future>, q: seq<Future>)
    requires Follows(a, b, p) && Follows(b, c, q)
    ensures Follows(a, c, p + q)
  {
  }

  lemma {:induction false} FollowsSelf(a: State)
    ensures Follows(a, a, [])
  {
  }

  /** Answers only accumulate, so what they say stays said. */
  lemma {:induction false} StaysSaid(before: seq<Answer>, after: seq<Answer>, id: TaskId)
    requires before <= after
    ensures Confirmed(before, id) ==> Confirmed(after, id)
    ensures Refused(before, id) ==> Refused(after, id)
  {
    if Confirmed(before, id) {
      var i: nat :| ConfirmedAt(before, i, id);
      assert ConfirmedAt(after, i, id);
    }
    if Refused(before, id) {
      var i: nat :| RefusedAt(before, i, id);
      assert RefusedAt(after, i, id);
    }
  }

  /** With no more acknowledgements or tasks let go, more answers and more sent rows keep the state justified. */
  lemma {:induction false} StaysJustified(a: State, b: State)
    requires Justified(a) && a.trace.answers <= b.trace.answers && a.trace.sent <= b.trace.sent
    requires a.acknowledged <= b.acknowledged && a.trace.unanswered <= b.trace.unanswered
    requires forall id :: WasSent(b.trace.sent, id) ==>
             WasSent(a.trace.sent, id) || id in b.acknowledged || id in b.trace.unanswered
    requires forall id :: id in b.trace.unconfirmed ==> id in a.trace.unconfirmed || Refused(b.trace.answers, id)
    requires forall id :: id in b.trace.unanswered ==> id in a.trace.unanswered || WasSent(b.trace.sent, id)
    requires forall id :: id in b.acknowledged ==>
             id in a.acknowledged || WasSent(b.trace.sent, id) || Confirmed(b.trace.answers, id)
    ensures Justified(b)
  {
    forall id
      ensures Confirmed(a.trace.answers, id) ==> Confirmed(b.trace.answers, id)
      ensures Refused(a.trace.answers, id) ==> Refused(b.trace.answers, id)
      ensures WasSent(a.trace.sent, id) ==> WasSent(b.trace.sent, id)
    {
      StaysSaid(a.trace.answers, b.trace.answers, id);
    }
    hide Confirmed, Refused, WasSent;
  }

  // --------------------------------------------------------- elementary changes

  /** The server answered a question about a task. */
  function Answered(s: State, answer: Answer): State {
    s.(trace := s.trace.(answers := s.trace.answers + [answer]))
  }

  /** `acknowledged_task_ids.add` and `_release_audio_path`. */
  function Closed(s: State, id: TaskId): State {
    s.(acknowledged := s.acknowledged + {id}, audioPaths := s.audioPaths - {id})
  }

  /** A row goes to its buffer and the task is completed. */
  function Produced(s: State, o: Outcome): State {
    var t := s.(completed := s.completed + {o.id}, trace := s.trace.(log := s.trace.log + [o]));
    match o
    case Vector(_, _) => t.(results := t.results + [o])
    case Analysis(_, _) => t.(features := t.features + [o])
    case HeadRow(_, _) => t.(heads := t.heads + [o])
    case Failure(_) => t.(failures := t.failures + [o])
  }

  /** A task is let go: because of the drain, or because its inactivity was not confirmed. */
  function Dropped(s: State, id: TaskId): State {
    if s.draining then s.(trace := s.trace.(abandoned := s.trace.abandoned + {id}))
    else s.(trace := s.trace.(unconfirmed := s.trace.unconfirmed + {id}))
  }

  function Drained(s: State): State {
    s.(draining := true)
  }

  function Leased(s: State, task: Task): State {
    s.(leased := s.leased + {task.id},
       audioPaths := s.audioPaths[task.id := task.path],
       downloads := s.downloads[s.nextFuture := task],
       nextFuture := s.nextFuture + 1)
  }

  function SentToCpu(s: State, task: Task): State {
    s.(cpu := s.cpu[s.nextFuture := task], nextFuture := s.nextFuture + 1)
  }

  function SentToPreprocessing(s: State, task: Task): State {
    s.(preprocessing := s.preprocessing[s.nextFuture := task], nextFuture := s.nextFuture + 1)
  }

  function TookFuture(s: State, f: Future): State {
    s.(downloads := s.downloads - {f}, cpu := s.cpu - {f}, preprocessing := s.preprocessing - {f},
       trace := s.trace.(handled := s.trace.handled + [f]))
  }

  ghost function BufferedIds(s: State): set<TaskId> {
    IdsOfRows(s.results) + IdsOfRows(s.features) + IdsOfRows(s.heads) + IdsOfRows(s.failures)
  }

  /** All four buffers were submitted; the server answered about `answered`. */
  ghost function Flushed(s: State, answered: set<TaskId>): State {
    s.(results := [], features := [], heads := [], failures := [],
       acknowledged := s.acknowledged + answered, audioPaths := s.audioPaths - answered,
       trace := s.trace.(sent := s.trace.sent + Rows(s),
                         unanswered := s.trace.unanswered + (BufferedIds(s) - answered)))
  }

  /** The results were submitted, then submitting the failures raised: the answers are lost. */
  ghost function HalfFlushed(s: State): State {
    s.(results := [], features := [], heads := [],
       trace := s.trace.(sent := s.trace.sent + multiset(s.results) + multiset(s.features) + multiset(s.heads),
                         unanswered := s.trace.unanswered
                                       + IdsOfRows(s.results) + IdsOfRows(s.features) + IdsOfRows(s.heads)))
  }

  // -------------------------------------------------- what each of them keeps

  /** The same leases and acknowledgements. */
  ghost predicate SameBooks(a: State, b: State) {
    b.leased == a.leased && b.acknowledged == a.acknowledged && b.audioPaths == a.audioPaths
  }

  /** A task enters play and leaves the hand. */
  lemma {:induction false} BooksPut(a: State, b: State, hand: set<TaskId>, id: TaskId)
    requires Books(a, hand) && id in a.leased && SameBooks(a, b)
    requires forall x {:trigger InPlay(b, x)} :: InPlay(b, x) <==> InPlay(a, x) || x == id
    ensures Books(b, hand - {id})
  {
    hide InPlay;
  }

  /** A task leaves play and is in hand instead. */
  lemma {:induction false} BooksTake(a: State, b: State, hand: set<TaskId>, id: TaskId)
    requires Books(a, hand) && SameBooks(a, b)
    requires forall x {:trigger InPlay(a, x)} :: InPlay(a, x) <==> InPlay(b, x) || x == id
    ensures Books(b, hand + {id}) && id in a.leased
  {
    hide InPlay;
    assert InPlay(a, id);
  }

  /** Leases, stages and futures are the same; draining, acknowledgements, completions and the log only grow. */
  ghost predicate SameStages(a: State, b: State) {
    && b.leased == a.leased && b.downloads == a.downloads && b.cpu == a.cpu && b.preprocessing == a.preprocessing
    && b.readyEmbeddings == a.readyEmbeddings && b.readyHeads == a.readyHeads && b.nextFuture == a.nextFuture
    && (a.draining ==> b.draining) && a.acknowledged <= b.acknowledged && a.completed <= b.completed
    && a.trace.log <= b.trace.log && a.trace.answers <= b.trace.answers && b.trace.handled == a.trace.handled
  }

  lemma {:induction false} SameStagesStep(a: State, b: State, hand: set<TaskId>)
    requires OwnFutures(a) && Served(a) && SameStages(a, b)
    requires Books(b, hand) && Kinds(b) && Conserved(b) && Justified(b)
    ensures Step(a, b, hand, [], 0)
  {
    hide Books, Kinds, Conserved, Justified;
    assert forall f: Future :: Pending(a, f) <==> Pending(b, f);
    hide Pending;
  }

  lemma {:induction false} AnsweredGood(s: State, hand: set<TaskId>, answer: Answer)
    requires Good(s, hand)
    ensures Step(s, Answered(s, answer), hand, [], 0)
  {
    var t := Answered(s, answer);
    assert Books(t, hand) by {
      hide Holds, HasItem, HasTask, HasRow, Kinds, Conserved, OwnFutures, Justified, Served;
      assert forall x :: InPlay(t, x) <==> InPlay(s, x);
      hide InPlay;
    }
    hide Books, OwnFutures, Served, Refused, Confirmed, WasSent;
    StaysJustified(s, t);
    SameStagesStep(s, t, hand);
  }

  lemma {:induction false} ClosedGood(s: State, hand: set<TaskId>, id: TaskId)
    requires Good(s, hand) && id in s.leased && Confirmed(s.trace.answers, id)
    ensures Step(s, Closed(s, id), hand - {id}, [], 0)
  {
    var t := Closed(s, id);
    assert Books(t, hand - {id}) by {
      hide Holds, HasItem, HasTask, HasRow, Kinds, Conserved, OwnFutures, Justified, Served;
      assert forall x :: InPlay(t, x) <==> InPlay(s, x);
      hide InPlay;
    }
    hide Books, OwnFutures, Served, Refused, Confirmed, WasSent;
    StaysJustified(s, t);
    SameStagesStep(s, t, hand - {id});
  }

  lemma {:induction false} RowsGrow(rows: seq<Outcome>, o: Outcome, x: TaskId)
    ensures HasRow(rows + [o], x) <==> HasRow(rows, x) || x == o.id
    ensures multiset(rows + [o]) == multiset(rows) + multiset{o}
  {
    assert (rows + [o])[|rows|] == o;
    if HasRow(rows, x) {
      var i :| 0 <= i < |rows| && rows[i].id == x;
      assert (rows + [o])[i] == rows[i];
    }
  }

  lemma {:induction false} ProducedInPlay(s: State, o: Outcome, x: TaskId)
    ensures InPlay(Produced(s, o), x) <==> InPlay(s, x) || x == o.id
  {
    RowsGrow(s.results, o, x);
    RowsGrow(s.features, o, x);
    RowsGrow(s.heads, o, x);
    RowsGrow(s.failures, o, x);
    hide Holds, HasItem, HasTask, HasRow;
  }

  lemma {:induction false} ProducedConserved(s: State, o: Outcome)
    requires Conserved(s)
    ensures Conserved(Produced(s, o))
  {
    RowsGrow(s.trace.log, o, o.id);
    RowsGrow(s.results, o, o.id);
    RowsGrow(s.features, o, o.id);
    RowsGrow(s.heads, o, o.id);
    RowsGrow(s.failures, o, o.id);
  }

  lemma {:induction false} ProducedBooks(s: State, hand: set<TaskId>, o: Outcome)
    requires Books(s, hand) && o.id in s.leased
    ensures Books(Produced(s, o), hand - {o.id})
  {
    var t := Produced(s, o);
    forall x ensures InPlay(t, x) <==> InPlay(s, x) || x == o.id {
      ProducedInPlay(s, o, x);
    }
    hide Books, InPlay;
    BooksPut(s, t, hand, o.id);
  }

  /** A row changes its buffer, the log and the completed tasks. */
  lemma {:induction false} ProducedFrame(s: State, o: Outcome)
    ensures var t := Produced(s, o);
            && SameStages(s, t) && t.acknowledged == s.acknowledged
            && t.trace == s.trace.(log := s.trace.log + [o]) && (Kinds(s) ==> Kinds(t))
  {
  }

  lemma {:induction false} ProducedGood(s: State, hand: set<TaskId>, o: Outcome)
    requires Good(s, hand) && o.id in s.leased
    ensures Step(s, Produced(s, o), hand - {o.id}, [], 0)
  {
    hide Produced, Books, Conserved, OwnFutures, Served, Refused, Confirmed, WasSent, Kinds;
    ProducedFrame(s, o);
    ProducedBooks(s, hand, o);
    ProducedConserved(s, o);
    StaysJustified(s, Produced(s, o));
    hide SameStages;
    SameStagesStep(s, Produced(s, o), hand - {o.id});
  }

  lemma {:induction false} DroppedGood(s: State, hand: set<TaskId>, id: TaskId)
    requires Good(s, hand) && id in s.leased && (s.draining || Refused(s.trace.answers, id))
    ensures Step(s, Dropped(s, id), hand - {id}, [], 0)
  {
    var t := Dropped(s, id);
    forall x ensures InPlay(t, x) <==> InPlay(s, x) || x == id {
      hide Holds, HasItem, HasTask, HasRow;
    }
    hide Books, InPlay, OwnFutures, Served, Refused, Confirmed, WasSent;
    StaysJustified(s, t);
    BooksPut(s, t, hand, id);
    SameStagesStep(s, t, hand - {id});
  }

  lemma {:induction false} DrainedGood(s: State, hand: set<TaskId>)
    requires Good(s, hand)
    ensures Step(s, Drained(s), hand, [], 0)
  {
    var t := Drained(s);
    assert Books(t, hand) by {
      hide Holds, HasItem, HasTask, HasRow;
      assert forall x :: InPlay(t, x) <==> InPlay(s, x);
      hide InPlay;
    }
    hide Books, OwnFutures, Served, Refused, Confirmed, WasSent;
    SameStagesStep(s, t, hand);
  }

  lemma {:induction false} AddTask(m: map<Future, Task>, f: Future, task: Task, x: TaskId)
    requires f !in m
    ensures Holds(m[f := task], x) <==> Holds(m, x) || x == task.id
    ensures |m[f := task]| == |m| + 1
  {
    var n := m[f := task];
    assert n[f].id == task.id;
    if Holds(m, x) {
      var g :| g in m && m[g].id == x;
      assert n[g] == m[g];
    }
    assert n.Keys == m.Keys + {f};
  }

  lemma {:induction false} DropTask(m: map<Future, Task>, f: Future, x: TaskId)
    requires f in m
    ensures Holds(m, x) <==> Holds(m - {f}, x) || x == m[f].id
    ensures |m - {f}| == |m| - 1
  {
    var n := m - {f};
    if Holds(m, x) && x != m[f].id {
      var g :| g in m && m[g].id == x;
      assert g in n && n[g] == m[g];
    }
    if Holds(n, x) {
      var g :| g in n && n[g].id == x;
      assert m[g] == n[g];
    }
    assert n.Keys == m.Keys - {f};
  }

  /** The same buffers and acknowledgements, and but for handled futures the same history. */
  ghost predicate SameRows(a: State, b: State) {
    && a.results == b.results && a.features == b.features && a.heads == b.heads && a.failures == b.failures
    && b.trace == a.trace.(handled := b.trace.handled) && a.draining == b.draining && a.acknowledged == b.acknowledged
  }

  lemma {:induction false} SameRowsGood(a: State, b: State, hand: set<TaskId>)
    requires Kinds(a) && Conserved(a) && Justified(a) && SameRows(a, b)
    requires Books(b, hand) && OwnFutures(b) && Served(b)
    ensures Good(b, hand)
  {
    hide Books, OwnFutures, Served, Refused, Confirmed, WasSent;
  }

  /** One more future was handed out. */
  lemma {:induction false} ServedMore(a: State, b: State)
    requires Served(a) && b.trace.handled == a.trace.handled && b.nextFuture == a.nextFuture + 1
    requires forall f: Future :: Pending(b, f) <==> Pending(a, f) || f == a.nextFuture
    ensures Served(b)
  {
    hide Pending;
    assert !(Pending(a, a.nextFuture) || a.nextFuture in a.trace.handled);
  }

  /** A pending future was handled. */
  lemma {:induction false} ServedOne(a: State, b: State, f: Future)
    requires Served(a) && Pending(a, f) && b.trace.handled == a.trace.handled + [f] && b.nextFuture == a.nextFuture
    requires forall g: Future :: Pending(b, g) <==> Pending(a, g) && g != f
    ensures Served(b)
  {
    hide Pending;
    assert f !in a.trace.handled;
  }

  /** The next future is in no map. */
  lemma {:induction false} FreshFuture(s: State)
    requires OwnFutures(s)
    ensures s.nextFuture !in s.downloads && s.nextFuture !in s.cpu && s.nextFuture !in s.preprocessing
  {
  }

  /** What a new future in one map means for that map and any other. */
  lemma {:induction false} NewFuture(m: map<Future, Task>, n: Future, task: Task, other: map<Future, Task>)
    requires Below(m, n) && Below(other, n)
    ensures Below(m[n := task], n + 1) && Below(other, n + 1)
    ensures Apart(m, other) ==> Apart(m[n := task], other)
    ensures Apart(other, m) ==> Apart(other, m[n := task])
    ensures Stays(m, m[n := task], []) && Stays(other, other, [])
    ensures |m[n := task]| == |m| + 1
  {
    AddTask(m, n, task, task.id);
    hide Holds;
  }

  lemma {:induction false} LeasedMoves(s: State, task: Task)
    requires OwnFutures(s) && Served(s) && !s.draining
    ensures OwnFutures(Leased(s, task)) && Served(Leased(s, task)) && Follows(s, Leased(s, task), [])
    ensures Load(Leased(s, task)) == Load(s) + 1
  {
    hide Below, Apart, Stays, Served;
    assert forall f: Future :: Pending(Leased(s, task), f) <==> Pending(s, f) || f == s.nextFuture;
    ServedMore(s, Leased(s, task));
    hide Pending;
    NewFuture(s.downloads, s.nextFuture, task, s.cpu);
    NewFuture(s.downloads, s.nextFuture, task, s.preprocessing);
  }

  lemma {:induction false} SentToCpuMoves(s: State, task: Task)
    requires OwnFutures(s) && Served(s)
    ensures OwnFutures(SentToCpu(s, task)) && Served(SentToCpu(s, task)) && Follows(s, SentToCpu(s, task), [])
    ensures Load(SentToCpu(s, task)) == Load(s) + 1
  {
    hide Below, Apart, Stays, Served;
    assert forall f: Future :: Pending(SentToCpu(s, task), f) <==> Pending(s, f) || f == s.nextFuture;
    ServedMore(s, SentToCpu(s, task));
    hide Pending;
    NewFuture(s.cpu, s.nextFuture, task, s.downloads);
    NewFuture(s.cpu, s.nextFuture, task, s.preprocessing);
  }

  lemma {:induction false} SentToPreprocessingMoves(s: State, task: Task)
    requires OwnFutures(s) && Served(s)
    ensures OwnFutures(SentToPreprocessing(s, task)) && Served(SentToPreprocessing(s, task))
            && Follows(s, SentToPreprocessing(s, task), [])
    ensures Load(SentToPreprocessing(s, task)) == Load(s) + 1
  {
    hide Below, Apart, Stays, Served;
    assert forall f: Future :: Pending(SentToPreprocessing(s, task), f) <==> Pending(s, f) || f == s.nextFuture;
    ServedMore(s, SentToPreprocessing(s, task));
    hide Pending;
    NewFuture(s.preprocessing, s.nextFuture, task, s.downloads);
    NewFuture(s.preprocessing, s.nextFuture, task, s.cpu);
  }

  lemma {:induction false} LeasedBooks(s: State, hand: set<TaskId>, task: Task)
    requires Books(s, hand) && task.id !in s.acknowledged
    requires forall x {:trigger InPlay(Leased(s, task), x)} :: InPlay(Leased(s, task), x) <==>
             InPlay(s, x) || x == task.id
    ensures Books(Leased(s, task), hand)
  {
    hide InPlay;
  }

  /** A fresh id keeps the books; so does an id whose lease ran out before anyone answered for it. */
  lemma {:induction false} LeasedGood(s: State, hand: set<TaskId>, task: Task)
    requires Good(s, hand) && task.id !in s.acknowledged && !s.draining
    ensures Step(s, Leased(s, task), hand, [], 1)
  {
    var t := Leased(s, task);
    forall x ensures InPlay(t, x) <==> InPlay(s, x) || x == task.id {
      FreshFuture(s);
      hide Holds, HasItem, HasTask, HasRow;
      AddTask(s.downloads, s.nextFuture, task, x);
    }
    hide InPlay, OwnFutures, Served, Follows, Load, Kinds, Conserved, Justified;
    LeasedMoves(s, task);
    LeasedBooks(s, hand, task);
    SameRowsGood(s, t, hand);
  }

  /**
   Claiming an id keeps the files matched to the open leases exactly when the worker
   has not acknowledged that id already.
   */
  lemma {:induction false} LeaseKeepsOwnedIff(s: State, task: Task)
    requires Owned(s)
    ensures Owned(Leased(s, task)) <==> task.id !in s.acknowledged
  {
    assert task.id in Leased(s, task).audioPaths;
  }

  lemma {:induction false} SentToCpuGood(s: State, hand: set<TaskId>, task: Task)
    requires Good(s, hand) && task.id in s.leased
    ensures Step(s, SentToCpu(s, task), hand - {task.id}, [], 1)
  {
    var t := SentToCpu(s, task);
    forall x ensures InPlay(t, x) <==> InPlay(s, x) || x == task.id {
      FreshFuture(s);
      hide Holds, HasItem, HasTask, HasRow;
      AddTask(s.cpu, s.nextFuture, task, x);
    }
    hide InPlay, OwnFutures, Served, Follows, Load, Kinds, Conserved, Justified;
    SentToCpuMoves(s, task);
    BooksPut(s, t, hand, task.id);
    SameRowsGood(s, t, hand - {task.id});
  }

  lemma {:induction false} SentToPreprocessingGood(s: State, hand: set<TaskId>, task: Task)
    requires Good(s, hand) && task.id in s.leased
    ensures Step(s, SentToPreprocessing(s, task), hand - {task.id}, [], 1)
  {
    var t := SentToPreprocessing(s, task);
    forall x ensures InPlay(t, x) <==> InPlay(s, x) || x == task.id {
      FreshFuture(s);
      hide Holds, HasItem, HasTask, HasRow;
      AddTask(s.preprocessing, s.nextFuture, task, x);
    }
    hide InPlay, OwnFutures, Served, Follows, Load, Kinds, Conserved, Justified;
    SentToPreprocessingMoves(s, task);
    BooksPut(s, t, hand, task.id);
    SameRowsGood(s, t, hand - {task.id});
  }

  ghost function TaskOf(s: State, f: Future): Task
    requires Pending(s, f)
  {
    if f in s.downloads then s.downloads[f] else if f in s.cpu then s.cpu[f] else s.preprocessing[f]
  }

  lemma {:induction false} WithoutKey<K, V>(m: map<K, V>, k: K)
    requires k !in m
    ensures m - {k} == m
  {
  }

  lemma {:induction false} TookFutureInPlay(s: State, f: Future, x: TaskId)
    requires OwnFutures(s) && Pending(s, f)
    ensures InPlay(s, x) <==> InPlay(TookFuture(s, f), x) || x == TaskOf(s, f).id
    ensures Load(TookFuture(s, f)) == Load(s) - 1
  {
    hide Holds, HasItem, HasTask, HasRow;
    if f in s.downloads {
      DropTask(s.downloads, f, x);
      WithoutKey(s.cpu, f);
      WithoutKey(s.preprocessing, f);
    } else if f in s.cpu {
      DropTask(s.cpu, f, x);
      WithoutKey(s.downloads, f);
      WithoutKey(s.preprocessing, f);
    } else {
      DropTask(s.preprocessing, f, x);
      WithoutKey(s.downloads, f);
      WithoutKey(s.cpu, f);
    }
  }

  lemma {:induction false} TookFutureMoves(s: State, f: Future)
    requires OwnFutures(s) && Served(s) && Pending(s, f)
    ensures OwnFutures(TookFuture(s, f)) && Served(TookFuture(s, f)) && Follows(s, TookFuture(s, f), [f])
  {
    ServedOne(s, TookFuture(s, f), f);
    hide Served;
  }

  /** Taking a done future puts its task in hand and makes room for one more. */
  lemma {:induction false} TookFutureGood(s: State, hand: set<TaskId>, f: Future)
    requires Good(s, hand) && Pending(s, f)
    ensures Step(s, TookFuture(s, f), hand + {TaskOf(s, f).id}, [f], -1) && TaskOf(s, f).id in s.leased
  {
    hide InPlay, OwnFutures, Served, Follows, Load, Kinds, Conserved, Justified, TaskOf, Pending;
    var t, id := TookFuture(s, f), TaskOf(s, f).id;
    forall x ensures InPlay(s, x) <==> InPlay(t, x) || x == id {
      TookFutureInPlay(s, f, x);
    }
    TookFutureInPlay(s, f, id);
    TookFutureMoves(s, f);
    BooksTake(s, t, hand, id);
    SameRowsGood(s, t, hand + {id});
  }

  lemma {:induction false} BufferedIn(s: State, x: TaskId)
    ensures x in BufferedIds(s) <==> Buffered(s, x)
  {
  }

  lemma {:induction false} FlushedBooks(s: State, hand: set<TaskId>, answered: set<TaskId>)
    requires Books(s, hand) && answered <= BufferedIds(s)
    ensures Books(Flushed(s, answered), hand)
  {
    hide Holds, HasItem, HasTask;
    var t := Flushed(s, answered);
    forall x
      ensures InPlay(t, x) ==> InPlay(s, x)
      ensures InPlay(s, x) ==> InPlay(t, x) || x in answered
      ensures x in answered ==> InPlay(s, x)
    {
      BufferedIn(s, x);
      BufferedIn(t, x);
    }
    hide InPlay, BufferedIds;
  }

  lemma {:induction false} RowsSent(rows: seq<Outcome>, sent: multiset<Outcome>, x: TaskId)
    requires multiset(rows) <= sent && x in IdsOfRows(rows)
    ensures WasSent(sent, x)
  {
    var i :| 0 <= i < |rows| && rows[i].id == x;
    assert rows[i] in multiset(rows);
  }

  lemma {:induction false} BufferedSent(s: State, sent: multiset<Outcome>, x: TaskId)
    requires Rows(s) <= sent && x in BufferedIds(s)
    ensures WasSent(sent, x)
  {
    hide IdsOfRows, WasSent;
    if x in IdsOfRows(s.results) {
      RowsSent(s.results, sent, x);
    } else if x in IdsOfRows(s.features) {
      RowsSent(s.features, sent, x);
    } else if x in IdsOfRows(s.heads) {
      RowsSent(s.heads, sent, x);
    } else {
      RowsSent(s.failures, sent, x);
    }
  }

  lemma {:induction false} RowsOf(rows: seq<Outcome>, x: TaskId)
    ensures WasSent(multiset(rows), x) ==> x in IdsOfRows(rows)
  {
    if WasSent(multiset(rows), x) {
      var o :| o in multiset(rows) && o.id == x;
      var i :| 0 <= i < |rows| && rows[i] == o;
    }
  }

  lemma {:induction false} SentJoin(a: multiset<Outcome>, b: multiset<Outcome>, x: TaskId)
    ensures WasSent(a + b, x) <==> WasSent(a, x) || WasSent(b, x)
  {
    if WasSent(a + b, x) {
      var o :| o in a + b && o.id == x;
      assert o in a || o in b;
    }
    if WasSent(a, x) {
      var o :| o in a && o.id == x;
      assert o in a + b;
    }
    if WasSent(b, x) {
      var o :| o in b && o.id == x;
      assert o in a + b;
    }
  }

  /** What is sent with the results was sent before or is of a task with a buffered result. */
  lemma {:induction false} ResultsFrom(s: State, x: TaskId)
    requires WasSent(s.trace.sent + multiset(s.results) + multiset(s.features) + multiset(s.heads), x)
    ensures || WasSent(s.trace.sent, x)
            || x in IdsOfRows(s.results) || x in IdsOfRows(s.features) || x in IdsOfRows(s.heads)
  {
    hide WasSent, IdsOfRows;
    SentJoin(s.trace.sent + multiset(s.results) + multiset(s.features), multiset(s.heads), x);
    SentJoin(s.trace.sent + multiset(s.results), multiset(s.features), x);
    SentJoin(s.trace.sent, multiset(s.results), x);
    RowsOf(s.results, x);
    RowsOf(s.features, x);
    RowsOf(s.heads, x);
  }

  lemma {:induction false} AllFrom(s: State, x: TaskId)
    requires WasSent(s.trace.sent + Rows(s), x)
    ensures WasSent(s.trace.sent, x) || x in BufferedIds(s)
  {
    hide WasSent, IdsOfRows;
    var most := s.trace.sent + multiset(s.results) + multiset(s.features) + multiset(s.heads);
    assert s.trace.sent + Rows(s) == most + multiset(s.failures);
    SentJoin(most, multiset(s.failures), x);
    RowsOf(s.failures, x);
    if WasSent(most, x) {
      ResultsFrom(s, x);
    }
  }

  lemma {:induction false} FlushedJustified(s: State, answered: set<TaskId>)
    requires Justified(s) && answered <= BufferedIds(s)
    ensures Justified(Flushed(s, answered))
  {
    var t := Flushed(s, answered);
    forall x | x in BufferedIds(s) ensures WasSent(t.trace.sent, x) {
      BufferedSent(s, t.trace.sent, x);
    }
    forall x | WasSent(t.trace.sent, x) ensures WasSent(s.trace.sent, x) || x in BufferedIds(s) {
      AllFrom(s, x);
    }
    hide BufferedIds, Rows, WasSent, Refused, Confirmed;
    StaysJustified(s, t);
  }

  lemma {:induction false} FlushedGood(s: State, hand: set<TaskId>, answered: set<TaskId>)
    requires Good(s, hand) && answered <= BufferedIds(s)
    ensures Step(s, Flushed(s, answered), hand, [], 0)
  {
    FlushedBooks(s, hand, answered);
    FlushedJustified(s, answered);
    hide Books, InPlay, BufferedIds, OwnFutures, Served, Justified;
    SameStagesStep(s, Flushed(s, answered), hand);
  }

  lemma {:induction false} HalfFlushedBooks(s: State, hand: set<TaskId>)
    requires Books(s, hand)
    ensures Books(HalfFlushed(s), hand)
  {
    hide Holds, HasItem, HasTask;
    var t := HalfFlushed(s);
    forall x ensures InPlay(t, x) <==> InPlay(s, x) {
    }
    hide InPlay, IdsOfRows;
  }

  lemma {:induction false} HalfFlushedJustified(s: State)
    requires Justified(s)
    ensures Justified(HalfFlushed(s))
  {
    var t := HalfFlushed(s);
    hide IdsOfRows;
    forall x | x in IdsOfRows(s.results) + IdsOfRows(s.features) + IdsOfRows(s.heads) ensures WasSent(t.trace.sent, x) {
      hide WasSent;
      if x in IdsOfRows(s.results) {
        RowsSent(s.results, t.trace.sent, x);
      } else if x in IdsOfRows(s.features) {
        RowsSent(s.features, t.trace.sent, x);
      } else {
        RowsSent(s.heads, t.trace.sent, x);
      }
    }
    forall x | WasSent(t.trace.sent, x)
      ensures WasSent(s.trace.sent, x) || x in t.trace.unanswered
    {
      ResultsFrom(s, x);
    }
    hide WasSent, Refused, Confirmed;
    StaysJustified(s, t);
  }

  lemma {:induction false} HalfFlushedGood(s: State, hand: set<TaskId>)
    requires Good(s, hand)
    ensures Step(s, HalfFlushed(s), hand, [], 0)
  {
    HalfFlushedBooks(s, hand);
    HalfFlushedJustified(s);
    hide Books, InPlay, IdsOfRows, OwnFutures, Served, Justified;
    SameStagesStep(s, HalfFlushed(s), hand);
  }

  /**
   Where every lease is between two handlers. It is acknowledged, because a row
   of it was sent or because the server confirmed that it is not active; or its
   file is held, and it is staged, or a row of it is buffered, or the server
   called it inactive and did not confirm that, or it was let go by a draining
   worker, or its row was sent and not answered.
   */
  lemma {:induction false} EveryLease(s: State, id: TaskId)
    requires Good(s, {}) && id in s.leased
    ensures id in s.acknowledged <==> id !in s.audioPaths
    ensures id in s.acknowledged ==> WasSent(s.trace.sent, id) || Confirmed(s.trace.answers, id)
    ensures id !in s.acknowledged ==>
              || Staged(s, id) || Buffered(s, id) || Refused(s.trace.answers, id)
              || (s.draining && id in s.trace.abandoned)
              || (id in s.trace.unanswered && WasSent(s.trace.sent, id))
  {
    hide Staged, Buffered, Refused, Confirmed, WasSent, Served, OwnFutures, Kinds;
    if id !in s.acknowledged {
      assert InPlay(s, id);
    }
  }

  /**
   While the worker is not draining and every submission was answered, an open
   lease has its file and is staged, buffered, or was called inactive by the
   server in an answer that the check right after it did not confirm.
   */
  lemma {:induction false} OpenLeases(s: State, id: TaskId)
    requires Good(s, {}) && !s.draining && s.trace.unanswered == {}
    requires id in s.leased && id !in s.acknowledged
    ensures id in s.audioPaths && (Staged(s, id) || Buffered(s, id) || Refused(s.trace.answers, id))
  {
    hide Good, Staged, Buffered, Refused, WasSent, Confirmed;
    EveryLease(s, id);
  }

  /** A row that was sent was produced before, and nothing that was produced is gone. */
  lemma {:induction false} SentWasProduced(s: State, hand: set<TaskId>, id: TaskId)
    requires Good(s, hand) && WasSent(s.trace.sent, id)
    ensures HasRow(s.trace.log, id)
  {
    hide Books, OwnFutures, Served, Kinds, Justified;
    var o :| o in s.trace.sent && o.id == id;
    assert o in multiset(s.trace.log);
    assert o in s.trace.log;
  }

  /** A task of which a row was produced is acknowledged, or still has one buffered, or was not answered. */
  lemma {:induction false} ProducedAndOpen(s: State, id: TaskId)
    requires Good(s, {}) && HasRow(s.trace.log, id) && id !in s.acknowledged
    ensures Buffered(s, id) || id in s.trace.unanswered
  {
    hide Books, OwnFutures, Served, Kinds, Refused, Confirmed, IdsOfRows;
    var i :| 0 <= i < |s.trace.log| && s.trace.log[i].id == id;
    assert s.trace.log[i] in multiset(s.trace.log);
    assert WasSent(s.trace.sent + Rows(s), id);
    AllFrom(s, id);
    BufferedIn(s, id);
  }

  /** A handled future was handed out, is pending no more, and was handled once. */
  lemma {:induction false} HandledOnce(s: State, hand: set<TaskId>, i: nat)
    requires Good(s, hand) && i < |s.trace.handled|
    ensures s.trace.handled[i] < s.nextFuture && !Pending(s, s.trace.handled[i])
    ensures forall j :: 0 <= j < |s.trace.handled| && j != i ==> s.trace.handled[j] != s.trace.handled[i]
  {
    hide Books, OwnFutures, Kinds, Conserved, Justified, Pending;
    assert s.trace.handled[i] in s.trace.handled;
  }

  // ----------------------------------------------------------- the ready lists

  function ReadyForGpu(s: State, item: Item): State {
    s.(readyEmbeddings := s.readyEmbeddings + [item])
  }

  function ReadyForHeads(s: State, task: Task): State {
    s.(readyHeads := s.readyHeads + [task])
  }

  /** The items of a model, in order. */
  function OfModel(items: seq<Item>, m: Model): seq<Item> {
    if items == [] then []
    else OfModel(items[..|items| - 1], m) + if items[|items| - 1].task.model == m then [items[|items| - 1]] else []
  }

  function OfOthers(items: seq<Item>, m: Model): seq<Item> {
    if items == [] then []
    else OfOthers(items[..|items| - 1], m) + if items[|items| - 1].task.model == m then [] else [items[|items| - 1]]
  }

  ghost function ItemIds(items: seq<Item>): set<TaskId> {
    set i | 0 <= i < |items| :: items[i].task.id
  }

  ghost function TaskIds(tasks: seq<Task>): set<TaskId> {
    set i | 0 <= i < |tasks| :: tasks[i].id
  }

  function TookModel(s: State, m: Model): State {
    s.(readyEmbeddings := OfOthers(s.readyEmbeddings, m))
  }

  function TookHeads(s: State, n: nat): State
    requires n <= |s.readyHeads|
  {
    s.(readyHeads := s.readyHeads[n..])
  }

  lemma {:induction false} HasItemGrows(items: seq<Item>, item: Item, x: TaskId)
    ensures HasItem(items + [item], x) <==> HasItem(items, x) || x == item.task.id
  {
    assert (items + [item])[|items|] == item;
    if HasItem(items, x) {
      var i :| 0 <= i < |items| && items[i].task.id == x;
      assert (items + [item])[i] == items[i];
    }
  }

  lemma {:induction false} HasTaskGrows(tasks: seq<Task>, task: Task, x: TaskId)
    ensures HasTask(tasks + [task], x) <==> HasTask(tasks, x) || x == task.id
  {
    assert (tasks + [task])[|tasks|] == task;
    if HasTask(tasks, x) {
      var i :| 0 <= i < |tasks| && tasks[i].id == x;
      assert (tasks + [task])[i] == tasks[i];
    }
  }

  /** The items are those of the model and the others. */
  lemma {:induction false} ModelSplit(items: seq<Item>, m: Model, x: TaskId)
    ensures HasItem(items, x) <==> HasItem(OfModel(items, m), x) || HasItem(OfOthers(items, m), x)
    ensures |items| == |OfModel(items, m)| + |OfOthers(items, m)|
  {
    if items != [] {
      var front, last := items[..|items| - 1], items[|items| - 1];
      ModelSplit(front, m, x);
      assert items == front + [last];
      HasItemGrows(front, last, x);
      HasItemGrows(OfModel(front, m), last, x);
      HasItemGrows(OfOthers(front, m), last, x);
      assert OfModel(front, m) + [] == OfModel(front, m) && OfOthers(front, m) + [] == OfOthers(front, m);
    }
  }

  lemma {:induction false} ItemIdsHold(items: seq<Item>, x: TaskId)
    ensures x in ItemIds(items) <==> HasItem(items, x)
  {
  }

  lemma {:induction false} HeadsSplit(tasks: seq<Task>, n: nat, x: TaskId)
    requires n <= |tasks|
    ensures HasTask(tasks, x) <==> x in TaskIds(tasks[..n]) || HasTask(tasks[n..], x)
  {
    if HasTask(tasks, x) {
      var i :| 0 <= i < |tasks| && tasks[i].id == x;
      if i < n {
        assert tasks[..n][i] == tasks[i];
      } else {
        assert tasks[n..][i - n] == tasks[i];
      }
    }
    if HasTask(tasks[n..], x) {
      var i :| 0 <= i < |tasks[n..]| && tasks[n..][i].id == x;
      assert tasks[n + i].id == x;
    }
  }

  lemma {:induction false} BooksTakeSet(a: State, b: State, hand: set<TaskId>, ids: set<TaskId>)
    requires Books(a, hand) && SameBooks(a, b)
    requires forall x {:trigger InPlay(a, x)} :: InPlay(a, x) <==> InPlay(b, x) || x in ids
    ensures Books(b, hand + ids)
  {
    hide InPlay;
    forall x | x in ids ensures x in a.leased {
      assert InPlay(a, x);
    }
  }

  // ------------------------------------------------------------------ sequences

  lemma {:induction false} StepJoin(a: State, b: State, c: State, hand: set<TaskId>, rest: set<TaskId>,
                                    p: seq<Future>, q: seq<Future>, taken: seq<Future>, m: int, n: int)
    requires Step(a, b, hand, p, m) && Step(b, c, rest, q, n) && taken == p + q
    ensures Step(a, c, rest, taken, m + n)
  {
    hide Good, Load;
    FollowsJoin(a, b, c, p, q);
  }

  /** Two steps that take no future. */
  lemma {:induction false} StepThen(a: State, b: State, c: State, hand: set<TaskId>, rest: set<TaskId>, m: int, n: int)
    requires Step(a, b, hand, [], m) && Step(b, c, rest, [], n)
    ensures Step(a, c, rest, [], m + n)
  {
    hide Good, Load, Follows;
    StepJoin(a, b, c, hand, rest, [], [], [], m, n);
  }

  lemma {:induction false} StepSelf(s: State, hand: set<TaskId>)
    requires Good(s, hand)
    ensures Step(s, s, hand, [], 0)
  {
    hide Good, Load;
  }

  /** Holding more leased tasks in hand is the weaker claim. */
  lemma {:induction false} StepWiden(a: State, b: State, hand: set<TaskId>, more: set<TaskId>, taken: seq<Future>,
                                     m: int)
    requires Step(a, b, hand, taken, m) && hand <= more <= b.leased
    ensures Step(a, b, more, taken, m)
  {
    hide OwnFutures, Served, Kinds, Conserved, Justified, Follows, Load, InPlay;
  }

  /** A step that decides one task, with the hand of the next turn. */
  lemma {:induction false} StepOn(a: State, b: State, c: State, hand: set<TaskId>, id: TaskId, next: set<TaskId>,
                                  m: int, n: int)
    requires Step(a, b, hand, [], m) && Step(b, c, hand - {id}, [], n) && hand - {id} <= next <= c.leased
    ensures Step(a, c, next, [], m + n)
  {
    hide Good, Load, Follows;
    StepThen(a, b, c, hand, hand - {id}, m, n);
    StepWiden(a, c, hand - {id}, next, [], m + n);
  }

  lemma {:induction false} HandIsLeased(s: State, hand: set<TaskId>)
    requires Good(s, hand)
    ensures hand <= s.leased
  {
  }

  lemma {:induction false} ReadyForGpuGood(s: State, hand: set<TaskId>, item: Item)
    requires Good(s, hand) && item.task.id in s.leased
    ensures Step(s, ReadyForGpu(s, item), hand - {item.task.id}, [], 1)
  {
    var t, id := ReadyForGpu(s, item), item.task.id;
    forall x ensures InPlay(t, x) <==> InPlay(s, x) || x == id {
      hide Holds, HasItem, HasTask, HasRow;
      HasItemGrows(s.readyEmbeddings, item, x);
    }
    assert forall f: Future :: Pending(t, f) <==> Pending(s, f);
    hide InPlay, Kinds, Conserved, Justified, Pending;
    BooksPut(s, t, hand, id);
    SameRowsGood(s, t, hand - {id});
    hide Good;
  }

  lemma {:induction false} ReadyForHeadsGood(s: State, hand: set<TaskId>, task: Task)
    requires Good(s, hand) && task.id in s.leased
    ensures Step(s, ReadyForHeads(s, task), hand - {task.id}, [], 1)
  {
    var t := ReadyForHeads(s, task);
    forall x ensures InPlay(t, x) <==> InPlay(s, x) || x == task.id {
      hide Holds, HasItem, HasTask, HasRow;
      HasTaskGrows(s.readyHeads, task, x);
    }
    assert forall f: Future :: Pending(t, f) <==> Pending(s, f);
    hide InPlay, Kinds, Conserved, Justified, Pending;
    BooksPut(s, t, hand, task.id);
    SameRowsGood(s, t, hand - {task.id});
    hide Good;
  }

  lemma {:induction false} TookModelInPlay(s: State, m: Model, x: TaskId)
    ensures InPlay(s, x) <==> InPlay(TookModel(s, m), x) || x in ItemIds(OfModel(s.readyEmbeddings, m))
  {
    hide Holds, HasItem, HasTask, HasRow, OfModel, OfOthers, ItemIds;
    ModelSplit(s.readyEmbeddings, m, x);
    ItemIdsHold(OfModel(s.readyEmbeddings, m), x);
  }

  /** The futures stay, and the model's items make room. */
  lemma {:induction false} TookModelMoves(s: State, m: Model)
    requires OwnFutures(s) && Served(s)
    ensures var t := TookModel(s, m);
            && OwnFutures(t) && Served(t) && Follows(s, t, [])
            && Load(t) == Load(s) - |OfModel(s.readyEmbeddings, m)|
  {
    ModelSplit(s.readyEmbeddings, m, TaskId(""));
    assert forall f: Future :: Pending(TookModel(s, m), f) <==> Pending(s, f);
    hide OfModel, OfOthers, Pending;
  }

  lemma {:induction false} TookModelGood(s: State, hand: set<TaskId>, m: Model)
    requires Good(s, hand)
    ensures Step(s, TookModel(s, m), hand + ItemIds(OfModel(s.readyEmbeddings, m)), [],
            -|OfModel(s.readyEmbeddings, m)|)
  {
    hide InPlay, Kinds, Conserved, Justified, ItemIds, OfModel, OfOthers, OwnFutures, Served, Follows, Load;
    var t, ids := TookModel(s, m), ItemIds(OfModel(s.readyEmbeddings, m));
    forall x ensures InPlay(s, x) <==> InPlay(t, x) || x in ids {
      TookModelInPlay(s, m, x);
    }
    TookModelMoves(s, m);
    BooksTakeSet(s, t, hand, ids);
    SameRowsGood(s, t, hand + ids);
  }

  lemma {:induction false} TookHeadsGood(s: State, hand: set<TaskId>, n: nat)
    requires Good(s, hand) && n <= |s.readyHeads|
    ensures Step(s, TookHeads(s, n), hand + TaskIds(s.readyHeads[..n]), [], 0 - n)
  {
    var t, ids := TookHeads(s, n), TaskIds(s.readyHeads[..n]);
    forall x ensures InPlay(s, x) <==> InPlay(t, x) || x in ids {
      hide Holds, HasItem, HasTask, HasRow, TaskIds;
      HeadsSplit(s.readyHeads, n, x);
    }
    assert forall f: Future :: Pending(t, f) <==> Pending(s, f);
    hide InPlay, Kinds, Conserved, Justified, Pending, TaskIds;
    BooksTakeSet(s, t, hand, ids);
    SameRowsGood(s, t, hand + ids);
    hide Good;
  }

  // ---------------------------------------------------------------- many at once

  function LeasedEach(s: State, tasks: seq<Task>): State {
    if tasks == [] then s else Leased(LeasedEach(s, tasks[..|tasks| - 1]), tasks[|tasks| - 1])
  }

  function ProducedEach(s: State, rows: seq<Outcome>): State {
    if rows == [] then s else Produced(ProducedEach(s, rows[..|rows| - 1]), rows[|rows| - 1])
  }

  /** The ids from a place on: the first, and the rest. */
  lemma {:induction false} ItemIdsFrom(items: seq<Item>, i: nat)
    requires i < |items|
    ensures ItemIds(items[i..]) == ItemIds(items[i + 1..]) + {items[i].task.id}
  {
    var now, rest := items[i..], items[i + 1..];
    assert now[0] == items[i];
    forall k | 0 <= k < |rest| ensures rest[k].task.id in ItemIds(now) {
      assert now[k + 1] == rest[k];
    }
    forall k | 0 <= k < |now| ensures now[k].task.id in ItemIds(rest) + {items[i].task.id} {
      if k > 0 {
        assert rest[k - 1] == now[k];
      }
    }
  }

  /** The hand while the items from a place on are not decided. */
  ghost function Left(hand: set<TaskId>, items: seq<Item>, i: nat): set<TaskId>
    requires i <= |items|
  {
    hand + ItemIds(items[i..])
  }

  lemma {:induction false} LeftAll(hand: set<TaskId>, items: seq<Item>)
    ensures Left(hand, items, 0) == hand + ItemIds(items) && Left(hand, items, |items|) == hand
  {
    assert items[0..] == items && items[|items|..] == [];
  }

  lemma {:induction false} LeftNext(hand: set<TaskId>, items: seq<Item>, i: nat)
    requires i < |items|
    ensures items[i].task.id in Left(hand, items, i)
    ensures Left(hand, items, i) - {items[i].task.id} <= Left(hand, items, i + 1)
    ensures Left(hand, items, i + 1) <= Left(hand, items, i) <= hand + ItemIds(items)
  {
    ItemIdsFrom(items, i);
    forall k | i <= k < |items| ensures items[k].task.id in ItemIds(items) {
    }
  }

  lemma {:induction false} TaskIdsFrom(tasks: seq<Task>, i: nat)
    requires i < |tasks|
    ensures TaskIds(tasks[i..]) == TaskIds(tasks[i + 1..]) + {tasks[i].id}
  {
    var now, rest := tasks[i..], tasks[i + 1..];
    assert now[0] == tasks[i];
    forall k | 0 <= k < |rest| ensures rest[k].id in TaskIds(now) {
      assert now[k + 1] == rest[k];
    }
    forall k | 0 <= k < |now| ensures now[k].id in TaskIds(rest) + {tasks[i].id} {
      if k > 0 {
        assert rest[k - 1] == now[k];
      }
    }
  }

  lemma {:induction false} ItemIdsGrow(items: seq<Item>, item: Item)
    ensures ItemIds(items + [item]) == ItemIds(items) + {item.task.id}
  {
    assert (items + [item])[|items|] == item;
    forall k | 0 <= k < |items| ensures items[k].task.id in ItemIds(items + [item]) {
      assert (items + [item])[k] == items[k];
    }
  }

  // -------------------------------------------------------------- over many calls

  /** What holds between any two moments of a run. */
  ghost predicate Grows(a: State, b: State) {
    && (a.draining ==> b.draining && b.leased == a.leased)
    && a.leased <= b.leased && a.acknowledged <= b.acknowledged && a.completed <= b.completed
    && a.trace.log <= b.trace.log && a.trace.answers <= b.trace.answers
    && a.trace.handled <= b.trace.handled && a.nextFuture <= b.nextFuture
  }

  lemma {:induction false} FollowsGrows(a: State, b: State, taken: seq<Future>)
    requires Follows(a, b, taken)
    ensures Grows(a, b)
  {
  }

  lemma {:induction false} GrowsJoin(a: State, b: State, c: State)
    requires Grows(a, b) && Grows(b, c)
    ensures Grows(a, c)
  {
  }

  /** A handled future is never pending again. */
  lemma {:induction false} NeverAgain(a: State, b: State, hand: set<TaskId>)
    requires Good(b, hand) && Grows(a, b)
    ensures forall f: Future :: f in a.trace.handled ==> !Pending(b, f)
  {
    hide Books, OwnFutures, Kinds, Conserved, Justified, Pending;
    forall f: Future | f in a.trace.handled ensures f in b.trace.handled {
      var i :| 0 <= i < |a.trace.handled| && a.trace.handled[i] == f;
      assert b.trace.handled[i] == f;
    }
  }
}
