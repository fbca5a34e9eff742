/**
 The analysis worker (app/cli.py:1184-1243, 1335-1383, 1384-2000): claims tasks
 from a server, carries them through download, preprocessing and batched
 inference, and submits what it produced.

 The server, the futures, exceptions inside libraries and the stop signal are
 arbitrary: every value that comes from them is chosen freely. Only two things
 are taken from the server's word: it answers a submission about no other ids
 than the submitted ones, and it never hands out an id again that this worker
 has acknowledged, nor more tasks than were asked for.
 */
module Worker {
  import opened Wrappers
  import opened WorkerState
  import B = BatchedInference

  datatype Config = Config(maxInflight: int, claimBatch: int, submitBatch: int, gpuBatch: int, readyBatches: int,
                           maxTasks: int, auto: bool, analyzesFeatures: bool, analyzesHeads: bool,
                           embedders: set<string>, direct: set<string>, modelBatch: int)

  function Max(a: int, b: int): int { if a < b then b else a }

  /** Buffers, acknowledgements and files aside, nothing changed. */
  ghost predicate Undisturbed(a: State, b: State) {
    && b.trace.answers == a.trace.answers && b.trace.handled == a.trace.handled
    && b.leased == a.leased && b.completed == a.completed && b.trace.log == a.trace.log
    && b.downloads == a.downloads && b.cpu == a.cpu && b.preprocessing == a.preprocessing
    && b.readyEmbeddings == a.readyEmbeddings && b.readyHeads == a.readyHeads && b.nextFuture == a.nextFuture
  }

  function Ids(rows: seq<Outcome>): (ids: set<TaskId>)
    ensures ids == IdsOfRows(rows)
  {
    set i | 0 <= i < |rows| :: rows[i].id
  }

  ghost function ResultsSent(s: State): State {
    s.(results := [], features := [], heads := [],
       trace := s.trace.(sent := s.trace.sent + multiset(s.results) + multiset(s.features) + multiset(s.heads)))
  }

  ghost function FailuresSent(s: State): State {
    s.(failures := [], trace := s.trace.(sent := s.trace.sent + multiset(s.failures)))
  }

  lemma {:induction false} NothingToSend(s: State)
    requires s.results == s.features == s.heads == []
    ensures ResultsSent(s) == s
  {
    assert multiset(s.results) == multiset{};
  }

  lemma {:induction false} SentThenLost(s: State)
    ensures var t := ResultsSent(s);
            var lost := IdsOfRows(s.results) + IdsOfRows(s.features) + IdsOfRows(s.heads);
            t.(trace := t.trace.(unanswered := t.trace.unanswered + lost)) == HalfFlushed(s)
  {
    assert s.trace.unanswered + (IdsOfRows(s.results) + IdsOfRows(s.features) + IdsOfRows(s.heads))
        == s.trace.unanswered + IdsOfRows(s.results) + IdsOfRows(s.features) + IdsOfRows(s.heads);
  }

  lemma {:induction false} AnsweredBuffered(s: State, acked: set<TaskId>, more: set<TaskId>)
    requires acked <= IdsOfRows(s.results) + IdsOfRows(s.features) + IdsOfRows(s.heads) && more <= IdsOfRows(s.failures)
    ensures acked + more <= BufferedIds(s)
  {
    hide IdsOfRows;
  }

  lemma {:induction false} SentThenAnswered(s: State, answered: set<TaskId>)
    ensures var t := FailuresSent(ResultsSent(s));
            t.(acknowledged := t.acknowledged + answered, audioPaths := t.audioPaths - answered,
               trace := t.trace.(unanswered := t.trace.unanswered + (BufferedIds(s) - answered))) ==
                   Flushed(s, answered)
  {
    assert FailuresSent(ResultsSent(s)).trace.sent == s.trace.sent + Rows(s);
  }

  lemma {:induction false} StartGood()
    ensures Good(Start(), {})
  {
  }

  // -------------------------------------------------- what the server said since

  ghost predicate AskedAt(answers: seq<Answer>, i: nat, id: TaskId, reply: Reply) {
    i < |answers| && answers[i] == Asked(id, reply)
  }

  /** An answer that the task is not active. */
  ghost predicate DownAt(answers: seq<Answer>, i: nat, id: TaskId) {
    AskedAt(answers, i, id, Inactive) || ConfirmedAt(answers, i, id)
  }

  ghost predicate CalledActive(a: State, b: State, id: TaskId) {
    exists i: nat :: |a.trace.answers| <= i && AskedAt(b.trace.answers, i, id, Active)
  }

  ghost predicate TurnedDown(a: State, b: State, id: TaskId) {
    exists i: nat :: |a.trace.answers| <= i && DownAt(b.trace.answers, i, id)
  }

  /**
   Between the two states the task was called active if it is wanted; if not, it was
   turned down or the worker drains.
   */
  ghost predicate SaidOf(a: State, b: State, id: TaskId, wanted: bool, raised: Option<Exn>) {
    && (wanted ==> raised.None? && CalledActive(a, b, id))
    && (!wanted && raised.None? ==> b.draining || TurnedDown(a, b, id))
  }

  /** The items marked as kept, in order. */
  function Kept(items: seq<Item>, kept: seq<bool>): seq<Item>
    requires |kept| == |items|
  {
    if items == [] then []
    else
      var n := |items| - 1;
      Kept(items[..n], kept[..n]) + if kept[n] then [items[n]] else []
  }

  ghost predicate Selected(items: seq<Item>, kept: seq<bool>, a: State, b: State) {
    |kept| == |items| && forall i :: 0 <= i < |items| ==> SaidOf(a, b, items[i].task.id, kept[i], None)
  }

  lemma {:induction false} StillSaid(a: State, b: State, c: State, id: TaskId, wanted: bool, raised: Option<Exn>)
    requires SaidOf(a, b, id, wanted, raised) && b.trace.answers <= c.trace.answers && (b.draining ==> c.draining)
    ensures SaidOf(a, c, id, wanted, raised)
  {
    if CalledActive(a, b, id) {
      var i: nat :| |a.trace.answers| <= i && AskedAt(b.trace.answers, i, id, Active);
      assert AskedAt(c.trace.answers, i, id, Active);
    }
    if TurnedDown(a, b, id) {
      var i: nat :| |a.trace.answers| <= i && DownAt(b.trace.answers, i, id);
      assert DownAt(c.trace.answers, i, id);
    }
  }

  /** What was said of a later stretch was said of the longer one. */
  lemma {:induction false} SaidSince(a: State, b: State, c: State, id: TaskId, wanted: bool, raised: Option<Exn>)
    requires SaidOf(b, c, id, wanted, raised) && a.trace.answers <= b.trace.answers
    ensures SaidOf(a, c, id, wanted, raised)
  {
  }

  lemma {:induction false} StillSelected(items: seq<Item>, kept: seq<bool>, a: State, b: State, c: State,
                                         hand: set<TaskId>, room: int)
    requires Selected(items, kept, a, b) && Step(b, c, hand, [], room)
    ensures Selected(items, kept, a, c)
  {
    hide Good, Load, SaidOf;
    forall i | 0 <= i < |items| ensures SaidOf(a, c, items[i].task.id, kept[i], None) {
      StillSaid(a, b, c, items[i].task.id, kept[i], None);
    }
  }

  lemma {:induction false} NoneSelected(a: State, b: State)
    ensures Selected([], [], a, b) && Kept([], []) == []
  {
  }

  lemma {:induction false} SelectedMore(items: seq<Item>, i: nat, kept: seq<bool>, wanted: bool, a: State, b: State,
                                        c: State, hand: set<TaskId>)
    requires i < |items| && Selected(items[..i], kept, a, b) && Follows(a, b, [])
    requires Step(b, c, hand, [], 0) && SaidOf(b, c, items[i].task.id, wanted, None)
    ensures Selected(items[..i + 1], kept + [wanted], a, c)
    ensures Kept(items[..i + 1], kept + [wanted]) == Kept(items[..i], kept) + if wanted then [items[i]] else []
  {
    hide Good, Load, SaidOf;
    StillSelected(items[..i], kept, a, b, c, hand, 0);
    SaidSince(a, b, c, items[i].task.id, wanted, None);
    assert items[..i + 1][..i] == items[..i] && (kept + [wanted])[..i] == kept;
  }

  lemma {:induction false} KeptMembers(items: seq<Item>, kept: seq<bool>)
    requires |kept| == |items|
    ensures forall item :: item in Kept(items, kept) ==> item in items
  {
    if items != [] {
      var n := |items| - 1;
      KeptMembers(items[..n], kept[..n]);
    }
  }

  /** How a handler leaves its task: given up, decided by a row, or in the next stage. */
  datatype End = GivenUp | Decided(row: Outcome) | ForGpu(item: Item) | ForHeads | ToCpu | ToPreprocessing

  /** What becomes of a task in a head batch: it goes on with its patches, gets a failure row, or is given up. */
  datatype Fate = Goes(patches: seq<Patch>) | Failed | Gone

  /** A task goes on only if it is active, and is given up only if it is not or the worker drains. */
  ghost predicate FateOf(a: State, b: State, id: TaskId, fate: Fate) {
    match fate
    case Goes(patches) => patches != [] && CalledActive(a, b, id)
    case Failed => true
    case Gone => b.draining || TurnedDown(a, b, id)
  }

  function GoingItem(task: Task, fate: Fate): seq<Item> {
    if fate.Goes? then [Item(task, fate.patches)] else []
  }

  function FailingRow(task: Task, fate: Fate): seq<Outcome> {
    if fate.Failed? then [Failure(task.id)] else []
  }

  /** The items of the tasks that go on, in order. */
  function Going(tasks: seq<Task>, fates: seq<Fate>): seq<Item>
    requires |fates| == |tasks|
  {
    if tasks == [] then []
    else
      var n := |tasks| - 1;
      Going(tasks[..n], fates[..n]) + GoingItem(tasks[n], fates[n])
  }

  /** The failure rows, in order. */
  function Failing(tasks: seq<Task>, fates: seq<Fate>): seq<Outcome>
    requires |fates| == |tasks|
  {
    if tasks == [] then []
    else
      var n := |tasks| - 1;
      Failing(tasks[..n], fates[..n]) + FailingRow(tasks[n], fates[n])
  }

  ghost predicate Fated(tasks: seq<Task>, fates: seq<Fate>, a: State, b: State) {
    |fates| == |tasks| && forall i :: 0 <= i < |tasks| ==> FateOf(a, b, tasks[i].id, fates[i])
  }

  /** What was said later was said since before. */
  lemma {:induction false} SinceBefore(a: State, b: State, c: State, taken: seq<Future>, id: TaskId)
    requires Follows(a, b, taken)
    ensures CalledActive(b, c, id) ==> CalledActive(a, c, id)
    ensures TurnedDown(b, c, id) ==> TurnedDown(a, c, id)
  {
  }

  /** What was said is still said later. */
  lemma {:induction false} UntilAfter(a: State, b: State, c: State, taken: seq<Future>, id: TaskId)
    requires Follows(b, c, taken)
    ensures CalledActive(a, b, id) ==> CalledActive(a, c, id)
    ensures TurnedDown(a, b, id) ==> TurnedDown(a, c, id)
  {
    if CalledActive(a, b, id) {
      StillSaid(a, b, c, id, true, None);
    }
    if TurnedDown(a, b, id) {
      var i: nat :| |a.trace.answers| <= i && DownAt(b.trace.answers, i, id);
      assert DownAt(c.trace.answers, i, id);
    }
  }

  lemma {:induction false} LogGrows(a: State, b: State, taken: seq<Future>)
    requires Follows(a, b, taken)
    ensures |a.trace.log| <= |b.trace.log|
  {
  }

  lemma {:induction false} StillActive(a: State, b: State, c: State, id: TaskId)
    requires CalledActive(a, b, id) && Follows(b, c, [])
    ensures CalledActive(a, c, id)
  {
    StillSaid(a, b, c, id, true, None);
  }

  lemma {:induction false} FateFromSaid(a: State, b: State, id: TaskId, wanted: bool, raised: Option<Exn>)
    requires SaidOf(a, b, id, wanted, raised)
    ensures wanted ==> CalledActive(a, b, id) && forall patches :: patches != [] ==> FateOf(a, b, id, Goes(patches))
    ensures !wanted && raised.None? ==> FateOf(a, b, id, Gone)
  {
  }

  lemma {:induction false} FateSince(a: State, b: State, c: State, id: TaskId)
    requires TurnedDown(b, c, id) && Follows(a, b, [])
    ensures FateOf(a, c, id, Gone)
  {
  }

  lemma {:induction false} StillFate(a: State, b: State, c: State, id: TaskId, fate: Fate)
    requires FateOf(a, b, id, fate) && Follows(b, c, [])
    ensures FateOf(a, c, id, fate)
  {
    StillSaid(a, b, c, id, fate.Goes?, if fate.Failed? then Some(OtherError) else None);
  }

  lemma {:induction false} StillFated(tasks: seq<Task>, fates: seq<Fate>, a: State, b: State, c: State,
                                      hand: set<TaskId>)
    requires Fated(tasks, fates, a, b) && Step(b, c, hand, [], 0)
    ensures Fated(tasks, fates, a, c)
  {
    hide Good, Load, FateOf, Follows;
    forall i | 0 <= i < |tasks| ensures FateOf(a, c, tasks[i].id, fates[i]) {
      StillFate(a, b, c, tasks[i].id, fates[i]);
    }
  }

  /** A later stretch with the same answers before it. */
  lemma {:induction false} FatedSince(tasks: seq<Task>, fates: seq<Fate>, a: State, b: State, c: State)
    requires Fated(tasks, fates, b, c) && a.trace.answers <= b.trace.answers
    ensures Fated(tasks, fates, a, c)
  {
    forall i | 0 <= i < |tasks| ensures FateOf(a, c, tasks[i].id, fates[i]) {
      assert FateOf(b, c, tasks[i].id, fates[i]);
    }
  }

  lemma {:induction false} NoneFated(a: State, b: State)
    ensures Fated([], [], a, b) && Going([], []) == [] && Failing([], []) == []
  {
  }

  lemma {:induction false} FatedMore(tasks: seq<Task>, i: nat, fates: seq<Fate>, fate: Fate, a: State, b: State,
                                     c: State, hand: set<TaskId>)
    requires i < |tasks| && Fated(tasks[..i], fates, a, b) && Follows(a, b, [])
    requires Step(b, c, hand, [], 0) && FateOf(b, c, tasks[i].id, fate)
    requires b.trace.log == a.trace.log + Failing(tasks[..i], fates)
             && c.trace.log == b.trace.log + FailingRow(tasks[i], fate)
    ensures Fated(tasks[..i + 1], fates + [fate], a, c)
    ensures c.trace.log == a.trace.log + Failing(tasks[..i + 1], fates + [fate])
    ensures Going(tasks[..i + 1], fates + [fate]) == Going(tasks[..i], fates) + GoingItem(tasks[i], fate)
  {
    hide Good, Load, FateOf, GoingItem, FailingRow;
    StillFated(tasks[..i], fates, a, b, c, hand);
    FatedSince([tasks[i]], [fate], a, b, c);
    assert FateOf(a, c, [tasks[i]][0].id, [fate][0]);
    assert tasks[..i + 1][..i] == tasks[..i] && (fates + [fate])[..i] == fates;
  }

  class WorkerRuntime {
    const config: Config
    const zero: Patch
    const run: string -> (seq<Patch> -> seq<Row>)
    ghost const rowOf: string -> (Patch -> Row)
    const pool: seq<Row> -> Row
    const pack: seq<B.Head<Patch, Row, Row>>
    ghost const packRows: seq<Patch -> Row>

    var draining: bool
    var leased: set<TaskId>
    var acknowledged: set<TaskId>
    var completed: set<TaskId>
    var audioPaths: map<TaskId, string>
    var results: seq<Outcome>
    var features: seq<Outcome>
    var heads: seq<Outcome>
    var failures: seq<Outcome>
    var downloads: map<Future, Task>
    var cpu: map<Future, Task>
    var preprocessing: map<Future, Task>
    var readyEmbeddings: seq<Item>
    var readyHeads: seq<Task>
    var nextFuture: Future
    ghost var trace: Trace

    ghost function Now(): State
      reads this
    {
      State(draining, leased, acknowledged, completed, audioPaths, results, features, heads, failures,
            downloads, cpu, preprocessing, readyEmbeddings, readyHeads, nextFuture, trace)
    }

    /** The predictors work row by row. */
    ghost predicate RowWise() {
      && (forall name :: B.RowWise(run(name), rowOf(name), config.modelBatch))
      && B.HeadsRowWise(pack, packRows)
    }

    constructor (config: Config, zero: Patch, run: string -> (seq<Patch> -> seq<Row>),
                 ghost rowOf: string -> (Patch -> Row), pool: seq<Row> -> Row, pack: seq<B.Head<Patch, Row, Row>>,
                 ghost packRows: seq<Patch -> Row>)
      requires (forall name :: B.RowWise(run(name), rowOf(name), config.modelBatch)) && B.HeadsRowWise(pack, packRows)
      ensures Now() == Start() && Good(Now(), {}) && RowWise() && this.config == config
    {
      this.config, this.zero, this.run, this.rowOf, this.pool, this.pack, this.packRows :=
          config, zero, run, rowOf, pool, pack, packRows;
      draining, leased, acknowledged, completed, audioPaths := false, {}, {}, {}, map[];
      results, features, heads, failures := [], [], [], [];
      downloads, cpu, preprocessing, readyEmbeddings, readyHeads, nextFuture := map[], map[], map[], [], [], 0;
      trace := Trace([], multiset{}, [], [], {}, {}, {});
      new;
      StartGood();
    }

    // ---------------------------------------------------------- the environment

    /** `worker_task_state`: asked on its own or as the check of `close_inactive_task`. */
    method WorkerTaskState(id: TaskId, ghost check: bool, ghost hand: set<TaskId>) returns (reply: Reply)
      requires Good(Now(), hand)
      modifies this`trace
      ensures Now() == Answered(old(Now()), if check then Checked(id, reply) else Asked(id, reply))
      ensures Step(old(Now()), Now(), hand, [], 0)
    {
      hide Good, Follows, Load;
      reply := *;
      ghost var answer := if check then Checked(id, reply) else Asked(id, reply);
      AnsweredGood(Now(), hand, answer);
      trace := trace.(answers := trace.answers + [answer]);
    }

    /** `post_worker_submit_json`: retries while the server is busy or out of reach, and raises on other errors. */
    method PostSubmit(ids: set<TaskId>) returns (raised: Option<Exn>, answered: set<TaskId>)
      ensures answered <= ids
      ensures raised.Some? ==>
              raised.value == OtherError || (raised.value.Http? && raised.value.code !in {429, 500, 503, 504})
    {
      raised := *;
      if raised.Some? && (raised.value == Url || (raised.value.Http? && raised.value.code in {429, 500, 503, 504})) {
        raised := None;
      }
      var reply: set<TaskId> := *;
      answered := reply * ids;
    }

    /** The stop signal may arrive whenever `draining` is read. */
    method Signal(ghost hand: set<TaskId>)
      requires Good(Now(), hand)
      modifies this`draining
      ensures Now() == old(Now()) || Now() == Drained(old(Now()))
      ensures Step(old(Now()), Now(), hand, [], 0)
    {
      hide Good, Follows, Load;
      var stop: bool := *;
      if stop {
        DrainedGood(Now(), hand);
        draining := true;
      } else {
        StepSelf(Now(), hand);
      }
    }

    // ------------------------------------------------------------- small changes

    /** A row is appended to its buffer and the task marked completed. */
    method Append(o: Outcome, ghost hand: set<TaskId>)
      requires Good(Now(), hand) && o.id in leased
      modifies this`results, this`features, this`heads, this`failures, this`completed, this`trace
      ensures Now() == Produced(old(Now()), o)
      ensures Step(old(Now()), Now(), hand - {o.id}, [], 0)
    {
      hide Good, Follows, Load;
      ProducedGood(Now(), hand, o);
      completed := completed + {o.id};
      trace := trace.(log := trace.log + [o]);
      match o
      case Vector(_, _) => results := results + [o];
      case Analysis(_, _) => features := features + [o];
      case HeadRow(_, _) => heads := heads + [o];
      case Failure(_) => failures := failures + [o];
    }

    /** `close_inactive_task`: only an answer that the task is inactive or unknown closes it. */
    method CloseInactiveTask(id: TaskId, ghost hand: set<TaskId>) returns (closed: bool, ghost reply: Reply)
      requires Good(Now(), hand) && id in leased
      modifies this`acknowledged, this`audioPaths, this`trace
      ensures closed <==> Confirms(reply)
      ensures var asked := Answered(old(Now()), Checked(id, reply));
              Now() == if closed then Closed(asked, id) else asked
      ensures Step(old(Now()), Now(), if closed then hand - {id} else hand, [], 0)
    {
      hide Good, Follows, Load;
      ghost var s := Now();
      var answer := WorkerTaskState(id, true, hand);
      reply := answer;
      closed := answer == Inactive || answer == Fails(Http(404));
      if closed {
        ghost var mid := Now();
        assert ConfirmedAt(trace.answers, |s.trace.answers|, id);
        ClosedGood(mid, hand, id);
        acknowledged := acknowledged + {id};
        audioPaths := audioPaths - {id};
        StepThen(s, mid, Now(), hand, hand - {id}, 0, 0);
      }
    }

    /**
     A handler gives a task up because of the drain or the server's word, after asking
     the server to confirm that it is inactive.
     */
    method LetGoOf(id: TaskId, ghost hand: set<TaskId>) returns (ghost reply: Reply)
      requires Good(Now(), hand) && id in leased
      requires draining || (|trace.answers| > 0 && trace.answers[|trace.answers| - 1] == Asked(id, Inactive))
      modifies this`acknowledged, this`audioPaths, this`trace
      ensures var asked := Answered(old(Now()), Checked(id, reply));
              Now() == if Confirms(reply) then Closed(asked, id) else Dropped(asked, id)
      ensures trace.log == old(trace.log)
      ensures Step(old(Now()), Now(), hand - {id}, [], 0)
    {
      hide Good, Follows, Load;
      ghost var s := Now();
      var closed;
      closed, reply := CloseInactiveTask(id, hand);
      if !closed {
        ghost var mid := Now();
        assert !draining ==> RefusedAt(trace.answers, |s.trace.answers| - 1, id);
        GiveUp(id, hand);
        StepThen(s, mid, Now(), hand, hand - {id}, 0, 0);
      }
    }

    /** The handler returns without an outcome for the task in hand. */
    ghost method GiveUp(id: TaskId, hand: set<TaskId>)
      requires Good(Now(), hand) && id in leased && (draining || Refused(trace.answers, id))
      modifies this`trace
      ensures Now() == Dropped(old(Now()), id)
      ensures Step(old(Now()), Now(), hand - {id}, [], 0)
    {
      hide Good, Follows, Load, Refused;
      DroppedGood(Now(), hand, id);
      if draining {
        trace := trace.(abandoned := trace.abandoned + {id});
      } else {
        trace := trace.(unconfirmed := trace.unconfirmed + {id});
      }
    }

    /** `not self.draining and task_is_active(...)`; the question, asked only without a drain, may raise. */
    method StillWanted(id: TaskId, ghost hand: set<TaskId>) returns (wanted: bool, raised: Option<Exn>)
      requires Good(Now(), hand)
      modifies this`draining, this`trace
      ensures draining ==> !wanted && raised.None? && (Now() == old(Now()) || Now() == Drained(old(Now())))
      ensures !draining && raised.None? ==>
                Now() == Answered(old(Now()), Asked(id, if wanted then Active else Inactive))
      ensures raised.Some? ==> !wanted && Now() == Answered(old(Now()), Asked(id, Fails(raised.value)))
      ensures trace.log == old(trace.log) && SaidOf(old(Now()), Now(), id, wanted, raised)
      ensures Step(old(Now()), Now(), hand, [], 0)
    {
      hide Good, Follows, Load;
      ghost var s := Now();
      Signal(hand);
      wanted, raised := false, None;
      if !draining {
        ghost var mid := Now();
        var reply := WorkerTaskState(id, false, hand);
        StepThen(s, mid, Now(), hand, hand, 0, 0);
        match reply {
          case Active => wanted := true;
          case Inactive =>
          case Fails(e) => raised := Some(e);
        }
        assert AskedAt(trace.answers, |s.trace.answers|, id, reply);
        assert reply == Inactive ==> DownAt(trace.answers, |s.trace.answers|, id);
      }
    }

    /**
     The question before a batch: an active task goes on, an inactive one or any
     one during a drain is let go.
     */
    method GoesOn(id: TaskId, ghost hand: set<TaskId>) returns (wanted: bool, raised: Option<Exn>)
      requires Good(Now(), hand) && id in leased
      modifies this`draining, this`acknowledged, this`audioPaths, this`trace
      ensures trace.log == old(trace.log) && SaidOf(old(Now()), Now(), id, wanted, raised)
      ensures Step(old(Now()), Now(), if wanted || raised.Some? then hand else hand - {id}, [], 0)
    {
      hide Good, Follows, Load, CalledActive, TurnedDown, Closed, Dropped, Drained;
      ghost var s := Now();
      wanted, raised := StillWanted(id, hand);
      if raised.None? && !wanted {
        ghost var mid := Now();
        ghost var reply := LetGoOf(id, hand);
        StepThen(s, mid, Now(), hand, hand - {id}, 0, 0);
        UntilAfter(s, mid, Now(), [], id);
      }
    }

    // --------------------------------------------------------------- submitting

    /** The submitted buffers are cleared. */
    method ClearResults()
      modifies this`results, this`features, this`heads, this`trace
      ensures Now() == ResultsSent(old(Now()))
    {
      trace := trace.(sent := trace.sent + multiset(results) + multiset(features) + multiset(heads));
      results, features, heads := [], [], [];
    }

    /** The first half of `submit_worker_buffers`. */
    method SubmitResults() returns (raised: Option<Exn>, acked: set<TaskId>)
      modifies this`results, this`features, this`heads, this`trace
      ensures acked <= IdsOfRows(old(results)) + IdsOfRows(old(features)) + IdsOfRows(old(heads))
      ensures Now() == if raised.Some? then old(Now()) else ResultsSent(old(Now()))
    {
      hide IdsOfRows, Ids, ResultsSent;
      raised, acked := None, {};
      if results != [] || features != [] || heads != [] {
        raised, acked := PostSubmit(Ids(results) + Ids(features) + Ids(heads));
        if raised.None? {
          ClearResults();
        }
      } else {
        NothingToSend(Now());
      }
    }

    /** The second half. */
    method SubmitFailures() returns (raised: Option<Exn>, acked: set<TaskId>)
      modifies this`failures, this`trace
      ensures acked <= IdsOfRows(old(failures))
      ensures Now() == if raised.Some? then old(Now()) else FailuresSent(old(Now()))
    {
      raised, acked := None, {};
      if failures != [] {
        raised, acked := PostSubmit(Ids(failures));
        if raised.None? {
          trace := trace.(sent := trace.sent + multiset(failures));
          failures := [];
        }
      }
    }

    /** `submit_worker_buffers`. */
    method SubmitWorkerBuffers(ghost hand: set<TaskId>) returns (raised: Option<Exn>, ghost answered: set<TaskId>)
      requires Good(Now(), hand)
      modifies this`results, this`features, this`heads, this`failures, this`acknowledged, this`audioPaths, this`trace
      ensures raised.None? ==> answered <= BufferedIds(old(Now())) && Now() == Flushed(old(Now()), answered)
      ensures raised.Some? ==> Now() == old(Now()) || Now() == HalfFlushed(old(Now()))
      ensures Step(old(Now()), Now(), hand, [], 0)
    {
      hide Good, Follows, Load, IdsOfRows, Rows, BufferedIds, ResultsSent, FailuresSent, Flushed, HalfFlushed;
      ghost var s := Now();
      answered := {};
      var acked, more;
      raised, acked := SubmitResults();
      if raised.Some? {
        StepSelf(s, hand);
        return;
      }
      raised, more := SubmitFailures();
      if raised.Some? {
        ghost var lost := IdsOfRows(s.results) + IdsOfRows(s.features) + IdsOfRows(s.heads);
        trace := trace.(unanswered := trace.unanswered + lost);
        HalfFlushedGood(s, hand);
        SentThenLost(s);
        return;
      }
      acknowledged := acknowledged + acked + more;
      audioPaths := audioPaths - (acked + more);
      trace := trace.(unanswered := trace.unanswered + (BufferedIds(s) - (acked + more)));
      answered := acked + more;
      AnsweredBuffered(s, acked, more);
      SentThenAnswered(s, answered);
      FlushedGood(s, hand, answered);
    }

    /** `flush_worker_buffers`: after enough acknowledgements the worker drains. */
    method FlushWorkerBuffers(ghost hand: set<TaskId>) returns (raised: Option<Exn>)
      requires Good(Now(), hand)
      modifies this`results, this`features, this`heads, this`failures, this`acknowledged, this`audioPaths, this`trace,
               this`draining
      ensures Step(old(Now()), Now(), hand, [], 0) && Undisturbed(old(Now()), Now())
      ensures raised.None? ==> results == features == heads == failures == []
      ensures draining <==> old(draining) || (raised.None? && config.maxTasks > 0 && |acknowledged| >= config.maxTasks)
    {
      hide Good, Follows, Load, Rows, BufferedIds, IdsOfRows;
      ghost var s := Now();
      ghost var answered;
      raised, answered := SubmitWorkerBuffers(hand);
      if raised.None? && config.maxTasks > 0 && |acknowledged| >= config.maxTasks {
        DrainedGood(Now(), hand);
        ghost var mid := Now();
        draining := true;
        StepThen(s, mid, Now(), hand, hand, 0, 0);
      }
    }

    /** Fewer rows are buffered than make a batch. */
    ghost predicate Slack(s: State) {
      |s.results| + |s.features| + |s.heads| + |s.failures| < Max(config.submitBatch, 1)
    }

    /** `maybe_flush_if_batch_full`. */
    method MaybeFlush(ghost hand: set<TaskId>) returns (raised: Option<Exn>)
      requires Good(Now(), hand)
      modifies this`results, this`features, this`heads, this`failures, this`acknowledged, this`audioPaths, this`trace,
               this`draining
      ensures Step(old(Now()), Now(), hand, [], 0) && Undisturbed(old(Now()), Now())
      ensures |old(results)| + |old(features)| + |old(heads)| + |old(failures)| < Max(config.submitBatch, 1)
              ==> Now() == old(Now()) && raised.None?
      ensures raised.None? ==> Slack(Now())
    {
      hide Good, Follows, Load;
      raised := None;
      if |results| + |features| + |heads| + |failures| >= Max(config.submitBatch, 1) {
        raised := FlushWorkerBuffers(hand);
      } else {
        StepSelf(Now(), hand);
      }
    }

    // ----------------------------------------------------------------- claiming

    function Capacity(): (places: int)
      ensures 1 <= places && config.maxInflight <= places && (places == 1 || places == config.maxInflight)
    {
      Max(config.maxInflight, 1)
    }

    /** The claim request: at most `limit` tasks, none that this worker has acknowledged. */
    method PostClaim(limit: nat) returns (raised: Option<Exn>, tasks: seq<Task>)
      ensures |tasks| <= limit && Unacknowledged(tasks, acknowledged)
    {
      raised := *;
      var reply: seq<Task> := *;
      tasks := if |reply| <= limit && Unacknowledged(reply, acknowledged) then reply else [];
    }

    /** How many tasks the next claim asks for. */
    ghost function ClaimLimit(s: State): (limit: int)
      ensures limit <= Capacity() - Load(s) && (limit <= 1 || limit <= config.claimBatch)
      ensures limit == Capacity() - Load(s) || (limit >= 1 && limit >= config.claimBatch)
    {
      var free := Capacity() - Load(s);
      if Max(config.claimBatch, 1) < free then Max(config.claimBatch, 1) else free
    }

    /** `claim_more`: asks exactly when the worker does not drain and has a free place; `asked` is for how many. */
    method ClaimMore() returns (raised: Option<Exn>, ghost tasks: seq<Task>, ghost asked: Option<int>)
      requires Good(Now(), {})
      modifies this`leased, this`audioPaths, this`downloads, this`nextFuture, this`draining
      ensures Now() == LeasedEach(old(Now()), tasks) || (tasks == [] && Now() == Drained(old(Now())))
      ensures old(draining) || raised.Some? ==> tasks == []
      ensures |tasks| > 0 ==> |tasks| <= Max(config.claimBatch, 1) && Load(old(Now())) + |tasks| <= Capacity()
      ensures asked == if draining || Load(old(Now())) >= Capacity() then None else Some(ClaimLimit(old(Now())))
      ensures (asked.None? ==> raised.None? && tasks == []) && (asked.Some? ==> |tasks| <= asked.value)
      ensures Step(old(Now()), Now(), {}, [], |tasks|)
    {
      hide Good, Follows;
      raised, tasks, asked := None, [], None;
      Signal({});
      if draining {
        return;
      }
      var capacity := Capacity() - |downloads| - |cpu| - |preprocessing| - |readyEmbeddings| - |readyHeads|;
      if capacity <= 0 {
        return;
      }
      var limit := if Max(config.claimBatch, 1) < capacity then Max(config.claimBatch, 1) else capacity;
      var claimed;
      asked := Some(limit);
      raised, claimed := PostClaim(limit);
      if raised.None? {
        LeaseAll(claimed);
        tasks := claimed;
      }
    }

    /** A claimed task is leased, gets its file, and is downloaded. */
    method Lease(task: Task)
      requires Good(Now(), {}) && !draining && task.id !in acknowledged
      modifies this`leased, this`audioPaths, this`downloads, this`nextFuture
      ensures Now() == Leased(old(Now()), task)
      ensures Step(old(Now()), Now(), {}, [], 1)
    {
      hide Good, Follows, Load;
      LeasedGood(Now(), {}, task);
      leased := leased + {task.id};
      audioPaths := audioPaths[task.id := task.path];
      downloads := downloads[nextFuture := task];
      nextFuture := nextFuture + 1;
    }

    method LeaseAll(claimed: seq<Task>)
      requires Good(Now(), {}) && !draining && Unacknowledged(claimed, acknowledged)
      modifies this`leased, this`audioPaths, this`downloads, this`nextFuture
      ensures Now() == LeasedEach(old(Now()), claimed)
      ensures Step(old(Now()), Now(), {}, [], |claimed|)
    {
      hide Good, Follows, Load;
      ghost var s := Now();
      StepSelf(s, {});
      for i := 0 to |claimed|
        invariant Now() == LeasedEach(s, claimed[..i])
        invariant Step(s, Now(), {}, [], i)
      {
        ghost var mid := Now();
        Lease(claimed[i]);
        assert claimed[..i + 1][..i] == claimed[..i];
        StepThen(s, mid, Now(), {}, {}, i, 1);
      }
      assert claimed[..|claimed|] == claimed;
    }

    // ------------------------------------------------------- batches of a model

    /** The rows a GPU batch appends: for each task what the model gives for its patches alone. */
    ghost function Vectors(name: string, items: seq<Item>): seq<Outcome> {
      seq(|items|, i requires 0 <= i < |items| => Vector(items[i].task.id, pool(B.Map(rowOf(name), items[i].patches))))
    }

    /** The first loop over a model's items: those the server calls active go on, the others are let go. */
    method SelectActive(items: seq<Item>, ghost hand: set<TaskId>)
      returns (active: seq<Item>, raised: Option<Exn>, ghost kept: seq<bool>)
      requires Good(Now(), hand + ItemIds(items))
      modifies this`draining, this`acknowledged, this`audioPaths, this`trace
      ensures trace.log == old(trace.log)
      ensures raised.None? ==>
              |kept| == |items| && Selected(items, kept, old(Now()), Now()) && active == Kept(items, kept)
      ensures raised.None? ==> Step(old(Now()), Now(), hand + ItemIds(active), [], 0)
      ensures raised.Some? ==> Step(old(Now()), Now(), hand + ItemIds(items), [], 0)
    {
      hide Good, Follows, Load, ItemIds, Selected, SaidOf, Kept, Left;
      ghost var s, all := Now(), hand + ItemIds(items);
      HandIsLeased(s, all);
      StepSelf(s, all);
      active, raised, kept := [], None, [];
      LeftAll(hand, items);
      NoItems(active);
      NoneSelected(s, s);
      assert items[..0] == [];
      assert ItemIds(active) + Left(hand, items, 0) == all;
      for i := 0 to |items|
        invariant trace.log == s.trace.log && raised.None?
        invariant Step(s, Now(), ItemIds(active) + Left(hand, items, i), [], 0)
        invariant ItemIds(active) + Left(hand, items, i) <= all
        invariant |kept| == i && Selected(items[..i], kept, s, Now()) && active == Kept(items[..i], kept)
      {
        ghost var mid, held := Now(), ItemIds(active) + Left(hand, items, i);
        LeftNext(hand, items, i);
        var wanted;
        wanted, raised := GoesOn(items[i].task.id, held);
        if raised.Some? {
          StepThen(s, mid, Now(), held, held, 0, 0);
          StepWiden(s, Now(), held, all, [], 0);
          return;
        }
        SelectedMore(items, i, kept, wanted, s, mid, Now(), if wanted then held else held - {items[i].task.id});
        kept := kept + [wanted];
        active := NextActive(items, i, wanted, active, hand, s, mid);
      }
      assert items[..|items|] == items;
      assert ItemIds(active) + Left(hand, items, |items|) == hand + ItemIds(active);
    }

    /** The item joins the active ones or leaves the hand. */
    method NextActive(items: seq<Item>, i: nat, wanted: bool, active: seq<Item>, ghost hand: set<TaskId>,
                      ghost s: State, ghost mid: State)
      returns (next: seq<Item>)
      requires i < |items|
      requires Step(s, mid, ItemIds(active) + Left(hand, items, i), [], 0)
      requires ItemIds(active) + Left(hand, items, i) <= leased
      requires Step(mid, Now(), if wanted then ItemIds(active) + Left(hand, items, i)
                                else ItemIds(active) + Left(hand, items, i) - {items[i].task.id}, [], 0)
      ensures next == active + if wanted then [items[i]] else []
      ensures Step(s, Now(), ItemIds(next) + Left(hand, items, i + 1), [], 0)
      ensures ItemIds(next) + Left(hand, items, i + 1) <= ItemIds(active) + Left(hand, items, i)
    {
      hide Good, Follows, Load, ItemIds, Left;
      ghost var held, id := ItemIds(active) + Left(hand, items, i), items[i].task.id;
      LeftNext(hand, items, i);
      ItemIdsGrow(active, items[i]);
      next := active + if wanted then [items[i]] else [];
      if wanted {
        StepThen(s, mid, Now(), held, held, 0, 0);
        StepWiden(s, Now(), held, ItemIds(next) + Left(hand, items, i + 1), [], 0);
      } else {
        assert next == active;
        StepOn(s, mid, Now(), held, id, ItemIds(next) + Left(hand, items, i + 1), 0, 0);
      }
    }

    /** The loop that appends a batch's vectors, up to where pooling one raises. */
    method AppendVectors(name: string, active: seq<Item>, outputs: seq<seq<Row>>, ghost hand: set<TaskId>)
      returns (raised: Option<Exn>, ghost n: nat)
      requires Good(Now(), hand + ItemIds(active)) && |outputs| == |active|
      requires forall i :: 0 <= i < |active| ==> outputs[i] == B.Map(rowOf(name), active[i].patches)
      modifies this`results, this`features, this`heads, this`failures, this`completed, this`trace
      ensures n <= |active| && (raised.None? ==> n == |active|)
      ensures trace.log == old(trace.log) + Vectors(name, active)[..n]
      ensures Step(old(Now()), Now(), if raised.None? then hand else hand + ItemIds(active), [], 0)
    {
      hide Good, Follows, Load, ItemIds, Left;
      ghost var s := Now();
      HandIsLeased(s, hand + ItemIds(active));
      StepSelf(s, hand + ItemIds(active));
      raised, n := None, 0;
      LeftAll(hand, active);
      for i := 0 to |active|
        invariant n == i && raised.None?
        invariant trace.log == s.trace.log + Vectors(name, active)[..i]
        invariant Step(s, Now(), Left(hand, active, i), [], 0)
      {
        LeftNext(hand, active, i);
        raised := *;
        if raised.Some? {
          StepWiden(s, Now(), Left(hand, active, i), hand + ItemIds(active), [], 0);
          return;
        }
        ghost var mid := Now();
        var row := Vector(active[i].task.id, pool(outputs[i]));
        assert Vectors(name, active)[i] == row;
        Append(row, Left(hand, active, i));
        StepOn(s, mid, Now(), Left(hand, active, i), row.id, Left(hand, active, i + 1), 0, 0);
        n := i + 1;
      }
    }

    /** `fallback_to_essentia_embedding`, or the failure row when there is no fallback. */
    method FallBack(id: TaskId, essentia: bool, ghost hand: set<TaskId>) returns (ghost row: Outcome)
      requires Good(Now(), hand) && id in leased
      modifies this`results, this`features, this`heads, this`failures, this`completed, this`trace
      ensures row.id == id && (row.Failure? || (essentia && row.Vector?))
      ensures Now() == Produced(old(Now()), row)
      ensures Step(old(Now()), Now(), hand - {id}, [], 0)
    {
      hide Good, Follows, Load;
      var works: bool := *;
      if essentia && works {
        var vector: Row := *;
        row := Vector(id, vector);
        Append(Vector(id, vector), hand);
      } else {
        row := Failure(id);
        Append(Failure(id), hand);
      }
    }

    /** The `except` branch of a batch: every item gets a failure, or with the fallback a vector. */
    method FailAll(items: seq<Item>, essentia: bool, ghost hand: set<TaskId>) returns (ghost rows: seq<Outcome>)
      requires Good(Now(), hand + ItemIds(items))
      modifies this`results, this`features, this`heads, this`failures, this`completed, this`trace
      ensures trace.log == old(trace.log) + rows && Decides(rows, items, essentia)
      ensures Step(old(Now()), Now(), hand, [], 0)
    {
      hide Good, Follows, Load, ItemIds, Left;
      ghost var s := Now();
      HandIsLeased(s, hand + ItemIds(items));
      StepSelf(s, hand + ItemIds(items));
      rows := [];
      LeftAll(hand, items);
      for i := 0 to |items|
        invariant trace.log == s.trace.log + rows && Decides(rows, items[..i], essentia)
        invariant Step(s, Now(), Left(hand, items, i), [], 0)
      {
        LeftNext(hand, items, i);
        ghost var mid := Now();
        ghost var row := FallBack(items[i].task.id, essentia, Left(hand, items, i));
        StepOn(s, mid, Now(), Left(hand, items, i), row.id, Left(hand, items, i + 1), 0, 0);
        rows := rows + [row];
      }
      assert items[..|items|] == items;
    }

    /** Inference over the active items and the appending loop; anything in it may raise. */
    method InferAndAppend(name: string, active: seq<Item>, ghost hand: set<TaskId>)
      returns (raised: Option<Exn>, ghost n: nat)
      requires Good(Now(), hand + ItemIds(active)) && RowWise()
      modifies this`results, this`features, this`heads, this`failures, this`completed, this`trace
      ensures n <= |active| && (raised.None? ==> n == |active|)
      ensures trace.log == old(trace.log) + Vectors(name, active)[..n]
      ensures Step(old(Now()), Now(), if raised.None? then hand else hand + ItemIds(active), [], 0)
    {
      hide Good, Follows, Load, ItemIds;
      raised, n := *, 0;
      StepSelf(Now(), hand + ItemIds(active));
      if raised.None? {
        var patches := seq(|active|, i requires 0 <= i < |active| => active[i].patches);
        var inferred := B.InferTogether(run(name), rowOf(name), zero, patches, config.gpuBatch, config.modelBatch);
        if inferred.Err? {
          raised := Some(OtherError);
        } else {
          raised, n := AppendVectors(name, active, inferred.value, hand);
        }
      }
    }

    /** The `try` block of a model's turn. */
    method TryModelItems(name: string, items: seq<Item>, ghost hand: set<TaskId>)
      returns (raised: Option<Exn>, active: seq<Item>, ghost kept: seq<bool>, ghost n: nat)
      requires Good(Now(), hand + ItemIds(items)) && RowWise()
      modifies this`draining, this`acknowledged, this`audioPaths, this`trace, this`results, this`features, this`heads,
               this`failures, this`completed
      ensures (forall item :: item in active ==> item in items) && n <= |active|
      ensures raised.None? ==> n == |active| && Selected(items, kept, old(Now()), Now()) && active == Kept(items, kept)
      ensures trace.log == old(trace.log) + Vectors(name, active)[..n]
      ensures Step(old(Now()), Now(), if raised.None? then hand else hand + ItemIds(items), [], 0)
    {
      hide Good, Follows, Load, ItemIds, Selected;
      ghost var s := Now();
      HandIsLeased(s, hand + ItemIds(items));
      n := 0;
      active, raised, kept := SelectActive(items, hand);
      if raised.Some? {
        active := [];
      } else if active == [] {
        NoItems(active);
        assert hand + ItemIds(active) == hand;
      } else {
        KeptMembers(items, kept);
        ghost var mid := Now();
        raised, n := InferAndAppend(name, active, hand);
        ghost var held := if raised.None? then hand else hand + ItemIds(active);
        StepThen(s, mid, Now(), hand + ItemIds(active), held, 0, 0);
        StillSelected(items, kept, s, mid, Now(), held, 0);
        if raised.Some? {
          SubsetIds(active, items);
          StepWiden(s, Now(), hand + ItemIds(active), hand + ItemIds(items), [], 0);
        }
      }
    }

    /**
     One model's turn in `process_ready_embedding_batches`, from the items taken
     off the ready list on. Unless something raised, the log grows by the vectors
     of exactly the items the server called active; otherwise by the vectors of
     some items and then a row for every item.
     */
    method ProcessModelItems(name: string, items: seq<Item>, ghost hand: set<TaskId>)
      returns (raised: Option<Exn>, ghost failed: bool, ghost kept: seq<bool>, ghost active: seq<Item>, ghost n: nat,
          ghost rows: seq<Outcome>)
      requires Good(Now(), hand + ItemIds(items)) && RowWise()
      modifies this`draining, this`acknowledged, this`audioPaths, this`trace, this`results, this`features, this`heads,
               this`failures, this`completed
      ensures Step(old(Now()), Now(), hand, [], 0)
      ensures (forall item :: item in active ==> item in items) && n <= |active|
      ensures trace.log == old(trace.log) + Vectors(name, active)[..n] + rows
      ensures !failed ==>
              rows == [] && n == |active| && Selected(items, kept, old(Now()), Now()) && active == Kept(items, kept)
      ensures failed ==> Decides(rows, items, config.auto)
      ensures raised.None? && (failed || active != []) ==> Slack(Now())
    {
      hide Good, Follows, Load, ItemIds, Decides, Selected;
      ghost var s := Now();
      rows := [];
      var error, wanted;
      error, wanted, kept, n := TryModelItems(name, items, hand);
      active, failed, raised := wanted, error.Some?, None;
      if error.None? && wanted == [] {
        return;
      }
      ghost var mid := Now();
      if error.Some? {
        rows := FailAll(items, config.auto, hand);
        StepThen(s, mid, Now(), hand + ItemIds(items), hand, 0, 0);
        mid := Now();
      }
      raised := MaybeFlush(hand);
      StepThen(s, mid, Now(), hand, hand, 0, 0);
      if error.None? {
        StillSelected(items, kept, s, mid, Now(), hand, 0);
      }
    }

    /** A model's items leave the ready list and are processed. */
    method TakeModel(m: Model, ghost hand: set<TaskId>) returns (raised: Option<Exn>)
      requires Good(Now(), hand) && RowWise()
      modifies this`draining, this`acknowledged, this`audioPaths, this`trace, this`results, this`features, this`heads,
               this`failures, this`completed, this`readyEmbeddings
      ensures Step(old(Now()), Now(), hand, [], 0)
      ensures readyEmbeddings == OfOthers(old(readyEmbeddings), m)
    {
      hide Good, Follows, Load, ItemIds, OfModel, OfOthers, Decides, RowWise, Selected;
      ghost var s := Now();
      var items := OfModel(readyEmbeddings, m);
      TookModelGood(s, hand, m);
      readyEmbeddings := OfOthers(readyEmbeddings, m);
      ghost var mid, failed, kept, active, n, rows := Now(), false, [], [], 0, [];
      raised, failed, kept, active, n, rows := ProcessModelItems(NameOf(m), items, hand);
      StepThen(s, mid, Now(), hand + ItemIds(items), hand, 0, 0);
    }

    /** The models whose items run: all of them, or those with enough patches. */
    ghost function Ripe(items: seq<Item>, flush: bool): set<Model> {
      set i | 0 <= i < |items| && (flush || PatchCount(OfModel(items, items[i].task.model)) >= Threshold()) ::
          items[i].task.model
    }

    function Threshold(): int {
      Max(config.gpuBatch, 1) * Max(config.readyBatches, 1)
    }

    /**
     `process_ready_embedding_batches`: exactly the items of the ripe models leave
     the ready list, and without a ripe model nothing happens. When a turn raises,
     the models after it keep their items.
     */
    method ProcessReadyEmbeddingBatches(flush: bool, ghost hand: set<TaskId>)
      returns (raised: Option<Exn>, ghost gone: set<Model>)
      requires Good(Now(), hand) && RowWise()
      modifies this`draining, this`acknowledged, this`audioPaths, this`trace, this`results, this`features, this`heads,
               this`failures, this`completed, this`readyEmbeddings
      ensures Step(old(Now()), Now(), hand, [], 0)
      ensures readyEmbeddings == LeftOver(old(readyEmbeddings), gone) && gone <= Ripe(old(readyEmbeddings), flush)
      ensures raised.None? ==> gone == Ripe(old(readyEmbeddings), flush)
      ensures gone == {} ==> raised.None? && Now() == old(Now())
      ensures flush && raised.None? ==> readyEmbeddings == []
    {
      hide Good, Follows, Load, ItemIds, OfModel, OfOthers, RowWise, PatchCount, LeftOver, Ripe, ModelsOf, Threshold,
          NameOf, Max;
      ghost var s := Now();
      raised, gone := None, {};
      StepSelf(s, hand);
      AllLeft(readyEmbeddings);
      var models := ModelsOf(readyEmbeddings);
      for i := 0 to |models|
        invariant Step(s, Now(), hand, [], 0)
        invariant readyEmbeddings == LeftOver(s.readyEmbeddings, gone) && raised.None?
        invariant gone <= Ripe(s.readyEmbeddings, flush)
        invariant forall k :: 0 <= k < |models| ==>
                  (models[k] in gone <==> k < i && models[k] in Ripe(s.readyEmbeddings, flush))
        invariant gone == {} ==> Now() == s
      {
        var m := models[i];
        StillThere(s.readyEmbeddings, gone, m);
        IsRipe(s.readyEmbeddings, flush, m);
        if flush || PatchCount(OfModel(readyEmbeddings, m)) >= Threshold() {
          ghost var mid := Now();
          raised := TakeModel(m, hand);
          gone := gone + {m};
          StepThen(s, mid, Now(), hand, hand, 0, 0);
          if raised.Some? {
            return;
          }
        }
      }
      RipeAreModels(s.readyEmbeddings, flush);
      assert gone == Ripe(s.readyEmbeddings, flush);
      if flush {
        AllRipe(s.readyEmbeddings);
      }
    }

    /** A model is ripe when the patches of its items fill the ready batches. */
    lemma {:induction false} RipeIff(items: seq<Item>, m: Model)
      ensures m in Ripe(items, false) <==>
              && (exists i :: 0 <= i < |items| && items[i].task.model == m)
              && PatchesOf(items, m) >= Max(config.gpuBatch, 1) * Max(config.readyBatches, 1)
    {
      PatchesAre(items, m);
      hide PatchCount, OfModel, PatchesOf;
    }

    lemma {:induction false} IsRipe(items: seq<Item>, flush: bool, m: Model)
      requires m in ModelsOf(items)
      ensures m in Ripe(items, flush) <==> flush || PatchCount(OfModel(items, m)) >= Threshold()
    {
      hide PatchCount, OfModel;
      ModelsAre(items, m);
    }

    lemma {:induction false} RipeAreModels(items: seq<Item>, flush: bool)
      ensures forall m :: m in Ripe(items, flush) ==> m in ModelsOf(items)
    {
      hide PatchCount, OfModel, ModelsOf;
      forall m | m in Ripe(items, flush) ensures m in ModelsOf(items) {
        ModelsAre(items, m);
      }
    }

    /** On a flush every model is ripe, and nothing is left over. */
    lemma {:induction false} AllRipe(items: seq<Item>)
      ensures LeftOver(items, Ripe(items, true)) == []
    {
      hide PatchCount, OfModel;
      forall item | item in items ensures item.task.model in Ripe(items, true) {
        var i :| 0 <= i < |items| && items[i] == item;
      }
      NoneLeft(items, Ripe(items, true));
    }

    // --------------------------------------------------------------- head batches

    /** `close_task_on_conflict`, and a failure row when the task was not closed; `closed` ends the handler. */
    method FailTask(e: Exn, id: TaskId, ghost hand: set<TaskId>) returns (closed: bool, ghost asked: State)
      requires Good(Now(), hand) && id in leased
      modifies this`acknowledged, this`audioPaths, this`trace, this`results, this`features, this`heads, this`failures,
               this`completed
      ensures if e == Http(409)
              then (exists reply :: asked == Answered(old(Now()), Checked(id, reply)) && (closed <==> Confirms(reply)))
              else asked == old(Now()) && !closed
      ensures Now() == if closed then Closed(asked, id) else Produced(asked, Failure(id))
      ensures closed ==> TurnedDown(old(Now()), Now(), id)
      ensures Step(old(Now()), Now(), hand - {id}, [], 0)
    {
      hide Good, Follows, Load;
      ghost var s := Now();
      closed, asked := false, s;
      StepSelf(s, hand);
      if e == Http(409) {
        ghost var reply;
        closed, reply := CloseInactiveTask(id, hand);
        asked := Answered(s, Checked(id, reply));
        assert closed ==> DownAt(trace.answers, |s.trace.answers|, id);
      }
      if !closed {
        ghost var mid := Now();
        Append(Failure(id), hand);
        StepThen(s, mid, Now(), hand, hand - {id}, 0, 0);
      }
    }

    /** A wanted head task's patches; extracting them may raise, and having none is an error. */
    method ExtractPatches() returns (patches: seq<Patch>, error: Option<Exn>)
      ensures error.None? ==> patches != []
    {
      patches, error := *, *;
      if error.None? && patches == [] {
        error := Some(OtherError);
      }
    }

    /** One task of a head batch: it goes on, fails, or is given up. */
    method SelectHead(task: Task, ghost hand: set<TaskId>) returns (item: Option<Item>, ghost fate: Fate)
      requires Good(Now(), hand) && task.id in leased
      modifies this`draining, this`acknowledged, this`audioPaths, this`trace, this`results, this`features, this`heads,
               this`failures, this`completed
      ensures item.Some? <==> fate.Goes?
      ensures item.Some? ==> [item.value] == GoingItem(task, fate)
      ensures trace.log == old(trace.log) + FailingRow(task, fate)
      ensures FateOf(old(Now()), Now(), task.id, fate)
      ensures Step(old(Now()), Now(), if item.Some? then hand else hand - {task.id}, [], 0)
    {
      hide Good, Follows, Load, SaidOf, TurnedDown, CalledActive;
      ghost var s := Now();
      item, fate := None, Gone;
      var wanted, error := GoesOn(task.id, hand);
      ghost var mid := Now();
      FateFromSaid(s, mid, task.id, wanted, error);
      if error.None? && !wanted {
        return;
      }
      if error.None? {
        var patches;
        patches, error := ExtractPatches();
        if error.None? {
          item, fate := Some(Item(task, patches)), Goes(patches);
          return;
        }
      }
      ghost var asked;
      var closed;
      closed, asked := FailTask(error.value, task.id, hand);
      fate := if closed then Gone else Failed;
      StepThen(s, mid, Now(), hand, hand - {task.id}, 0, 0);
      if closed {
        FateSince(s, mid, Now(), task.id);
      }
    }

    /** The selection loop of `process_ready_head_batches`. */
    method SelectHeads(tasks: seq<Task>, ghost hand: set<TaskId>) returns (active: seq<Item>, ghost fates: seq<Fate>)
      requires Good(Now(), hand + TaskIds(tasks))
      modifies this`draining, this`acknowledged, this`audioPaths, this`trace, this`results, this`features, this`heads,
               this`failures, this`completed
      ensures Fated(tasks, fates, old(Now()), Now()) && active == Going(tasks, fates)
      ensures trace.log == old(trace.log) + Failing(tasks, fates)
      ensures Step(old(Now()), Now(), hand + ItemIds(active), [], 0)
    {
      hide Good, Follows, Load, ItemIds, TaskIds, FateOf, Fated, Going, Failing, GoingItem, FailingRow;
      ghost var s, all := Now(), hand + TaskIds(tasks);
      HandIsLeased(s, all);
      StepSelf(s, all);
      active, fates := [], [];
      NoItems(active);
      NoneFated(s, s);
      assert tasks[0..] == tasks && tasks[..0] == [];
      assert hand + ItemIds(active) + TaskIds(tasks[0..]) == all;
      for i := 0 to |tasks|
        invariant |fates| == i && Fated(tasks[..i], fates, s, Now()) && active == Going(tasks[..i], fates)
        invariant trace.log == s.trace.log + Failing(tasks[..i], fates)
        invariant Step(s, Now(), hand + ItemIds(active) + TaskIds(tasks[i..]), [], 0)
        invariant hand + ItemIds(active) + TaskIds(tasks[i..]) <= all
      {
        ghost var mid, held := Now(), hand + ItemIds(active) + TaskIds(tasks[i..]);
        TaskIdsFrom(tasks, i);
        var item;
        ghost var fate;
        item, fate := SelectHead(tasks[i], held);
        FatedMore(tasks, i, fates, fate, s, mid, Now(), if item.Some? then held else held - {tasks[i].id});
        fates := fates + [fate];
        active := NextHead(tasks, i, item, fate, active, hand, s, mid);
      }
      NoTasks(tasks[|tasks|..]);
      assert tasks[..|tasks|] == tasks;
      assert hand + ItemIds(active) + TaskIds(tasks[|tasks|..]) == hand + ItemIds(active);
    }

    /** The task joins the active ones or leaves the hand. */
    method NextHead(tasks: seq<Task>, i: nat, item: Option<Item>, ghost fate: Fate, active: seq<Item>,
                    ghost hand: set<TaskId>, ghost s: State, ghost mid: State)
      returns (next: seq<Item>)
      requires i < |tasks| && (item.Some? <==> fate.Goes?) && (item.Some? ==> [item.value] == GoingItem(tasks[i], fate))
      requires Step(s, mid, hand + ItemIds(active) + TaskIds(tasks[i..]), [], 0)
      requires hand + ItemIds(active) + TaskIds(tasks[i..]) <= leased
      requires Step(mid, Now(), if item.Some? then hand + ItemIds(active) + TaskIds(tasks[i..])
                                else hand + ItemIds(active) + TaskIds(tasks[i..]) - {tasks[i].id}, [], 0)
      ensures next == active + GoingItem(tasks[i], fate)
      ensures Step(s, Now(), hand + ItemIds(next) + TaskIds(tasks[i + 1..]), [], 0)
      ensures hand + ItemIds(next) + TaskIds(tasks[i + 1..]) <= hand + ItemIds(active) + TaskIds(tasks[i..])
    {
      hide Good, Follows, Load, ItemIds, TaskIds;
      ghost var held, id := hand + ItemIds(active) + TaskIds(tasks[i..]), tasks[i].id;
      TaskIdsFrom(tasks, i);
      next := active + if item.Some? then [item.value] else [];
      if item.Some? {
        ItemIdsGrow(active, item.value);
        StepThen(s, mid, Now(), held, held, 0, 0);
        StepWiden(s, Now(), held, hand + ItemIds(next) + TaskIds(tasks[i + 1..]), [], 0);
      } else {
        assert next == active;
        StepOn(s, mid, Now(), held, id, hand + ItemIds(next) + TaskIds(tasks[i + 1..]), 0, 0);
      }
    }

    /** The rows a head batch appends: for each task what the heads say of its patches alone. */
    ghost function HeadRows(items: seq<Item>): seq<Outcome> {
      seq(|items|, i requires 0 <= i < |items| => HeadRow(items[i].task.id, B.Outputs(pack, |pack|, items[i].patches)))
    }

    /** The loop that appends a batch's head rows, up to where serializing one raises. */
    method AppendHeads(active: seq<Item>, outputs: seq<seq<Row>>, ghost hand: set<TaskId>)
      returns (raised: bool, ghost n: nat)
      requires Good(Now(), hand + ItemIds(active)) && |outputs| == |active|
      requires forall i :: 0 <= i < |active| ==> outputs[i] == B.Outputs(pack, |pack|, active[i].patches)
      modifies this`results, this`features, this`heads, this`failures, this`completed, this`trace
      ensures n <= |active| && (!raised ==> n == |active|)
      ensures trace.log == old(trace.log) + HeadRows(active)[..n]
      ensures Step(old(Now()), Now(), if raised then hand + ItemIds(active) else hand, [], 0)
    {
      hide Good, Follows, Load, ItemIds, Left;
      ghost var s := Now();
      HandIsLeased(s, hand + ItemIds(active));
      StepSelf(s, hand + ItemIds(active));
      raised, n := false, 0;
      LeftAll(hand, active);
      for i := 0 to |active|
        invariant n == i && !raised
        invariant trace.log == s.trace.log + HeadRows(active)[..i]
        invariant Step(s, Now(), Left(hand, active, i), [], 0)
      {
        LeftNext(hand, active, i);
        raised := *;
        if raised {
          StepWiden(s, Now(), Left(hand, active, i), hand + ItemIds(active), [], 0);
          return;
        }
        ghost var mid := Now();
        var row := HeadRow(active[i].task.id, outputs[i]);
        assert HeadRows(active)[i] == row;
        Append(row, Left(hand, active, i));
        StepOn(s, mid, Now(), Left(hand, active, i), row.id, Left(hand, active, i + 1), 0, 0);
        n := i + 1;
      }
    }

    /** The batch analysis, its rows, and failures for the whole batch when something in it raises. */
    method AnalyzeHeads(active: seq<Item>, ghost hand: set<TaskId>) returns (ghost n: nat, ghost rows: seq<Outcome>)
      requires Good(Now(), hand + ItemIds(active)) && RowWise()
      modifies this`results, this`features, this`heads, this`failures, this`completed, this`trace
      ensures n <= |active| && trace.log == old(trace.log) + HeadRows(active)[..n] + rows
      ensures (rows == [] && n == |active|) || Decides(rows, active, false)
      ensures Step(old(Now()), Now(), hand, [], 0)
    {
      hide Good, Follows, Load, ItemIds, Decides;
      ghost var s := Now();
      StepSelf(s, hand + ItemIds(active));
      n, rows := 0, [];
      var raised: bool := *;
      if !raised {
        var patches := seq(|active|, i requires 0 <= i < |active| => active[i].patches);
        var outputs := B.AnalyzeTogether(pack, packRows, patches);
        if outputs.Err? {
          raised := true;
        } else {
          raised, n := AppendHeads(active, outputs.value, hand);
        }
      }
      if raised {
        ghost var mid := Now();
        rows := FailAll(active, false, hand);
        StepThen(s, mid, Now(), hand + ItemIds(active), hand, 0, 0);
      }
    }

    /**
     The first tasks leave the ready list and are processed as one batch: the log
     gets the failures, then the head rows of exactly the tasks that go on, or of
     some of them and then a failure for each.
     */
    method TakeHeads(count: nat, ghost hand: set<TaskId>)
      returns (raised: Option<Exn>, ghost fates: seq<Fate>, ghost n: nat, ghost rows: seq<Outcome>)
      requires Good(Now(), hand) && RowWise() && count <= |readyHeads|
      modifies this`draining, this`acknowledged, this`audioPaths, this`trace, this`results, this`features, this`heads,
               this`failures, this`completed, this`readyHeads
      ensures Step(old(Now()), Now(), hand, [], 0) && readyHeads == old(readyHeads)[count..]
      ensures Fated(old(readyHeads)[..count], fates, old(Now()), Now())
      ensures var active := Going(old(readyHeads)[..count], fates);
              && n <= |active|
              && trace.log == old(trace.log) + Failing(old(readyHeads)[..count], fates) + HeadRows(active)[..n] + rows
              && ((rows == [] && n == |active|) || Decides(rows, active, false))
              && (raised.None? && active != [] ==> Slack(Now()))
    {
      hide Good, Follows, Load, ItemIds, TaskIds, Decides, RowWise, FateOf, Fated, Going, Failing;
      ghost var s := Now();
      var batch := readyHeads[..count];
      TookHeadsGood(s, hand, count);
      readyHeads := readyHeads[count..];
      ghost var mid := Now();
      raised, n, rows := None, 0, [];
      var wanted;
      wanted, fates := SelectHeads(batch, hand);
      FatedSince(batch, fates, s, mid, Now());
      StepThen(s, mid, Now(), hand + TaskIds(batch), hand + ItemIds(wanted), 0, 0);
      if wanted == [] {
        NoItems(wanted);
        assert hand + ItemIds(wanted) == hand;
        return;
      }
      mid := Now();
      raised, n, rows := AnalyzeAndFlush(wanted, hand);
      StepThen(s, mid, Now(), hand + ItemIds(wanted), hand, 0, 0);
      StillFated(batch, fates, s, mid, Now(), hand);
    }

    method AnalyzeAndFlush(active: seq<Item>, ghost hand: set<TaskId>)
      returns (raised: Option<Exn>, ghost n: nat, ghost rows: seq<Outcome>)
      requires Good(Now(), hand + ItemIds(active)) && RowWise()
      modifies this`draining, this`acknowledged, this`audioPaths, this`trace, this`results, this`features, this`heads,
               this`failures, this`completed
      ensures n <= |active| && trace.log == old(trace.log) + HeadRows(active)[..n] + rows
      ensures (rows == [] && n == |active|) || Decides(rows, active, false)
      ensures raised.None? ==> Slack(Now())
      ensures Step(old(Now()), Now(), hand, [], 0)
    {
      hide Good, Follows, Load, ItemIds, Decides, RowWise;
      ghost var s := Now();
      n, rows := AnalyzeHeads(active, hand);
      ghost var mid := Now();
      raised := MaybeFlush(hand);
      StepThen(s, mid, Now(), hand, hand, 0, 0);
    }

    function HeadTarget(): (tasks: nat)
      ensures 4 <= tasks && config.readyBatches <= tasks && (tasks == 4 || tasks == config.readyBatches)
    {
      Max(4, config.readyBatches)
    }

    /** What is left of the list after at most one batch of `max(4, ready_batches)` tasks. */
    function HeadsLeft(tasks: seq<Task>, flush: bool): (left: seq<Task>)
      ensures |left| <= |tasks| && left == tasks[|tasks| - |left|..]
      ensures !config.analyzesHeads || (!flush && |tasks| < HeadTarget()) ==> |left| == |tasks|
      ensures config.analyzesHeads && (flush || |tasks| >= HeadTarget()) ==>
              |tasks| - |left| == (if |tasks| < HeadTarget() then |tasks| else HeadTarget())
    {
      if !config.analyzesHeads || (!flush && |tasks| < HeadTarget()) then tasks
      else if |tasks| <= HeadTarget() then [] else tasks[HeadTarget()..]
    }

    /**
     `process_ready_head_batches`: below the target nothing happens without a flush,
     and one batch leaves the list otherwise.
     */
    method ProcessReadyHeadBatches(flush: bool, ghost hand: set<TaskId>) returns (raised: Option<Exn>)
      requires Good(Now(), hand) && RowWise()
      modifies this`draining, this`acknowledged, this`audioPaths, this`trace, this`results, this`features, this`heads,
               this`failures, this`completed, this`readyHeads
      ensures Step(old(Now()), Now(), hand, [], 0)
      ensures readyHeads == HeadsLeft(old(readyHeads), flush)
      ensures readyHeads == old(readyHeads) ==>
              Now() == old(Now()) && (raised.Some? <==> readyHeads != [] && !config.analyzesHeads)
    {
      hide Good, Follows, Load, RowWise, Decides, Fated, Going, Failing;
      raised := None;
      StepSelf(Now(), hand);
      if readyHeads == [] {
        return;
      }
      if !config.analyzesHeads {
        raised := Some(OtherError);
        return;
      }
      var target := HeadTarget();
      if !flush && |readyHeads| < target {
        return;
      }
      ghost var fates, n, rows;
      raised, fates, n, rows := TakeHeads(if target < |readyHeads| then target else |readyHeads|, hand);
    }

    // ------------------------------------------------------------------- handlers

    /** The task of a done future leaves its map; it is in hand until the handler decides. */
    method Take(f: Future) returns (task: Task)
      requires Good(Now(), {}) && Pending(Now(), f)
      modifies this`downloads, this`cpu, this`preprocessing, this`trace
      ensures Now() == TookFuture(old(Now()), f) && task.id in leased
      ensures (f in old(downloads) ==> task == old(downloads)[f]) && (f in old(cpu) ==> task == old(cpu)[f])
      ensures f in old(preprocessing) ==> task == old(preprocessing)[f]
      ensures Step(old(Now()), Now(), {task.id}, [f], -1)
    {
      hide Good, Follows, Load;
      TookFutureGood(Now(), {}, f);
      TaskIs(Now(), f);
      assert {} + {TaskOf(Now(), f).id} == {TaskOf(Now(), f).id};
      task := if f in downloads then downloads[f] else if f in cpu then cpu[f] else preprocessing[f];
      downloads, cpu, preprocessing := downloads - {f}, cpu - {f}, preprocessing - {f};
      trace := trace.(handled := trace.handled + [f]);
    }

    /** The task was called active and joined the ready list, whose ripe models then ran. */
    ghost predicate JoinedGpu(a: State, b: State, task: Task, item: Item) {
      && item.task == task && item.patches != [] && CalledActive(a, b, task.id)
      && var ready := a.readyEmbeddings + [item];
         b.readyEmbeddings == LeftOver(ready, Ripe(ready, false))
    }

    /**
     The `try` block of `_handle_embedding_future`: an active task with patches joins
     the ready list, whose ripe batches then run.
     */
    method TryEmbedding(task: Task) returns (finished: bool, error: Option<Exn>, ghost item: Item)
      requires Good(Now(), {task.id}) && RowWise()
      modifies this`draining, this`acknowledged, this`audioPaths, this`trace, this`results, this`features, this`heads,
               this`failures, this`completed, this`readyEmbeddings
      ensures finished ==> error.None? && FateOf(old(Now()), Now(), task.id, Gone) && trace.log == old(trace.log)
      ensures !finished && error.None? ==> JoinedGpu(old(Now()), Now(), task, item)
      ensures Step(old(Now()), Now(), if error.None? then {} else {task.id}, [], 1)
    {
      hide Good, Follows, Load, RowWise, SaidOf, CalledActive, TurnedDown, LeftOver, Ripe;
      ghost var s := Now();
      HandIsLeased(s, {task.id});
      StepSelf(s, {task.id});
      var patches;
      patches, error := ExtractPatches();
      finished, item := false, Item(task, patches);
      if error.Some? {
        return;
      }
      var wanted;
      wanted, error := GoesOn(task.id, {task.id});
      if error.Some? {
        return;
      }
      assert {task.id} - {task.id} == {};
      FateFromSaid(s, Now(), task.id, wanted, error);
      if !wanted {
        finished := true;
        return;
      }
      ghost var asked := Now();
      ReadyForGpuGood(asked, {task.id}, item);
      readyEmbeddings := readyEmbeddings + [Item(task, patches)];
      ghost var mid := Now();
      StepThen(s, asked, mid, {task.id}, {}, 0, 1);
      ghost var gone;
      error, gone := ProcessReadyEmbeddingBatches(false, {});
      StepThen(s, mid, Now(), {}, {}, 1, 0);
      StillActive(s, asked, mid, task.id);
      StillActive(s, mid, Now(), task.id);
      if error.Some? {
        StepWiden(s, Now(), {}, {task.id}, [], 1);
      }
    }

    /** The `except` block of `_handle_embedding_future`; `finished` when it returned. */
    method ExceptEmbedding(task: Task, error: Exn) returns (finished: bool, ghost row: Outcome)
      requires Good(Now(), {task.id})
      modifies this`acknowledged, this`audioPaths, this`trace, this`results, this`features, this`heads, this`failures,
               this`completed
      ensures finished ==> FateOf(old(Now()), Now(), task.id, Gone) && trace.log == old(trace.log)
      ensures !finished ==>
              row.id == task.id && (row.Failure? || (config.auto && row.Vector?)) && trace.log == old(trace.log) + [row]
      ensures Step(old(Now()), Now(), {}, [], 0)
    {
      hide Good, Follows, Load, TurnedDown;
      ghost var s := Now();
      HandIsLeased(s, {task.id});
      StepSelf(s, {task.id});
      assert {task.id} - {task.id} == {};
      finished, row := false, Failure(task.id);
      if error == Http(409) {
        finished := CloseIfDown(task.id, {task.id});
      }
      if !finished && config.auto {
        ghost var mid := Now();
        finished := CloseIfDown(task.id, {task.id});
        StepThen(s, mid, Now(), {task.id}, if finished then {} else {task.id}, 0, 0);
        SinceBefore(s, mid, Now(), [], task.id);
      }
      if !finished {
        ghost var mid := Now();
        row := FallBack(task.id, config.auto, {task.id});
        StepThen(s, mid, Now(), {task.id}, {}, 0, 0);
      }
    }

    /** `close_inactive_task`, seen by a handler that returns when it closed the task. */
    method CloseIfDown(id: TaskId, ghost hand: set<TaskId>) returns (closed: bool)
      requires Good(Now(), hand) && id in leased
      modifies this`acknowledged, this`audioPaths, this`trace
      ensures closed ==> TurnedDown(old(Now()), Now(), id)
      ensures trace.log == old(trace.log)
      ensures Step(old(Now()), Now(), if closed then hand - {id} else hand, [], 0)
    {
      hide Good, Follows, Load;
      ghost var s := Now();
      ghost var reply;
      closed, reply := CloseInactiveTask(id, hand);
      assert closed ==> DownAt(trace.answers, |s.trace.answers|, id);
    }

    /** `_handle_embedding_future`: the task is given up, joins the ready list, or gets a last row. */
    method HandleEmbeddingFuture(f: Future) returns (raised: Option<Exn>, ghost end: End)
      requires Good(Now(), {}) && RowWise() && f in preprocessing
      modifies this
      ensures Step(old(Now()), Now(), {}, [f], 0) && leased == old(leased)
      ensures !Pending(Now(), f)
      ensures var task := old(preprocessing[f]);
              match end
              case GivenUp => FateOf(old(Now()), Now(), task.id, Gone)
              case ForGpu(item) => JoinedGpu(old(Now()), Now(), task, item)
              case Decided(row) => EndsWith(old(Now()), Now(), row) && row.id == task.id
                  && (row.Failure? || (config.auto && row.Vector?))
              case _ => false
      ensures raised.None? && !end.GivenUp? ==> Slack(Now())
    {
      hide Good, Follows, Load, RowWise, TurnedDown, CalledActive, LeftOver, Ripe;
      ghost var s := Now();
      var task := Take(f);
      ghost var mid := Now();
      raised, end := DecideEmbedding(task);
      StepJoin(s, mid, Now(), {task.id}, {}, [f], [], [f], -1, 1);
      SinceBefore(s, mid, Now(), [f], task.id);
      Finished(s, Now(), f);
    }

    /** The body of `_handle_embedding_future` after the future left its map. */
    method DecideEmbedding(task: Task) returns (raised: Option<Exn>, ghost end: End)
      requires Good(Now(), {task.id}) && RowWise()
      modifies this`draining, this`acknowledged, this`audioPaths, this`trace, this`results, this`features, this`heads,
               this`failures, this`completed, this`readyEmbeddings
      ensures Step(old(Now()), Now(), {}, [], 1)
      ensures match end
              case GivenUp => FateOf(old(Now()), Now(), task.id, Gone)
              case ForGpu(item) => JoinedGpu(old(Now()), Now(), task, item)
              case Decided(row) => EndsWith(old(Now()), Now(), row) && row.id == task.id
                  && (row.Failure? || (config.auto && row.Vector?))
              case _ => false
      ensures raised.None? && !end.GivenUp? ==> Slack(Now())
    {
      hide Good, Follows, Load, RowWise, TurnedDown, CalledActive, LeftOver, Ripe;
      ghost var s := Now();
      raised := None;
      var finished, error;
      ghost var item;
      finished, error, item := TryEmbedding(task);
      end := if finished then GivenUp else ForGpu(item);
      ghost var mid := Now();
      if error.Some? {
        ghost var row;
        finished, row := ExceptEmbedding(task, error.value);
        end := if finished then GivenUp else Decided(row);
        StepThen(s, mid, Now(), {task.id}, {}, 1, 0);
        SinceBefore(s, mid, Now(), [], task.id);
        LogGrows(s, mid, []);
      }
      if !finished {
        mid := Now();
        raised := MaybeFlush({});
        StepThen(s, mid, Now(), {}, {}, 1, 0);
        UntilAfter(s, mid, Now(), [], task.id);
      }
    }

    /** `_handle_cpu_future`. */
    method HandleCpuFuture(f: Future) returns (raised: Option<Exn>, ghost end: End)
      requires Good(Now(), {}) && f in cpu
      modifies this
      ensures Step(old(Now()), Now(), {}, [f], -1) && leased == old(leased)
      ensures !Pending(Now(), f)
      ensures var task := old(cpu[f]);
              match end
              case GivenUp => FateOf(old(Now()), Now(), task.id, Gone) && trace.log == old(trace.log)
              case Decided(row) => trace.log == old(trace.log) + [row] && row.id == task.id
                  && (row.Analysis? || row.Failure?)
              case _ => false
      ensures raised.None? && end.Decided? ==> Slack(Now())
    {
      hide Good, Follows, Load, TurnedDown;
      ghost var s := Now();
      raised := None;
      var task := Take(f);
      ghost var mid := Now();
      var finished;
      ghost var row;
      finished, row := DecideCpu(task);
      end := if finished then GivenUp else Decided(row);
      StepJoin(s, mid, Now(), {task.id}, {}, [f], [], [f], -1, 0);
      SinceBefore(s, mid, Now(), [f], task.id);
      if !finished {
        mid := Now();
        raised := MaybeFlush({});
        StepJoin(s, mid, Now(), {}, {}, [f], [], [f], -1, 0);
      }
      Finished(s, Now(), f);
    }

    /** An analysis becomes a row unless the worker drains; an error a failure unless the task is gone. */
    method DecideCpu(task: Task) returns (finished: bool, ghost row: Outcome)
      requires Good(Now(), {task.id})
      modifies this`draining, this`acknowledged, this`audioPaths, this`trace, this`results, this`features, this`heads,
               this`failures, this`completed
      ensures finished ==> trace.log == old(trace.log) && FateOf(old(Now()), Now(), task.id, Gone)
      ensures !finished ==> row.id == task.id && (row.Analysis? || row.Failure?) && trace.log == old(trace.log) + [row]
      ensures Step(old(Now()), Now(), {}, [], 0)
    {
      hide Good, Follows, Load, TurnedDown;
      ghost var s := Now();
      HandIsLeased(s, {task.id});
      assert {task.id} - {task.id} == {};
      StepSelf(s, {task.id});
      finished, row := false, Failure(task.id);
      var error: Option<Exn> := *;
      match error
      case Some(e) =>
        ghost var asked;
        finished, asked := FailTask(e, task.id, {task.id});
      case None =>
        Signal({task.id});
        ghost var mid := Now();
        if draining {
          GiveUp(task.id, {task.id});
          finished := true;
        } else {
          var analysis: Row := *;
          row := Analysis(task.id, analysis);
          Append(Analysis(task.id, analysis), {task.id});
        }
        StepThen(s, mid, Now(), {task.id}, {}, 0, 0);
    }

    /** A downloaded feature task goes to the CPU pool. */
    method RouteFeatures(task: Task) returns (error: Option<Exn>)
      requires Good(Now(), {task.id})
      modifies this`cpu, this`nextFuture
      ensures Now() == if config.analyzesFeatures then SentToCpu(old(Now()), task) else old(Now())
      ensures error.None? <==> config.analyzesFeatures
      ensures Step(old(Now()), Now(), if error.None? then {} else {task.id}, [], 1)
    {
      hide Good, Follows, Load;
      HandIsLeased(Now(), {task.id});
      StepSelf(Now(), {task.id});
      assert {task.id} - {task.id} == {};
      error := if config.analyzesFeatures then None else Some(OtherError);
      if config.analyzesFeatures {
        SentToCpuGood(Now(), {task.id}, task);
        cpu := cpu[nextFuture := task];
        nextFuture := nextFuture + 1;
      }
    }

    /** A downloaded head task joins the ready list, which may fill a batch. */
    method RouteHeads(task: Task) returns (error: Option<Exn>)
      requires Good(Now(), {task.id}) && RowWise()
      modifies this`draining, this`acknowledged, this`audioPaths, this`trace, this`results, this`features, this`heads,
               this`failures, this`completed, this`readyHeads
      ensures !config.analyzesHeads ==> error.Some? && Now() == old(Now())
      ensures config.analyzesHeads ==> readyHeads == HeadsLeft(old(readyHeads) + [task], false)
      ensures Step(old(Now()), Now(), if error.None? then {} else {task.id}, [], 1)
    {
      hide Good, Follows, Load, RowWise, HeadsLeft;
      ghost var s := Now();
      HandIsLeased(s, {task.id});
      StepSelf(s, {task.id});
      assert {task.id} - {task.id} == {};
      error := Some(OtherError);
      if config.analyzesHeads {
        ReadyForHeadsGood(s, {task.id}, task);
        readyHeads := readyHeads + [task];
        ghost var mid := Now();
        error := ProcessReadyHeadBatches(false, {});
        StepThen(s, mid, Now(), {}, {}, 1, 0);
        StepWiden(s, Now(), {}, {task.id}, [], 1);
      }
    }

    /** A downloaded embedding task is preprocessed for a GPU batch, or embedded at once. */
    method RouteEmbedding(task: Task, name: string)
      returns (finished: bool, error: Option<Exn>, ghost rows: seq<Outcome>)
      requires Good(Now(), {task.id})
      modifies this`trace, this`results, this`features, this`heads, this`failures, this`completed, this`preprocessing,
               this`nextFuture
      ensures finished <==> name in config.direct
      ensures finished ==> error.None? && Now() == SentToPreprocessing(old(Now()), task)
      ensures !finished && name !in config.embedders ==> error.Some?
      ensures !finished ==> trace.log == old(trace.log) + rows
      ensures !finished && error.None? ==> |rows| == 1 && rows[0].Vector? && rows[0].id == task.id
      ensures error.Some? ==> Now() == old(Now())
      ensures Step(old(Now()), Now(), if error.None? then {} else {task.id}, [], 1)
    {
      hide Good, Follows, Load;
      HandIsLeased(Now(), {task.id});
      StepSelf(Now(), {task.id});
      assert {task.id} - {task.id} == {};
      finished, error, rows := name in config.direct, None, [];
      if finished {
        SentToPreprocessingGood(Now(), {task.id}, task);
        preprocessing := preprocessing[nextFuture := task];
        nextFuture := nextFuture + 1;
      } else if name in config.embedders {
        error := *;
        if error.None? {
          var vector: Row := *;
          rows := [Vector(task.id, vector)];
          Append(Vector(task.id, vector), {task.id});
        }
      } else {
        error := Some(OtherError);
      }
    }

    /** Where a download that is complete goes: nowhere only during a drain. */
    ghost predicate Routed(a: State, b: State, task: Task, end: End) {
      match end
      case GivenUp =>
        b.draining
      case ToCpu =>
        task.model.Features? && config.analyzesFeatures && a.nextFuture in b.cpu && b.cpu[a.nextFuture] == task
      case ForHeads =>
        task.model.Heads? && config.analyzesHeads && b.readyHeads == HeadsLeft(a.readyHeads + [task], false)
      case ToPreprocessing =>
        && task.model.Embedding? && task.model.name in config.direct
        && a.nextFuture in b.preprocessing && b.preprocessing[a.nextFuture] == task
      case Decided(row) =>
        && task.model.Embedding? && task.model.name in config.embedders && task.model.name !in config.direct
        && row.id == task.id && row.Vector? && b.trace.log == a.trace.log + [row]
      case ForGpu(_) =>
        false
    }

    /** The branches on the task's model. */
    method RouteTask(task: Task) returns (finished: bool, error: Option<Exn>, ghost end: End)
      requires Good(Now(), {task.id}) && RowWise()
      modifies this`draining, this`acknowledged, this`audioPaths, this`trace, this`results, this`features, this`heads,
               this`failures, this`completed,
               this`cpu, this`preprocessing, this`nextFuture, this`readyHeads
      ensures finished ==> error.None?
      ensures error.None? ==> Routed(old(Now()), Now(), task, end) && !end.GivenUp? && (finished <==> !end.Decided?)
      ensures Step(old(Now()), Now(), if error.None? then {} else {task.id}, [], 1)
    {
      hide Good, Follows, Load, RowWise, HeadsLeft;
      match task.model
      case Features =>
        error := RouteFeatures(task);
        finished, end := error.None?, ToCpu;
      case Heads =>
        error := RouteHeads(task);
        finished, end := error.None?, ForHeads;
      case Embedding(name) =>
        ghost var rows;
        finished, error, rows := RouteEmbedding(task, name);
        end := if finished then ToPreprocessing else if error.None? then Decided(rows[0]) else GivenUp;
    }

    /** The `try` block of `_handle_download_future`; without an exception it returns unless it produced a row. */
    method TryDownload(task: Task) returns (finished: bool, error: Option<Exn>, ghost end: End)
      requires Good(Now(), {task.id}) && RowWise()
      modifies this`draining, this`acknowledged, this`audioPaths, this`trace, this`results, this`features, this`heads,
               this`failures, this`completed,
               this`cpu, this`preprocessing, this`nextFuture, this`readyHeads
      ensures finished ==> error.None?
      ensures error.None? ==> Routed(old(Now()), Now(), task, end) && (finished <==> !end.Decided?)
      ensures Step(old(Now()), Now(), if error.None? then {} else {task.id}, [], 1)
    {
      hide Good, Follows, Load, RowWise, HeadsLeft;
      ghost var s := Now();
      HandIsLeased(s, {task.id});
      StepSelf(s, {task.id});
      finished, error, end := false, *, GivenUp;
      if error.None? {
        Signal({task.id});
        ghost var mid := Now();
        if draining {
          GiveUp(task.id, {task.id});
          assert {task.id} - {task.id} == {};
          StepThen(s, mid, Now(), {task.id}, {}, 0, 0);
          finished := true;
        } else {
          finished, error, end := RouteTask(task);
          StepThen(s, mid, Now(), {task.id}, if error.None? then {} else {task.id}, 0, 1);
        }
      }
    }

    /** `_maybe_claim_more`: connection errors are reported and swallowed. */
    method MaybeClaimMore() returns (raised: Option<Exn>, ghost asked: Option<int>)
      requires Good(Now(), {})
      modifies this`leased, this`audioPaths, this`downloads, this`nextFuture, this`draining
      ensures asked == if draining || Load(old(Now())) >= Capacity() then None else Some(ClaimLimit(old(Now())))
      ensures old(draining) ==> leased == old(leased)
      ensures Good(Now(), {}) && Follows(old(Now()), Now(), [])
      ensures Load(Now()) <= Max(Load(old(Now())), Capacity())
    {
      hide Good, Follows, Load, ClaimLimit;
      raised, asked := None, None;
      StepSelf(Now(), {});
      if !draining {
        ghost var tasks;
        raised, tasks, asked := ClaimMore();
        if raised.Some? && raised.value != OtherError {
          raised := None;
        }
      }
    }

    /**
     `_handle_download_future`: a complete download is routed by its model, and
     only during a drain nowhere; one that raised gets a failure row, or is given
     up when the server confirms a conflict.
     */
    method HandleDownloadFuture(f: Future) returns (raised: Option<Exn>, ghost end: End)
      requires Good(Now(), {}) && RowWise() && f in downloads
      modifies this
      ensures Good(Now(), {}) && Follows(old(Now()), Now(), [f])
      ensures Load(Now()) <= Max(Load(old(Now())), Capacity())
      ensures !Pending(Now(), f)
      ensures var task := old(downloads[f]);
              || Routed(old(Now()), Now(), task, end)
              || (end.GivenUp? && TurnedDown(old(Now()), Now(), task.id))
              || (end == Decided(Failure(task.id)) && EndsWith(old(Now()), Now(), Failure(task.id)))
      ensures raised.None? && end.Decided? ==> Slack(Now())
    {
      hide Good, Follows, Load, RowWise, TurnedDown, HeadsLeft;
      ghost var s := Now();
      raised := None;
      var task := Take(f);
      ghost var mid := Now();
      var finished, error;
      finished, error, end := TryDownload(task);
      StepJoin(s, mid, Now(), {task.id}, if error.None? then {} else {task.id}, [f], [], [f], -1, 1);
      assert error.None? ==> Routed(s, Now(), task, end);
      if error.Some? {
        mid := Now();
        assert {task.id} - {task.id} == {};
        HandIsLeased(mid, {task.id});
        ghost var asked;
        finished, asked := FailTask(error.value, task.id, {task.id});
        end := if finished then GivenUp else Decided(Failure(task.id));
        StepJoin(s, mid, Now(), {task.id}, {}, [f], [], [f], 0, 0);
        SinceBefore(s, mid, Now(), [f], task.id);
        LogGrows(s, mid, [f]);
      }
      if !finished {
        ghost var asked;
        raised, asked := FlushThenClaim(s, f);
      }
      Finished(s, Now(), f);
    }

    /** The end of `_handle_download_future`: a full batch is submitted, then more tasks are claimed. */
    method FlushThenClaim(ghost s: State, ghost f: Future) returns (raised: Option<Exn>, ghost asked: Option<int>)
      requires Good(Now(), {}) && Step(s, Now(), {}, [f], 0)
      modifies this
      ensures Good(Now(), {}) && Follows(s, Now(), [f])
      ensures Load(Now()) <= Max(Load(s), Capacity())
      ensures trace.log == old(trace.log)
      ensures raised.None? ==> Slack(Now())
      ensures raised.None? ==>
              asked == if draining || Load(old(Now())) >= Capacity() then None else Some(ClaimLimit(old(Now())))
    {
      hide Good, Follows;
      asked := None;
      ghost var mid := Now();
      raised := MaybeFlush({});
      StepJoin(s, mid, Now(), {}, {}, [f], [], [f], 0, 0);
      if raised.None? {
        mid := Now();
        raised, asked := MaybeClaimMore();
        FollowsJoin(s, mid, Now(), [f], []);
        assert [f] + [] == [f];
      }
    }

    // ------------------------------------------------------------------- the loop

    /** A done future goes to the handler of the map it is in, and is in no map afterwards. */
    method HandleDone(f: Future) returns (raised: Option<Exn>)
      requires Good(Now(), {}) && RowWise() && Pending(Now(), f) && Load(Now()) <= Capacity()
      modifies this
      ensures Good(Now(), {}) && Follows(old(Now()), Now(), [f]) && Load(Now()) <= Capacity()
      ensures !Pending(Now(), f)
    {
      hide Good, Follows, Load, RowWise, FateOf, TurnedDown;
      ghost var end;
      if f in preprocessing {
        raised, end := HandleEmbeddingFuture(f);
      } else if f in cpu {
        raised, end := HandleCpuFuture(f);
      } else {
        raised, end := HandleDownloadFuture(f);
      }
    }

    /**
     The loop over the done futures: each is still in its map when its turn comes
     and in none afterwards. Exactly the first `n` are handled, in order, all of
     them unless one raised, and no other future leaves its map.
     */
    method HandleAll(done: seq<Future>) returns (raised: Option<Exn>, ghost n: nat)
      requires Good(Now(), {}) && RowWise() && Load(Now()) <= Capacity()
      requires (forall i :: 0 <= i < |done| ==> Pending(Now(), done[i])) && forall i, j :: 0 <= i < j < |done| ==>
               done[i] != done[j]
      modifies this
      ensures n <= |done| && (raised.None? ==> n == |done|)
      ensures Good(Now(), {}) && Follows(old(Now()), Now(), done[..n]) && Load(Now()) <= Capacity()
      ensures forall i :: 0 <= i < n ==> !Pending(Now(), done[i])
      ensures forall i :: n <= i < |done| ==> Pending(Now(), done[i])
    {
      hide Good, Follows, Load, RowWise, Pending;
      ghost var s := Now();
      raised, n := None, 0;
      FollowsSelf(s);
      forall j | 0 <= j < |done| ensures done[j] < nextFuture {
        HandedOut(s, done[j]);
      }
      for i := 0 to |done|
        invariant n == i
        invariant Good(Now(), {}) && Follows(s, Now(), done[..i]) && Load(Now()) <= Capacity()
        invariant forall j :: 0 <= j < |done| ==> done[j] < nextFuture
        invariant forall j :: 0 <= j < i ==> !Pending(Now(), done[j])
        invariant forall j :: i <= j < |done| ==> Pending(Now(), done[j])
      {
        ghost var mid := Now();
        raised := HandleDone(done[i]);
        n := i + 1;
        FollowsJoin(s, mid, Now(), done[..i], [done[i]]);
        assert done[..i + 1] == done[..i] + [done[i]];
        forall j | 0 <= j < |done|
          ensures done[j] < nextFuture && (j != i ==> (Pending(Now(), done[j]) <==> Pending(mid, done[j])))
        {
          StillPending(mid, Now(), done[i], done[j], {});
        }
        if raised.Some? {
          return;
        }
      }
      assert done[..|done|] == done;
    }

    /** `wait(pending, FIRST_COMPLETED)`: at least one of the pending futures, each once. */
    method Wait() returns (done: seq<Future>)
      requires downloads != map[] || cpu != map[] || preprocessing != map[]
      ensures done != []
      ensures forall i :: 0 <= i < |done| ==> Pending(Now(), done[i])
      ensures forall i, j :: 0 <= i < j < |done| ==> done[i] != done[j]
    {
      var some: seq<Future> := *;
      done := [];
      for i := 0 to |some|
        invariant forall k :: 0 <= k < |done| ==> Pending(Now(), done[k])
        invariant forall j, k :: 0 <= j < k < |done| ==> done[j] != done[k]
      {
        if some[i] !in done && (some[i] in downloads || some[i] in cpu || some[i] in preprocessing) {
          done := done + [some[i]];
        }
      }
      if done == [] {
        var f: Future :| f in downloads.Keys + cpu.Keys + preprocessing.Keys;
        done := [f];
      }
    }

    /** The ready batches ran: the ripe models' items are gone, and at most one batch of head tasks. */
    ghost predicate BatchesRan(a: State, b: State, flush: bool) {
      && b.readyEmbeddings == LeftOver(a.readyEmbeddings, Ripe(a.readyEmbeddings, flush))
      && b.readyHeads == HeadsLeft(a.readyHeads, flush)
    }

    /** The claim of a turn: asked for exactly with a free place and no drain, and every task given is leased. */
    ghost predicate Claimed(turn: Turn) {
      && (turn.claimed == LeasedEach(turn.ready, turn.tasks)
          || (turn.tasks == [] && turn.claimed == Drained(turn.ready)))
      && turn.asked == (if turn.claimed.draining || Load(turn.ready) >= Capacity() then None
                        else Some(ClaimLimit(turn.ready)))
      && |turn.tasks| <= if turn.asked.Some? then turn.asked.value else 0
    }

    /**
     What a turn does that raises nothing: the ready batches run; more tasks are
     claimed; and then, if futures are pending, some of those are waited for and
     handled, if none is but tasks are ready, all embeddings and one batch of heads
     run, and if there is nothing at all, the loop ends in once mode.
     */
    ghost predicate Turned(a: State, turn: Turn, b: State, once: bool, finished: bool) {
      && BatchesRan(a, turn.ready, false) && Claimed(turn)
      && (NoFutures(turn.claimed) ==> turn.done == [])
      && (!NoFutures(turn.claimed) ==>
            && turn.done != [] && (forall f :: f in turn.done ==> Pending(turn.claimed, f) && !Pending(b, f)))
      && (NoFutures(turn.claimed) && !NothingReady(turn.claimed) ==> BatchesRan(turn.claimed, b, true))
      && (NoFutures(turn.claimed) && NothingReady(turn.claimed) ==> b == turn.claimed)
      && (finished <==> once && NoFutures(turn.claimed) && NothingReady(turn.claimed))
    }

    /** The first half of a turn: the ready batches run and more tasks are claimed. */
    method RunAndClaim(once: bool) returns (raised: Option<Exn>, ghost turn: Turn)
      requires Good(Now(), {}) && RowWise() && Load(Now()) <= Capacity()
      modifies this
      ensures Good(Now(), {}) && Grows(old(Now()), Now()) && Load(Now()) <= Capacity()
      ensures trace.handled == old(trace.handled) && turn.done == []
      ensures raised.None? ==> BatchesRan(old(Now()), turn.ready, false) && Claimed(turn) && turn.claimed == Now()
    {
      hide Good, Follows, Load, RowWise, Grows, BatchesRan, ClaimLimit;
      ghost var s := Now();
      turn := Turn(s, None, [], s, []);
      raised := ProcessBoth(false);
      if raised.Some? {
        return;
      }
      ghost var mid := Now();
      ghost var tasks, asked;
      raised, tasks, asked := ClaimMore();
      turn := Turn(mid, asked, tasks, Now(), []);
      FollowsGrows(mid, Now(), []);
      GrowsJoin(s, mid, Now());
      FollowsTook(mid, Now(), []);
      if raised.Some? && !once && raised.value != OtherError {
        raised := None;
      }
    }

    /**
     One turn of `_run_loop`; `finished` when the loop returns for lack of tasks.
     Exactly the first `n` of the futures waited for are handled, all of them unless
     something raised.
     */
    method Cycle(once: bool) returns (finished: bool, raised: Option<Exn>, ghost turn: Turn, ghost n: nat)
      requires Good(Now(), {}) && RowWise() && Load(Now()) <= Capacity()
      modifies this
      ensures Good(Now(), {}) && Grows(old(Now()), Now()) && Load(Now()) <= Capacity()
      ensures n <= |turn.done| && trace.handled == old(trace.handled) + turn.done[..n]
      ensures raised.None? ==> n == |turn.done| && Turned(old(Now()), turn, Now(), once, finished)
      ensures finished ==> raised.None? && once && NoFutures(Now()) && NothingReady(Now())
    {
      hide Good, Follows, Load, RowWise, Grows, BatchesRan, Claimed, Pending;
      ghost var s := Now();
      finished, n := false, 0;
      raised, turn := RunAndClaim(once);
      if raised.Some? {
        return;
      }
      if downloads == map[] && cpu == map[] && preprocessing == map[] {
        if readyEmbeddings == [] && readyHeads == [] {
          if once {
            finished := true;
          } else {
            raised := *;
          }
          return;
        }
        ghost var mid := Now();
        raised := ProcessBoth(true);
        GrowsJoin(s, mid, Now());
        return;
      }
      var done := Wait();
      turn := turn.(done := done);
      ghost var mid := Now();
      raised, n := HandleAll(done);
      FollowsGrows(mid, Now(), done[..n]);
      FollowsTook(mid, Now(), done[..n]);
      GrowsJoin(s, mid, Now());
      SameClaim(turn);
    }

    lemma {:induction false} SameClaim(turn: Turn)
      ensures Claimed(turn) <==> Claimed(turn.(done := []))
    {
      hide ClaimLimit, LeasedEach, Load;
    }

    /** Both kinds of ready batches. */
    method ProcessBoth(flush: bool) returns (raised: Option<Exn>)
      requires Good(Now(), {}) && RowWise()
      modifies this
      ensures Good(Now(), {}) && Grows(old(Now()), Now()) && Load(Now()) <= Load(old(Now()))
      ensures trace.handled == old(trace.handled)
      ensures raised.None? ==> BatchesRan(old(Now()), Now(), flush)
    {
      hide Good, Follows, Load, RowWise, Grows, Ripe, LeftOver, HeadsLeft;
      ghost var s := Now();
      ghost var gone;
      raised, gone := ProcessReadyEmbeddingBatches(flush, {});
      FollowsGrows(s, Now(), []);
      FollowsTook(s, Now(), []);
      if raised.None? {
        ghost var mid := Now();
        raised := ProcessReadyHeadBatches(flush, {});
        FollowsGrows(mid, Now(), []);
        FollowsTook(mid, Now(), []);
        GrowsJoin(s, mid, Now());
      }
    }

    /**
     `_run_loop` for at most this many turns, after which the stop signal has arrived;
     `submit` says whether the caller still submits. The loop ends because something
     raised, because the worker drains, or in once mode because there is nothing left.
     */
    method RunLoop(cycles: nat, once: bool) returns (submit: bool, raised: Option<Exn>)
      requires Good(Now(), {}) && RowWise() && Load(Now()) <= Capacity()
      modifies this
      ensures Good(Now(), {}) && Grows(old(Now()), Now()) && Load(Now()) <= Capacity()
      ensures forall f: Future :: f in old(trace.handled) ==> !Pending(Now(), f)
      ensures submit ==> raised.None? && draining
      ensures !submit && raised.None? ==> once && NoFutures(Now()) && NothingReady(Now())
    {
      hide Good, Follows, Load, RowWise, Grows, Pending, Turned;
      ghost var s := Now();
      submit, raised := true, None;
      FollowsSelf(s);
      FollowsGrows(s, s, []);
      NeverAgain(s, s, {});
      for i := 0 to cycles
        invariant Good(Now(), {}) && Grows(s, Now()) && Load(Now()) <= Capacity()
        invariant forall f: Future :: f in s.trace.handled ==> !Pending(Now(), f)
        invariant submit && raised.None?
      {
        ghost var mid := Now();
        Signal({});
        FollowsGrows(mid, Now(), []);
        GrowsJoin(s, mid, Now());
        NeverAgain(s, Now(), {});
        if draining {
          return;
        }
        mid := Now();
        var finished;
        ghost var turn, n;
        finished, raised, turn, n := Cycle(once);
        GrowsJoin(s, mid, Now());
        NeverAgain(s, Now(), {});
        if finished || raised.Some? {
          submit := false;
          return;
        }
      }
      ghost var mid := Now();
      DrainedGood(mid, {});
      draining := true;
      FollowsGrows(mid, Now(), []);
      GrowsJoin(s, mid, Now());
      NeverAgain(s, Now(), {});
    }

    /**
     `run`: the loop, the last submission, and the release of what is left. `last` is
     where the loop ended. A worker that drains submits everything that is buffered,
     so that every row ever produced was sent unless that raises; one that ends in
     once mode submits nothing more. The released leases are exactly those never
     acknowledged, and exactly those whose temporary file is still held; a released
     task has no row, or its row was sent and not answered, or it is still buffered,
     because something raised or because of once mode.
     */
    method Run(cycles: nat, once: bool)
      returns (released: set<TaskId>, raised: Option<Exn>, ghost finished: bool, ghost last: State)
      requires Good(Now(), {}) && RowWise() && Load(Now()) <= Capacity()
      modifies this
      ensures Good(Now(), {}) && Grows(old(Now()), Now()) && Load(Now()) <= Capacity()
      ensures released == leased - acknowledged == audioPaths.Keys
      ensures old(draining) ==> leased == old(leased)
      ensures Served(Now()) && forall f: Future :: f in old(trace.handled) ==> !Pending(Now(), f)
      ensures finished ==> raised.None? && once && NoFutures(Now()) && NothingReady(Now()) && Now() == last
      ensures !finished && raised.None? ==>
              && draining && results == features == heads == failures == []
              && multiset(trace.log) == trace.sent
              && exists answered :: answered <= BufferedIds(last) && Now() == Flushed(last, answered)
      ensures raised.Some? ==> Now() == last || Now() == HalfFlushed(last)
      ensures raised.None? ==> (multiset(trace.log) == trace.sent <==> !finished || Rows(Now()) == multiset{})
      ensures forall id :: id in released && HasRow(trace.log, id) ==>
                || id in trace.unanswered
                || (Buffered(Now(), id) && (raised.Some? || finished))
    {
      hide Follows, Load, RowWise, Books, OwnFutures, Served, Kinds, Conserved, Justified, Pending, Good, BufferedIds,
          HalfFlushed, HasRow, Buffered;
      ghost var s := Now();
      var submit;
      submit, raised := RunLoop(cycles, once);
      last, finished := Now(), !submit && raised.None?;
      if submit && raised.None? {
        ghost var answered;
        raised, answered := SubmitWorkerBuffers({});
        FollowsGrows(last, Now(), []);
        GrowsJoin(s, last, Now());
      }
      released := leased - acknowledged;
      FilesHeld(Now());
      NeverAgain(s, Now(), {});
      SentExactly(Now());
      forall id | id in released && HasRow(trace.log, id) ensures id in trace.unanswered || Buffered(Now(), id) {
        ProducedAndOpen(Now(), id);
      }
      NoneBuffered(Now());
    }
  }

  /** The state a turn claims in, what it asks for and gets, the state after that, and the futures it waits for. */
  datatype Turn = Turn(ready: State, asked: Option<int>, tasks: seq<Task>, claimed: State, done: seq<Future>)

  ghost predicate NoFutures(s: State) {
    s.downloads == map[] && s.cpu == map[] && s.preprocessing == map[]
  }

  ghost predicate NothingReady(s: State) {
    s.readyEmbeddings == [] && s.readyHeads == []
  }

  /** A task that was leased, downloaded and analyzed: nothing is in flight, and its row waits for a batch to fill. */
  function AfterAnalysis(task: Task, features: Row): State {
    Produced(TookFuture(SentToCpu(TookFuture(Leased(Start(), task), 0), task), 1), Analysis(task.id, features))
  }

  /** In once mode the loop ends there, and with a batch size above one the analysis is never submitted. */
  lemma {:induction false} OnceLeavesRow(task: Task, features: Row)
    ensures var s := AfterAnalysis(task, features);
            && NoFutures(s) && NothingReady(s) && !s.draining
            && s.trace.sent == multiset{} && Rows(s) == multiset(s.trace.log) == multiset{Analysis(task.id, features)}
            && task.id in s.leased - s.acknowledged
  {
    var o := Analysis(task.id, features);
    assert [] + [o] == [o];
  }

  lemma {:induction false} FollowsTook(a: State, b: State, taken: seq<Future>)
    requires Follows(a, b, taken)
    ensures b.trace.handled == a.trace.handled + taken
  {
  }

  /** Every row produced was sent exactly when none is buffered. */
  lemma {:induction false} SentExactly(s: State)
    requires Good(s, {})
    ensures multiset(s.trace.log) == s.trace.sent <==> Rows(s) == multiset{}
    ensures Served(s)
  {
    hide Books, OwnFutures, Served, Kinds, Justified;
    if multiset(s.trace.log) == s.trace.sent {
      assert s.trace.sent + Rows(s) - s.trace.sent == Rows(s);
    }
  }

  lemma {:induction false} NoneBuffered(s: State)
    ensures s.results == s.features == s.heads == s.failures == [] ==>
            Rows(s) == multiset{} && forall id :: !Buffered(s, id)
  {
  }

  /** A row for every item, in order: a failure, or with the fallback a vector. */
  ghost predicate Decides(rows: seq<Outcome>, items: seq<Item>, auto: bool) {
    && |rows| == |items|
    && forall i :: 0 <= i < |items| ==>
       rows[i].id == items[i].task.id && (rows[i].Failure? || (auto && rows[i].Vector?))
  }

  lemma {:induction false} NoTasks(tasks: seq<Task>)
    requires tasks == []
    ensures TaskIds(tasks) == {}
  {
  }

  /** `model_name`: the string the source keys models by. */
  function NameOf(m: Model): string {
    match m
    case Features => "audio-features"
    case Heads => "discogs-effnet-heads"
    case Embedding(name) => name
  }

  /** The models of the items in order of first appearance. */
  function ModelsOf(items: seq<Item>): (models: seq<Model>)
    ensures forall item :: item in items ==> item.task.model in models
    ensures forall i, j :: 0 <= i < j < |models| ==> models[i] != models[j]
  {
    if items == [] then []
    else
      var front, m := ModelsOf(items[..|items| - 1]), items[|items| - 1].task.model;
      assert items == items[..|items| - 1] + [items[|items| - 1]];
      if m in front then front else front + [m]
  }

  function PatchCount(items: seq<Item>): nat {
    if items == [] then 0 else PatchCount(items[..|items| - 1]) + |items[|items| - 1].patches|
  }

  /** The patches of the items of a model. */
  ghost function PatchesOf(items: seq<Item>, m: Model): nat {
    if items == [] then 0
    else
      var last := items[|items| - 1];
      PatchesOf(items[..|items| - 1], m) + if last.task.model == m then |last.patches| else 0
  }

  lemma {:induction false} PatchesAre(items: seq<Item>, m: Model)
    ensures PatchCount(OfModel(items, m)) == PatchesOf(items, m)
  {
    if items != [] {
      var front, last := items[..|items| - 1], items[|items| - 1];
      PatchesAre(front, m);
      assert OfModel(front, m) + [] == OfModel(front, m);
      assert (OfModel(front, m) + [last])[..|OfModel(front, m)|] == OfModel(front, m);
    }
  }

  /** Exactly the models of the items. */
  lemma {:induction false} ModelsAre(items: seq<Item>, m: Model)
    ensures m in ModelsOf(items) <==> exists i :: 0 <= i < |items| && items[i].task.model == m
  {
    if items != [] {
      var front := items[..|items| - 1];
      ModelsAre(front, m);
      assert forall i :: 0 <= i < |front| ==> front[i] == items[i];
    }
  }

  /** The items whose model is not among those that ran, in order. */
  function LeftOver(items: seq<Item>, gone: set<Model>): seq<Item> {
    if items == [] then []
    else
      LeftOver(items[..|items| - 1], gone) + if items[|items| - 1].task.model in gone then [] else [items[|items| - 1]]
  }

  lemma {:induction false} AllLeft(items: seq<Item>)
    ensures LeftOver(items, {}) == items
  {
    if items != [] {
      AllLeft(items[..|items| - 1]);
    }
  }

  lemma {:induction false} NoneLeft(items: seq<Item>, gone: set<Model>)
    requires forall item :: item in items ==> item.task.model in gone
    ensures LeftOver(items, gone) == []
  {
    if items != [] {
      assert items[|items| - 1] in items;
      NoneLeft(items[..|items| - 1], gone);
    }
  }

  lemma {:induction false} FilterJoin(a: seq<Item>, b: seq<Item>, m: Model)
    requires |b| <= 1
    ensures OfModel(a + b, m) == OfModel(a, m) + OfModel(b, m)
    ensures OfOthers(a + b, m) == OfOthers(a, m) + OfOthers(b, m)
  {
    if b == [] {
      assert a + b == a;
    } else {
      assert (a + b)[..|a + b| - 1] == a && b[..0] == [];
    }
  }

  /** A model that did not run still has all its items; taking it off leaves over one model less. */
  lemma {:induction false} StillThere(items: seq<Item>, gone: set<Model>, m: Model)
    requires m !in gone
    ensures OfModel(LeftOver(items, gone), m) == OfModel(items, m)
    ensures OfOthers(LeftOver(items, gone), m) == LeftOver(items, gone + {m})
  {
    if items != [] {
      var front, last := items[..|items| - 1], items[|items| - 1];
      StillThere(front, gone, m);
      FilterJoin(LeftOver(front, gone), if last.task.model in gone then [] else [last], m);
      assert [last][..0] == [];
    }
  }

  lemma {:induction false} FilesHeld(s: State)
    requires Good(s, {})
    ensures s.audioPaths.Keys == s.leased - s.acknowledged
  {
  }

  /** A future that was handed out before is pending afterwards exactly if it was and is not the one taken. */
  lemma {:induction false} StillPending(a: State, b: State, f: Future, g: Future, hand: set<TaskId>)
    requires Good(a, hand) && Good(b, hand) && Follows(a, b, [f]) && g < a.nextFuture
    ensures g < b.nextFuture && (g != f ==> (Pending(b, g) <==> Pending(a, g)))
  {
    hide Books, OwnFutures, Kinds, Conserved, Justified;
    if g == f {
    } else if Pending(a, g) {
      assert Pending(b, g);
    } else {
      assert g in a.trace.handled;
      assert g in b.trace.handled;
    }
  }

  lemma {:induction false} HandedOut(s: State, f: Future)
    requires Good(s, {}) && Pending(s, f)
    ensures f < s.nextFuture
  {
    hide Books, OwnFutures, Kinds, Conserved, Justified, Pending;
  }

  /** A future is in one map only, so its task is what that map says. */
  lemma {:induction false} TaskIs(s: State, f: Future)
    requires Good(s, {}) && Pending(s, f)
    ensures f in s.downloads ==> TaskOf(s, f) == s.downloads[f]
    ensures f in s.cpu ==> TaskOf(s, f) == s.cpu[f]
    ensures f in s.preprocessing ==> TaskOf(s, f) == s.preprocessing[f]
  {
    hide Books, Served, Kinds, Conserved, Justified;
  }

  /** A future that was taken is in no map. */
  lemma {:induction false} Finished(a: State, b: State, f: Future)
    requires Good(b, {}) && Follows(a, b, [f])
    ensures !Pending(b, f)
  {
    hide Books, OwnFutures, Kinds, Conserved, Justified, Pending;
    assert f == b.trace.handled[|a.trace.handled|];
  }

  /** The row was the last one to be produced. */
  ghost predicate EndsWith(a: State, b: State, row: Outcome) {
    |a.trace.log| < |b.trace.log| && b.trace.log[|b.trace.log| - 1] == row
  }

  lemma {:induction false} SubsetIds(active: seq<Item>, items: seq<Item>)
    requires forall item :: item in active ==> item in items
    ensures ItemIds(active) <= ItemIds(items)
  {
    forall i | 0 <= i < |active| ensures active[i].task.id in ItemIds(items) {
      assert active[i] in active;
      var k :| 0 <= k < |items| && items[k] == active[i];
    }
  }

  predicate Unacknowledged(tasks: seq<Task>, acknowledged: set<TaskId>) {
    forall i :: 0 <= i < |tasks| ==> tasks[i].id !in acknowledged
  }

  lemma {:induction false} NoItems(items: seq<Item>)
    requires items == []
    ensures ItemIds(items) == {}
  {
  }
}
