/**
 * The operation factory's rules, stated on plain values: which requests the
 * load phase queues and which errors it records, and what running the queue
 * does to the result buckets, the error list and the collaborators.
 * Factory.OperationFactory implements these rules on its fields.
 */
module Operations {
  import opened Wrappers
  import opened Results
  import MethodNames

  /** One request, or the data queued for a handler: a PHP array from key to string value. */
  type Payload = map<string, string>

  const TYPE_KEY: string := "operation_type"
  const ACTION_KEY: string := "operation_action"

  /** What a concrete operation family declares: `getName`, `getOperationTypes`, `getOperationActions`. */
  datatype Vocabulary = Vocabulary(name: string, types: seq<string>, actions: seq<string>)

  /** An entry of the queue, `compact('method', 'data')`. */
  datatype QueuedOperation = QueuedOperation(methodName: string, data: Payload)

  /** What a handler does: record its bucket writes and return, or throw with a message. */
  datatype HandlerOutcome = Returned(writes: seq<Bucket>) | Threw(message: string)

  /** A handler method: it receives the queued data and the dry-run flag (which it may consult through `isDryRun`). */
  type Handler = (Payload, bool) -> HandlerOutcome

  /** `OperationException`: the failing handler's name, its data and the message of what it threw. */
  datatype OperationException = OperationException(methodName: string, data: Payload, message: string)

  /** A call the factory makes into code outside it: a handler, or the cache flush. */
  datatype Call = Invoked(methodName: string) | Flushed

  /**
   * The collaborators of one factory: its handler methods by name, the cache
   * flush (`flush(i)` is `None` when the flush after queue entry `i`
   * returns, `Some(message)` when it throws) and the dry-run flag.
   */
  datatype Context = Context(handlers: map<string, Handler>, flush: nat -> Option<string>, dryRun: bool)

  /** The value `execute` returns on completion: the buckets united with `['errors' => ...]`. */
  datatype Response = Response(results: seq<Bucket>, errors: seq<string>)

  // ---------------------------------------------------------------------------
  // Load phase: `_loadOperationsData`, `_validateOperationData`, `_validateOperation`.

  /** A request value as it is printed into an error; an unset key prints as the empty string. */
  function Shown(request: Payload, key: string): string {
    if key in request then request[key] else ""
  }

  predicate TypeValid(vocabulary: Vocabulary, request: Payload) {
    TYPE_KEY in request && request[TYPE_KEY] in vocabulary.types
  }

  predicate ActionValid(vocabulary: Vocabulary, request: Payload) {
    ACTION_KEY in request && request[ACTION_KEY] in vocabulary.actions
  }

  function TypeError(value: string): string {
    "Invalid operation-type: " + value
  }

  function ActionError(value: string): string {
    "Invalid operation-action: " + value
  }

  /** The errors `_validateOperationData` records for one request: the type check, then the action check. */
  function ValidationErrors(vocabulary: Vocabulary, request: Payload): seq<string> {
    (if TypeValid(vocabulary, request) then [] else [TypeError(Shown(request, TYPE_KEY))])
    + (if ActionValid(vocabulary, request) then [] else [ActionError(Shown(request, ACTION_KEY))])
  }

  /** The handler name derived from a request's type and action. */
  function HandlerName(request: Payload): string
    requires TYPE_KEY in request && ACTION_KEY in request
  {
    MethodNames.MethodName(request[TYPE_KEY], request[ACTION_KEY])
  }

  /** `_validateOperationData`'s verdict: type and action in the vocabulary, and a handler under the derived name. */
  predicate Accepted(vocabulary: Vocabulary, handlers: map<string, Handler>, request: Payload) {
    TypeValid(vocabulary, request) && ActionValid(vocabulary, request) && HandlerName(request) in handlers
  }

  /** The queue entry for an accepted request: the derived name, and the data without the two routing keys. */
  function Resolve(request: Payload): QueuedOperation
    requires TYPE_KEY in request && ACTION_KEY in request
  {
    QueuedOperation(HandlerName(request), request - {TYPE_KEY, ACTION_KEY})
  }

  /** Every queued entry names an existing handler. */
  predicate Resolved(handlers: map<string, Handler>, queue: seq<QueuedOperation>) {
    forall j :: 0 <= j < |queue| ==> queue[j].methodName in handlers
  }

  lemma ResolvedAppend(handlers: map<string, Handler>, a: seq<QueuedOperation>, b: seq<QueuedOperation>)
    requires Resolved(handlers, a) && Resolved(handlers, b)
    ensures Resolved(handlers, a + b)
  {
    forall j | 0 <= j < |a + b| ensures (a + b)[j].methodName in handlers {
      if j >= |a| { assert (a + b)[j] == b[j - |a|]; }
    }
  }

  /** No queued entry still carries a routing key. */
  predicate Stripped(queue: seq<QueuedOperation>) {
    forall j :: 0 <= j < |queue| ==> TYPE_KEY !in queue[j].data && ACTION_KEY !in queue[j].data
  }

  /** What the load phase adds to the queue and to the error list. */
  datatype Loaded = Loaded(queue: seq<QueuedOperation>, errors: seq<string>)

  /** One load result followed by another: the queue entries and the errors of both, in order. */
  function Then(x: Loaded, y: Loaded): Loaded {
    Loaded(x.queue + y.queue, x.errors + y.errors)
  }

  lemma ThenAssoc(x: Loaded, y: Loaded, z: Loaded)
    ensures Then(Then(x, y), z) == Then(x, Then(y, z))
  {
    assert x.queue + y.queue + z.queue == x.queue + (y.queue + z.queue);
    assert x.errors + y.errors + z.errors == x.errors + (y.errors + z.errors);
  }

  function LoadOne(vocabulary: Vocabulary, handlers: map<string, Handler>, request: Payload): Loaded {
    Loaded(if Accepted(vocabulary, handlers, request) then [Resolve(request)] else [],
           ValidationErrors(vocabulary, request))
  }

  /** `_loadOperationsData` over `requests`, one request after the other. */
  function Load(vocabulary: Vocabulary, handlers: map<string, Handler>, requests: seq<Payload>): (r: Loaded)
    ensures Resolved(handlers, r.queue) && Stripped(r.queue)
    decreases |requests|
  {
    if requests == [] then Loaded([], [])
    else
      Then(Load(vocabulary, handlers, requests[..|requests| - 1]), LoadOne(vocabulary, handlers, requests[|requests| - 1]))
  }

  /** Number of accepted requests. */
  function AcceptedCount(vocabulary: Vocabulary, handlers: map<string, Handler>, requests: seq<Payload>): nat
    decreases |requests|
  {
    if requests == [] then 0
    else AcceptedCount(vocabulary, handlers, requests[..|requests| - 1])
         + (if Accepted(vocabulary, handlers, requests[|requests| - 1]) then 1 else 0)
  }

  /**
   * The verdict and the errors for one request: one error per failed check,
   * none for a request whose vocabulary is right, and silence when only the
   * handler is missing.
   */
  lemma ValidationCases(vocabulary: Vocabulary, handlers: map<string, Handler>, request: Payload)
    ensures Accepted(vocabulary, handlers, request) <==>
      TYPE_KEY in request && request[TYPE_KEY] in vocabulary.types &&
      ACTION_KEY in request && request[ACTION_KEY] in vocabulary.actions &&
      MethodNames.MethodName(request[TYPE_KEY], request[ACTION_KEY]) in handlers
    ensures TypeValid(vocabulary, request) && ActionValid(vocabulary, request) ==>
      ValidationErrors(vocabulary, request) == []
    ensures !TypeValid(vocabulary, request) && ActionValid(vocabulary, request) ==>
      ValidationErrors(vocabulary, request) == ["Invalid operation-type: " + Shown(request, TYPE_KEY)]
    ensures TypeValid(vocabulary, request) && !ActionValid(vocabulary, request) ==>
      ValidationErrors(vocabulary, request) == ["Invalid operation-action: " + Shown(request, ACTION_KEY)]
    ensures !TypeValid(vocabulary, request) && !ActionValid(vocabulary, request) ==>
      ValidationErrors(vocabulary, request) ==
        ["Invalid operation-type: " + Shown(request, TYPE_KEY), "Invalid operation-action: " + Shown(request, ACTION_KEY)]
  {
  }

  lemma LoadSnoc(vocabulary: Vocabulary, handlers: map<string, Handler>, requests: seq<Payload>, request: Payload)
    ensures Load(vocabulary, handlers, requests + [request]) ==
      Then(Load(vocabulary, handlers, requests), LoadOne(vocabulary, handlers, request))
  {
    assert (requests + [request])[..|requests|] == requests;
  }

  /** One more request of a batch: what `_loadOperationsData` has after the request at index `k`. */
  lemma LoadStep(vocabulary: Vocabulary, handlers: map<string, Handler>, requests: seq<Payload>, k: nat)
    requires k < |requests|
    ensures Load(vocabulary, handlers, requests[..k + 1]) ==
      Then(Load(vocabulary, handlers, requests[..k]), LoadOne(vocabulary, handlers, requests[k]))
  {
    assert requests[..k + 1] == requests[..k] + [requests[k]];
    LoadSnoc(vocabulary, handlers, requests[..k], requests[k]);
  }

  /** A batch loads as its parts do, one after the other: no rejection stops later requests from loading. */
  lemma {:induction false} LoadAppend(vocabulary: Vocabulary, handlers: map<string, Handler>, a: seq<Payload>, b: seq<Payload>)
    ensures Load(vocabulary, handlers, a + b) == Then(Load(vocabulary, handlers, a), Load(vocabulary, handlers, b))
    decreases |b|
  {
    if b == [] {
      assert a + b == a;
    } else {
      var init := b[..|b| - 1];
      LoadAppend(vocabulary, handlers, a, init);
      assert b == init + [b[|b| - 1]];
      LoadAppendStep(vocabulary, handlers, a, init, b[|b| - 1]);
    }
  }

  /** The step of `LoadAppend`: one more request behind `b`. */
  lemma LoadAppendStep(vocabulary: Vocabulary, handlers: map<string, Handler>, a: seq<Payload>, b: seq<Payload>, last: Payload)
    requires Load(vocabulary, handlers, a + b) == Then(Load(vocabulary, handlers, a), Load(vocabulary, handlers, b))
    ensures Load(vocabulary, handlers, a + (b + [last])) == Then(Load(vocabulary, handlers, a), Load(vocabulary, handlers, b + [last]))
  {
    assert a + (b + [last]) == (a + b) + [last];
    LoadSnoc(vocabulary, handlers, a + b, last);
    LoadSnoc(vocabulary, handlers, b, last);
    ThenAssoc(Load(vocabulary, handlers, a), Load(vocabulary, handlers, b), LoadOne(vocabulary, handlers, last));
  }

  /**
   * The queue holds exactly the accepted requests, resolved, in submission
   * order: the accepted request at index `k` becomes entry number
   * `AcceptedCount(requests[..k])`.
   */
  lemma {:induction false} LoadQueueOrder(vocabulary: Vocabulary, handlers: map<string, Handler>, requests: seq<Payload>)
    ensures |Load(vocabulary, handlers, requests).queue| == AcceptedCount(vocabulary, handlers, requests)
    ensures forall k :: 0 <= k < |requests| && Accepted(vocabulary, handlers, requests[k]) ==>
      AcceptedCount(vocabulary, handlers, requests[..k]) < |Load(vocabulary, handlers, requests).queue| &&
      Load(vocabulary, handlers, requests).queue[AcceptedCount(vocabulary, handlers, requests[..k])] == Resolve(requests[k])
    decreases |requests|
  {
    if requests != [] {
      var n := |requests| - 1;
      var init := requests[..n];
      LoadQueueOrder(vocabulary, handlers, init);
      forall k | 0 <= k < |requests| && Accepted(vocabulary, handlers, requests[k])
        ensures AcceptedCount(vocabulary, handlers, requests[..k]) < |Load(vocabulary, handlers, requests).queue|
        ensures Load(vocabulary, handlers, requests).queue[AcceptedCount(vocabulary, handlers, requests[..k])] == Resolve(requests[k])
      {
        if k < n {
          assert requests[..k] == init[..k];
          assert init[k] == requests[k];
        } else {
          assert requests[..k] == init;
        }
      }
    }
  }

  /** A family without handler methods queues nothing, whatever it is sent. */
  lemma {:induction false} LoadWithoutHandlers(vocabulary: Vocabulary, requests: seq<Payload>)
    ensures Load(vocabulary, map[], requests).queue == []
    decreases |requests|
  {
    if requests != [] {
      LoadWithoutHandlers(vocabulary, requests[..|requests| - 1]);
    }
  }

  // ---------------------------------------------------------------------------
  // Execute phase: `execute`.

  /** What the handler of a queued entry does. */
  function OutcomeOf(ctx: Context, entry: QueuedOperation): HandlerOutcome
    requires entry.methodName in ctx.handlers
  {
    ctx.handlers[entry.methodName](entry.data, ctx.dryRun)
  }

  /** Entry `j` fails: its handler throws, or the cache flush after it throws. */
  predicate Fails(ctx: Context, queue: seq<QueuedOperation>, j: nat)
    requires j < |queue| && queue[j].methodName in ctx.handlers
  {
    OutcomeOf(ctx, queue[j]).Threw? || ctx.flush(j).Some?
  }

  /** The exception a failing entry turns into. */
  function FailureAt(ctx: Context, queue: seq<QueuedOperation>, j: nat): OperationException
    requires j < |queue| && queue[j].methodName in ctx.handlers && Fails(ctx, queue, j)
  {
    var entry := queue[j];
    match OutcomeOf(ctx, entry)
    case Threw(message) => OperationException(entry.methodName, entry.data, message)
    case Returned(_) => OperationException(entry.methodName, entry.data, ctx.flush(j).value)
  }

  /** The error line `execute` records for an exception. */
  function ErrorLine(e: OperationException): string {
    "Operation: " + e.methodName + ": " + e.message
  }

  /** The state a run leaves behind, and the exception that stopped it, if any. */
  datatype RunResult = RunResult(results: seq<Bucket>, calls: seq<Call>, failure: Option<OperationException>)

  /** The `foreach` of `execute` from entry `i` on. */
  function RunFrom(ctx: Context, queue: seq<QueuedOperation>, i: nat, results: seq<Bucket>, calls: seq<Call>): RunResult
    requires i <= |queue| && Resolved(ctx.handlers, queue)
    decreases |queue| - i
  {
    if i == |queue| then RunResult(results, calls, None)
    else
      var entry := queue[i];
      var invoked := calls + [Invoked(entry.methodName)];
      match OutcomeOf(ctx, entry)
      case Threw(message) => RunResult(results, invoked, Some(OperationException(entry.methodName, entry.data, message)))
      case Returned(writes) =>
        var written := ApplyWrites(results, writes);
        var flushed := invoked + [Flushed];
        match ctx.flush(i)
        case Some(message) => RunResult(written, flushed, Some(OperationException(entry.methodName, entry.data, message)))
        case None => RunFrom(ctx, queue, i + 1, written, flushed)
  }

  /** What `execute` leaves in the factory, and what it returns. */
  datatype Executed = Executed(results: seq<Bucket>, errors: seq<string>, calls: seq<Call>, response: Option<Response>)

  /** `execute`: run the queue when `canExecute`, return the buckets and errors, or record the failure and return nothing. */
  function ExecuteBatch(ctx: Context, queue: seq<QueuedOperation>, results: seq<Bucket>, errors: seq<string>, calls: seq<Call>): Executed
    requires Resolved(ctx.handlers, queue)
  {
    var run := if |queue| > 0 then RunFrom(ctx, queue, 0, results, calls) else RunResult(results, calls, None);
    match run.failure
    case None => Executed(run.results, errors, run.calls, Some(Response(run.results, errors)))
    case Some(e) => Executed(run.results, errors + [ErrorLine(e)], run.calls, None)
  }

  /** A run never makes a bucket key appear twice. */
  lemma {:induction false} RunKeepsKeysUnique(ctx: Context, queue: seq<QueuedOperation>, i: nat, results: seq<Bucket>, calls: seq<Call>)
    requires i <= |queue| && Resolved(ctx.handlers, queue) && UniqueKeys(results)
    ensures UniqueKeys(RunFrom(ctx, queue, i, results, calls).results)
    decreases |queue| - i
  {
    if i < |queue| && OutcomeOf(ctx, queue[i]).Returned? {
      var written := ApplyWrites(results, OutcomeOf(ctx, queue[i]).writes);
      ApplyWritesKeepsKeysUnique(results, OutcomeOf(ctx, queue[i]).writes);
      if ctx.flush(i).None? {
        RunKeepsKeysUnique(ctx, queue, i + 1, written, calls + [Invoked(queue[i].methodName)] + [Flushed]);
      }
    }
  }

  /** `execute` leaves the buckets a PHP array: no key twice. */
  lemma ExecuteKeepsKeysUnique(ctx: Context, queue: seq<QueuedOperation>, results: seq<Bucket>, errors: seq<string>, calls: seq<Call>)
    requires Resolved(ctx.handlers, queue) && UniqueKeys(results)
    ensures UniqueKeys(ExecuteBatch(ctx, queue, results, errors, calls).results)
  {
    if |queue| > 0 {
      RunKeepsKeysUnique(ctx, queue, 0, results, calls);
    }
  }

  /** The calls entries `i` to `j - 1` make when each of them succeeds: the handler, then the flush. */
  function SuccessLog(queue: seq<QueuedOperation>, i: nat, j: nat): seq<Call>
    requires i <= j <= |queue|
    decreases j - i
  {
    if i == j then [] else [Invoked(queue[i].methodName), Flushed] + SuccessLog(queue, i + 1, j)
  }

  /** The buckets after the handlers of entries `i` to `j - 1` have recorded their writes. */
  function WrittenFrom(ctx: Context, queue: seq<QueuedOperation>, i: nat, j: nat, results: seq<Bucket>): seq<Bucket>
    requires i <= j <= |queue| && Resolved(ctx.handlers, queue)
    decreases j - i
  {
    if i == j then results
    else
      var outcome := OutcomeOf(ctx, queue[i]);
      WrittenFrom(ctx, queue, i + 1, j, if outcome.Returned? then ApplyWrites(results, outcome.writes) else results)
  }

  /** When no entry from `i` on fails, every handler runs once, in order, each followed by one flush. */
  lemma {:induction false} RunCompletes(ctx: Context, queue: seq<QueuedOperation>, i: nat, results: seq<Bucket>, calls: seq<Call>)
    requires i <= |queue| && Resolved(ctx.handlers, queue)
    requires forall k :: i <= k < |queue| ==> !Fails(ctx, queue, k)
    ensures RunFrom(ctx, queue, i, results, calls) ==
      RunResult(WrittenFrom(ctx, queue, i, |queue|, results), calls + SuccessLog(queue, i, |queue|), None)
    decreases |queue| - i
  {
    if i < |queue| {
      var entry := queue[i];
      assert !Fails(ctx, queue, i);
      var written := ApplyWrites(results, OutcomeOf(ctx, entry).writes);
      var flushed := calls + [Invoked(entry.methodName)] + [Flushed];
      RunCompletes(ctx, queue, i + 1, written, flushed);
      assert flushed + SuccessLog(queue, i + 1, |queue|) == calls + SuccessLog(queue, i, |queue|);
    }
  }

  /**
   * When entry `j` is the first to fail, entries before it ran and flushed,
   * entry `j`'s handler ran (and its flush, if the handler returned), no
   * later handler ran, and the exception names entry `j`.
   */
  lemma {:induction false} RunFailsFast(ctx: Context, queue: seq<QueuedOperation>, i: nat, j: nat, results: seq<Bucket>, calls: seq<Call>)
    requires i <= j < |queue| && Resolved(ctx.handlers, queue)
    requires forall k :: i <= k < j ==> !Fails(ctx, queue, k)
    requires Fails(ctx, queue, j)
    ensures var before := WrittenFrom(ctx, queue, i, j, results);
            var outcome := OutcomeOf(ctx, queue[j]);
      RunFrom(ctx, queue, i, results, calls) ==
        RunResult(if outcome.Returned? then ApplyWrites(before, outcome.writes) else before,
                  calls + SuccessLog(queue, i, j) + [Invoked(queue[j].methodName)] + (if outcome.Returned? then [Flushed] else []),
                  Some(FailureAt(ctx, queue, j)))
    decreases j - i
  {
    if i < j {
      var entry := queue[i];
      assert !Fails(ctx, queue, i);
      var written := ApplyWrites(results, OutcomeOf(ctx, entry).writes);
      var flushed := calls + [Invoked(entry.methodName)] + [Flushed];
      RunFailsFast(ctx, queue, i + 1, j, written, flushed);
      assert flushed + SuccessLog(queue, i + 1, j) == calls + SuccessLog(queue, i, j);
    }
  }

  /** A run stops with an exception exactly when some entry from `i` on fails. */
  lemma {:induction false} RunFailsIff(ctx: Context, queue: seq<QueuedOperation>, i: nat, results: seq<Bucket>, calls: seq<Call>)
    requires i <= |queue| && Resolved(ctx.handlers, queue)
    ensures RunFrom(ctx, queue, i, results, calls).failure.Some? <==> exists k :: i <= k < |queue| && Fails(ctx, queue, k)
    decreases |queue| - i
  {
    if i < |queue| && !Fails(ctx, queue, i) {
      var written := ApplyWrites(results, OutcomeOf(ctx, queue[i]).writes);
      RunFailsIff(ctx, queue, i + 1, written, calls + [Invoked(queue[i].methodName)] + [Flushed]);
      if exists k :: i <= k < |queue| && Fails(ctx, queue, k) {
        var k :| i <= k < |queue| && Fails(ctx, queue, k);
        assert k != i;
      }
    }
  }

  /** An empty queue calls nothing and returns the buckets and errors as they are. */
  lemma ExecuteEmptyQueue(ctx: Context, results: seq<Bucket>, errors: seq<string>, calls: seq<Call>)
    ensures ExecuteBatch(ctx, [], results, errors, calls) == Executed(results, errors, calls, Some(Response(results, errors)))
  {
  }

  /** On the all-success path `execute` returns the buckets every handler wrote and the errors unchanged. */
  lemma ExecuteSucceeds(ctx: Context, queue: seq<QueuedOperation>, results: seq<Bucket>, errors: seq<string>, calls: seq<Call>)
    requires Resolved(ctx.handlers, queue)
    requires forall k :: 0 <= k < |queue| ==> !Fails(ctx, queue, k)
    ensures var written := WrittenFrom(ctx, queue, 0, |queue|, results);
      ExecuteBatch(ctx, queue, results, errors, calls) ==
        Executed(written, errors, calls + SuccessLog(queue, 0, |queue|), Some(Response(written, errors)))
  {
    RunCompletes(ctx, queue, 0, results, calls);
  }

  /**
   * When entry `j` is the first to fail, `execute` returns nothing, records
   * exactly one error naming entry `j`'s handler and message, and keeps the
   * buckets written before it.
   */
  lemma ExecuteFailsFast(ctx: Context, queue: seq<QueuedOperation>, j: nat, results: seq<Bucket>, errors: seq<string>, calls: seq<Call>)
    requires j < |queue| && Resolved(ctx.handlers, queue)
    requires forall k :: 0 <= k < j ==> !Fails(ctx, queue, k)
    requires Fails(ctx, queue, j)
    ensures var x := ExecuteBatch(ctx, queue, results, errors, calls);
            var outcome := OutcomeOf(ctx, queue[j]);
            var message := if outcome.Threw? then outcome.message else ctx.flush(j).value;
      && x.response == None
      && x.errors == errors + ["Operation: " + queue[j].methodName + ": " + message]
      && x.calls == calls + SuccessLog(queue, 0, j) + [Invoked(queue[j].methodName)] + (if outcome.Returned? then [Flushed] else [])
      && x.results == (if outcome.Returned? then ApplyWrites(WrittenFrom(ctx, queue, 0, j, results), outcome.writes)
                       else WrittenFrom(ctx, queue, 0, j, results))
  {
    RunFailsFast(ctx, queue, 0, j, results, calls);
  }

  /**
   * The dry-run flag steers nothing in the dispatch itself: two contexts whose
   * handlers behave alike on the queue and whose flush is the same run alike.
   */
  lemma {:induction false} RunIgnoresDryRun(ctx1: Context, ctx2: Context, queue: seq<QueuedOperation>, i: nat, results: seq<Bucket>, calls: seq<Call>)
    requires i <= |queue| && Resolved(ctx1.handlers, queue) && Resolved(ctx2.handlers, queue)
    requires ctx1.flush == ctx2.flush
    requires forall k :: i <= k < |queue| ==> OutcomeOf(ctx1, queue[k]) == OutcomeOf(ctx2, queue[k])
    ensures RunFrom(ctx1, queue, i, results, calls) == RunFrom(ctx2, queue, i, results, calls)
    decreases |queue| - i
  {
    if i < |queue| && OutcomeOf(ctx1, queue[i]).Returned? {
      var written := ApplyWrites(results, OutcomeOf(ctx1, queue[i]).writes);
      RunIgnoresDryRun(ctx1, ctx2, queue, i + 1, written, calls + [Invoked(queue[i].methodName)] + [Flushed]);
    }
  }
}
