/**
 * `Operations\Enrollment`: the one concrete operation family. It declares
 * one type and four actions, and no handler methods.
 */
module Enrollment {
  import opened Wrappers
  import opened Results
  import opened Operations
  import MethodNames
  import Factory

  const OPERATION_TYPE_ENROLLMENT: string := "enrollment"

  const OPERATION_ACTION_CREATE: string := "create"
  const OPERATION_ACTION_DELETE: string := "delete"
  const OPERATION_ACTION_TRANSITION: string := "transition"
  const OPERATION_ACTION_UPDATE: string := "update"

  function Name(): string {
    "enrollment"
  }

  function OperationActions(): seq<string> {
    [OPERATION_ACTION_CREATE, OPERATION_ACTION_DELETE, OPERATION_ACTION_TRANSITION, OPERATION_ACTION_UPDATE]
  }

  function OperationTypes(): seq<string> {
    [OPERATION_TYPE_ENROLLMENT]
  }

  function Family(): Vocabulary {
    Vocabulary(Name(), OperationTypes(), OperationActions())
  }

  /** The class declares no `operation...` method, so nothing can be dispatched to it. */
  function Handlers(): map<string, Handler> {
    map[]
  }

  /** `new Enrollment($operations_data, $execute, $dry_run)`. */
  method New(operationsData: seq<Payload>, execute: bool, dryRun: bool, cacheFlush: nat -> Option<string>)
    returns (factory: Factory.OperationFactory)
    ensures factory.vocabulary == Family() && factory.handlers == Handlers() && factory.dryRun == dryRun
    ensures factory.operations == [] && factory.operationsResults == [] && factory.calls == []
    ensures factory.errors == Load(Family(), Handlers(), operationsData).errors
  {
    factory := new Factory.OperationFactory(Family(), Handlers(), cacheFlush, operationsData, execute, dryRun);
    LoadWithoutHandlers(Family(), operationsData);
  }

  /** The family's declarations. */
  lemma Declarations()
    ensures Name() == "enrollment"
    ensures OperationTypes() == ["enrollment"]
    ensures OperationActions() == ["create", "delete", "transition", "update"]
  {
  }

  /** The handler the pair ("enrollment", "create") is dispatched to. */
  lemma CreateHandlerName()
    ensures MethodNames.MethodName(OPERATION_TYPE_ENROLLMENT, OPERATION_ACTION_CREATE) == "operationEnrollmentCreate"
  {
    WordName(OPERATION_TYPE_ENROLLMENT, OPERATION_ACTION_CREATE, "Enrollment", "Create");
  }

  /** The handler the pair ("enrollment", "delete") is dispatched to. */
  lemma DeleteHandlerName()
    ensures MethodNames.MethodName(OPERATION_TYPE_ENROLLMENT, OPERATION_ACTION_DELETE) == "operationEnrollmentDelete"
  {
    WordName(OPERATION_TYPE_ENROLLMENT, OPERATION_ACTION_DELETE, "Enrollment", "Delete");
  }

  /** The derivation does not fold case: an upper-cased type yields another name than the declared one. */
  lemma UpperCaseTypeName()
    ensures MethodNames.MethodName("ENROLLMENT", OPERATION_ACTION_CREATE) != MethodNames.MethodName(OPERATION_TYPE_ENROLLMENT, OPERATION_ACTION_CREATE)
  {
    var upper: string := "ENROLLMENT";
    assert upper[1] == 'N' && !MethodNames.IsDelimiter(upper[0]);
    assert OPERATION_TYPE_ENROLLMENT[1] == 'n' && !MethodNames.IsDelimiter(OPERATION_TYPE_ENROLLMENT[0]);
    MethodNames.MethodNameKeepsCase(upper, OPERATION_ACTION_CREATE, 1);
    MethodNames.MethodNameKeepsCase(OPERATION_TYPE_ENROLLMENT, OPERATION_ACTION_CREATE, 1);
  }

  /** Each of the family's actions is dispatched to "operationEnrollment" followed by the capitalised action. */
  lemma ActionHandlerName(action: string)
    requires action in OperationActions()
    ensures MethodNames.MethodName(OPERATION_TYPE_ENROLLMENT, action)
         == "operationEnrollment" + [MethodNames.Upper(action[0])] + action[1..]
  {
    LowerCaseWord(action);
    LowerCaseWord(OPERATION_TYPE_ENROLLMENT);
    WordName(OPERATION_TYPE_ENROLLMENT, action, "Enrollment", [MethodNames.Upper(action[0])] + action[1..]);
  }

  /** The family's type and actions are plain lower-case words. */
  lemma LowerCaseWord(word: string)
    requires word in OperationActions() || word in OperationTypes()
    ensures |word| > 0 && forall i :: 0 <= i < |word| ==> 'a' <= word[i] <= 'z'
  {
  }

  /** The name of a (type, action) pair of plain lower-case words: their capitalised forms behind "operation". */
  lemma WordName(opType: string, action: string, typeWord: string, actionWord: string)
    requires |opType| > 0 && |action| > 0
    requires forall i :: 0 <= i < |opType| ==> 'a' <= opType[i] <= 'z'
    requires forall i :: 0 <= i < |action| ==> 'a' <= action[i] <= 'z'
    requires typeWord == [MethodNames.Upper(opType[0])] + opType[1..]
    requires actionWord == [MethodNames.Upper(action[0])] + action[1..]
    ensures MethodNames.MethodName(opType, action) == "operation" + typeWord + actionWord
  {
    MethodNames.MethodNameOfWords(opType, action);
    CapitalisedWord(opType);
    CapitalisedWord(action);
  }

  lemma CapitalisedWord(word: string)
    requires |word| > 0 && forall i :: 0 <= i < |word| ==> 'a' <= word[i] <= 'z'
    ensures MethodNames.Ucwords(word) == [MethodNames.Upper(word[0])] + word[1..]
  {
    var up := MethodNames.Ucwords(word);
    forall i | 0 <= i < |word| ensures up[i] == ([MethodNames.Upper(word[0])] + word[1..])[i] {
      if i > 0 { assert !MethodNames.IsDelimiter(word[i - 1]); }
    }
  }

  /** Every request sent to Enrollment is rejected or dropped: its queue stays empty. */
  lemma QueuesNothing(requests: seq<Payload>)
    ensures Load(Family(), Handlers(), requests).queue == []
  {
    LoadWithoutHandlers(Family(), requests);
  }

  /** With an empty queue `execute` calls neither a handler nor the flush and returns what is there. */
  lemma ExecuteIsNoOp(requests: seq<Payload>, cacheFlush: nat -> Option<string>, dryRun: bool,
                      results: seq<Bucket>, errors: seq<string>, calls: seq<Call>)
    ensures ExecuteBatch(Context(Handlers(), cacheFlush, dryRun), Load(Family(), Handlers(), requests).queue, results, errors, calls)
         == Executed(results, errors, calls, Some(Response(results, errors)))
  {
    QueuesNothing(requests);
  }

  /** A request of type "bogus" with a valid action queues nothing and records one type error. */
  lemma BogusType()
    ensures Load(Family(), Handlers(), [map[TYPE_KEY := "bogus", ACTION_KEY := "create"]])
         == Loaded([], ["Invalid operation-type: bogus"])
  {
    var request: Payload := map[TYPE_KEY := "bogus", ACTION_KEY := "create"];
    assert [request] == [] + [request];
    LoadSnoc(Family(), Handlers(), [], request);
    assert !TypeValid(Family(), request) by {
      assert OperationTypes() == ["enrollment"];
      assert request[TYPE_KEY] == "bogus";
    }
    assert ActionValid(Family(), request) by {
      assert request[ACTION_KEY] == "create" == OperationActions()[0];
    }
    assert ValidationErrors(Family(), request) == [TypeError("bogus")];
    assert TypeError("bogus") == "Invalid operation-type: bogus";
    assert !Accepted(Family(), Handlers(), request);
    assert LoadOne(Family(), Handlers(), request) == Loaded([], ["Invalid operation-type: bogus"]);
    assert Load(Family(), Handlers(), []) == Loaded([], []);
  }

  // ---------------------------------------------------------------------------
  // A batch against a variant of the family that does implement two handlers,
  // each writing one bucket under its own name.

  function ScenarioHandlers(): map<string, Handler> {
    map["operationEnrollmentCreate" := (data: Payload, dry: bool) => Returned([Bucket("operationEnrollmentCreate", ["created"])]),
        "operationEnrollmentDelete" := (data: Payload, dry: bool) => Returned([Bucket("operationEnrollmentDelete", ["deleted"])])]
  }

  /** The data of both scenario requests once the routing keys are gone. */
  function ScenarioPayload(): Payload {
    map["attendee_id" := "1", "session_id" := "9"]
  }

  function ScenarioRequest(action: string): Payload {
    ScenarioPayload()[TYPE_KEY := OPERATION_TYPE_ENROLLMENT][ACTION_KEY := action]
  }

  /** A request for one of the two implemented actions is accepted and queued under its handler's name. */
  lemma ScenarioLoadOne(action: string)
    requires action == OPERATION_ACTION_CREATE || action == OPERATION_ACTION_DELETE
    ensures LoadOne(Family(), ScenarioHandlers(), ScenarioRequest(action))
         == Loaded([QueuedOperation(MethodNames.MethodName(OPERATION_TYPE_ENROLLMENT, action), ScenarioPayload())], [])
  {
    var request := ScenarioRequest(action);
    if action == OPERATION_ACTION_CREATE { CreateHandlerName(); } else { DeleteHandlerName(); }
    assert HandlerName(request) in ScenarioHandlers();
    assert request - {TYPE_KEY, ACTION_KEY} == ScenarioPayload();
    assert TypeValid(Family(), request) && ActionValid(Family(), request);
  }

  /** Both requests are queued in order, under their derived names, with only their payload left. */
  lemma ScenarioLoads(requests: seq<Payload>)
    requires requests == [ScenarioRequest(OPERATION_ACTION_CREATE), ScenarioRequest(OPERATION_ACTION_DELETE)]
    ensures Load(Family(), ScenarioHandlers(), requests)
         == Loaded([QueuedOperation("operationEnrollmentCreate", ScenarioPayload()),
                    QueuedOperation("operationEnrollmentDelete", ScenarioPayload())], [])
  {
    LoadTwo(Family(), ScenarioHandlers(), requests[0], requests[1]);
    ScenarioLoadOne(OPERATION_ACTION_CREATE);
    ScenarioLoadOne(OPERATION_ACTION_DELETE);
    CreateHandlerName();
    DeleteHandlerName();
  }

  lemma LoadTwo(vocabulary: Vocabulary, handlers: map<string, Handler>, first: Payload, second: Payload)
    ensures Load(vocabulary, handlers, [first, second]) == Then(LoadOne(vocabulary, handlers, first), LoadOne(vocabulary, handlers, second))
  {
    var one := LoadOne(vocabulary, handlers, first);
    assert [first, second][..1] == [first];
    assert [first][..0] == [];
    assert Load(vocabulary, handlers, [first]) == Then(Loaded([], []), one);
    assert [] + one.queue == one.queue && [] + one.errors == one.errors;
  }

  /** Running that queue fills two buckets keyed by the two handler names and records no error. */
  lemma ScenarioExecutes(cacheFlush: nat -> Option<string>, dryRun: bool)
    requires cacheFlush(0) == None && cacheFlush(1) == None
    ensures var payload: Payload := ScenarioPayload();
            var queue := [QueuedOperation("operationEnrollmentCreate", payload), QueuedOperation("operationEnrollmentDelete", payload)];
            var buckets := [Bucket("operationEnrollmentCreate", ["created"]), Bucket("operationEnrollmentDelete", ["deleted"])];
      ExecuteBatch(Context(ScenarioHandlers(), cacheFlush, dryRun), queue, [], [], [])
        == Executed(buckets, [],
                    [Invoked("operationEnrollmentCreate"), Flushed, Invoked("operationEnrollmentDelete"), Flushed],
                    Some(Response(buckets, [])))
  {
    var payload: Payload := ScenarioPayload();
    var c, d := "operationEnrollmentCreate", "operationEnrollmentDelete";
    var queue := [QueuedOperation(c, payload), QueuedOperation(d, payload)];
    var ctx := Context(ScenarioHandlers(), cacheFlush, dryRun);
    var created, deleted := Bucket(c, ["created"]), Bucket(d, ["deleted"]);
    assert c != d;
    assert OutcomeOf(ctx, queue[0]) == Returned([created]);
    assert OutcomeOf(ctx, queue[1]) == Returned([deleted]);
    assert ApplyWrites([], [created]) == [created] by {
      assert [created][1..] == [];
    }
    assert ApplyWrites([created], [deleted]) == [created, deleted] by {
      assert [deleted][1..] == [];
      assert Keys([created]) == [c];
    }
    var log1 := [Invoked(c), Flushed];
    var log2 := log1 + [Invoked(d), Flushed];
    assert RunFrom(ctx, queue, 2, [created, deleted], log2) == RunResult([created, deleted], log2, None);
    assert RunFrom(ctx, queue, 1, [created], log1) == RunFrom(ctx, queue, 2, [created, deleted], log2);
    var none: seq<Call> := [];
    assert none + [Invoked(c)] + [Flushed] == log1;
    assert RunFrom(ctx, queue, 0, [], []) == RunFrom(ctx, queue, 1, [created], log1);
  }
}
