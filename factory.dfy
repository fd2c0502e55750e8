/**
 * `aOperationFactory`: the batch dispatcher as an object. It holds the
 * queue, the ordered result buckets, the error list and the dry-run flag,
 * and changes them in place during the load and the execute phase. A
 * concrete family (Enrollment) supplies the vocabulary and the handler
 * methods; the cache flush is an outside collaborator.
 */
module Factory {
  import opened Wrappers
  import opened Results
  import opened Operations
  import MethodNames

  class OperationFactory {
    /** `getName`, `getOperationTypes`, `getOperationActions` of the concrete family. */
    const vocabulary: Vocabulary
    /** The concrete family's handler methods, by name. */
    const handlers: map<string, Handler>
    /** `flushEntityCaches`: `cacheFlush(i)` is what the flush after queue entry `i` does. */
    const cacheFlush: nat -> Option<string>

    var operations: seq<QueuedOperation>
    var operationsResults: seq<Bucket>
    var dryRun: bool
    var errors: seq<string>
    /** The handler and flush calls made so far, oldest first. */
    ghost var calls: seq<Call>

    function CurrentContext(): Context
      reads this
    {
      Context(handlers, cacheFlush, dryRun)
    }

    /**
     * The object invariant: the buckets form a PHP array (no key twice) and
     * every queued entry names one of the family's handler methods.
     */
    predicate Valid()
      reads this
    {
      UniqueKeys(operationsResults) && Resolved(handlers, operations)
    }

    /**
     * `__construct`: load the requests, raise the dry-run flag if asked, and
     * run the queue if asked (the value `execute` returns is dropped).
     */
    constructor (vocabulary: Vocabulary, handlers: map<string, Handler>, cacheFlush: nat -> Option<string>,
                 operationsData: seq<Payload> := [], execute: bool := true, dryRun: bool := false)
      ensures Valid()
      ensures this.vocabulary == vocabulary && this.handlers == handlers && this.cacheFlush == cacheFlush
      ensures this.dryRun == dryRun
      ensures var loaded := Load(vocabulary, handlers, operationsData);
        && operations == loaded.queue
        && if execute then
             var x := ExecuteBatch(Context(handlers, cacheFlush, dryRun), loaded.queue, [], loaded.errors, []);
             operationsResults == x.results && errors == x.errors && calls == x.calls
           else
             operationsResults == [] && errors == loaded.errors && calls == []
    {
      this.vocabulary := vocabulary;
      this.handlers := handlers;
      this.cacheFlush := cacheFlush;
      operations := [];
      operationsResults := [];
      this.dryRun := false;
      errors := [];
      calls := [];
      new;
      LoadOperationsData(operationsData);
      ghost var loaded := Load(vocabulary, handlers, operationsData);
      assert operations == loaded.queue && errors == loaded.errors;
      assert Valid() by {
        assert Keys(operationsResults) == [];
      }
      if dryRun {
        this.dryRun := true;
      }
      assert CurrentContext() == Context(handlers, cacheFlush, dryRun);
      if execute {
        var _ := Execute();
      }
    }

    /**
     * `execute`: when there is something queued, run every entry in order and
     * flush after each success; the first exception stops the run and becomes
     * one error line, and then nothing is returned.
     */
    method Execute() returns (response: Option<Response>)
      requires Valid()
      modifies this`operationsResults, this`errors, this`calls
      ensures Valid()
      ensures var x := ExecuteBatch(CurrentContext(), operations, old(operationsResults), old(errors), old(calls));
        operationsResults == x.results && errors == x.errors && calls == x.calls && response == x.response
    {
      ExecuteKeepsKeysUnique(CurrentContext(), operations, operationsResults, errors, calls);
      var failure: Option<OperationException> := None;
      if CanExecute() {
        ghost var run := RunFrom(CurrentContext(), operations, 0, operationsResults, calls);
        var i := 0;
        while i < |operations| && failure.None?
          invariant 0 <= i <= |operations|
          invariant errors == old(errors)
          invariant failure.None? ==> RunFrom(CurrentContext(), operations, i, operationsResults, calls) == run
          invariant failure.Some? ==> run == RunResult(operationsResults, calls, failure)
          decreases |operations| - i
        {
          var entry := operations[i];
          calls := calls + [Invoked(entry.methodName)];
          var outcome := handlers[entry.methodName](entry.data, dryRun);
          match outcome {
            case Threw(message) =>
              failure := Some(OperationException(entry.methodName, entry.data, message));
            case Returned(writes) =>
              operationsResults := ApplyWrites(operationsResults, writes);
              calls := calls + [Flushed];
              var flushed := cacheFlush(i);
              if flushed.Some? {
                failure := Some(OperationException(entry.methodName, entry.data, flushed.value));
              }
          }
          i := i + 1;
        }
      }
      match failure {
        case None =>
          response := Some(Response(GetOperationsResults(), GetErrors()));
        case Some(e) =>
          SetError(ErrorLine(e));
          response := None;
      }
    }

    /** `flattenOperationsResults`: each bucket key followed by its entries, buckets in order. */
    method FlattenOperationsResults() returns (flat: seq<string>)
      ensures flat == Flatten(operationsResults)
      ensures |flat| == |operationsResults| + EntryCount(operationsResults)
    {
      flat := [];
      var i := 0;
      while i < |operationsResults|
        invariant 0 <= i <= |operationsResults|
        invariant flat == Flatten(operationsResults[..i])
      {
        var bucket := operationsResults[i];
        flat := flat + [bucket.key];
        flat := flat + bucket.entries;
        assert operationsResults[..i + 1] == operationsResults[..i] + [bucket];
        FlattenAppend(operationsResults[..i], [bucket]);
        i := i + 1;
      }
      assert operationsResults[..i] == operationsResults;
      FlattenLength(operationsResults);
    }

    function GetErrors(): seq<string>
      reads this
    {
      errors
    }

    function GetOperations(): seq<QueuedOperation>
      reads this
    {
      operations
    }

    function GetOperationsResults(): seq<Bucket>
      reads this
    {
      operationsResults
    }

    /** `addOperation`: append one entry to the queue. */
    method AddOperation(methodName: string, data: Payload := map[])
      modifies this`operations
      ensures operations == old(operations) + [QueuedOperation(methodName, data)]
    {
      operations := operations + [QueuedOperation(methodName, data)];
    }

    predicate CanExecute()
      reads this
    {
      |operations| > 0
    }

    predicate IsDryRun()
      reads this
    {
      dryRun
    }

    /** `prepareResults`: make bucket `key` empty, in its old place or at the end. */
    method PrepareResults(key: string)
      requires Valid()
      modifies this`operationsResults
      ensures Valid()
      ensures operationsResults == Put(old(operationsResults), key, [])
      ensures Lookup(operationsResults, key) == Some([])
      ensures forall other :: other != key ==> Lookup(operationsResults, other) == Lookup(old(operationsResults), other)
    {
      PutKeepsKeysUnique(operationsResults, key, []);
      operationsResults := Put(operationsResults, key, []);
    }

    /** `setError`: append one error line. */
    method SetError(error: string)
      modifies this`errors
      ensures errors == old(errors) + [error]
    {
      errors := errors + [error];
    }

    /** `_loadOperationsData`: validate each request in turn and queue the accepted ones. */
    method LoadOperationsData(operationsData: seq<Payload>)
      modifies this`operations, this`errors
      ensures var loaded := Load(vocabulary, handlers, operationsData);
        operations == old(operations) + loaded.queue && errors == old(errors) + loaded.errors
    {
      var k := 0;
      ghost var loaded := Loaded([], []);
      while k < |operationsData|
        invariant 0 <= k <= |operationsData|
        invariant loaded == Load(vocabulary, handlers, operationsData[..k])
        invariant operations == old(operations) + loaded.queue
        invariant errors == old(errors) + loaded.errors
      {
        LoadRequest(operationsData[k]);
        LoadStep(vocabulary, handlers, operationsData, k);
        loaded := Load(vocabulary, handlers, operationsData[..k + 1]);
        k := k + 1;
      }
      assert operationsData[..k] == operationsData;
    }

    /** One round of `_loadOperationsData`'s loop: validate the request and queue it if it passes. */
    method LoadRequest(request: Payload)
      modifies this`operations, this`errors
      ensures operations == old(operations) + LoadOne(vocabulary, handlers, request).queue
      ensures errors == old(errors) + LoadOne(vocabulary, handlers, request).errors
    {
      var valid := ValidateOperationData(request);
      if valid {
        var methodName := HandlerName(request);
        AddOperation(methodName, request - {TYPE_KEY, ACTION_KEY});
      }
    }

    /** `_validateOperation`: is there a handler method of this name? */
    predicate ValidateOperation(methodName: string) {
      methodName in handlers
    }

    /** `_validateOperationData`: check the type, then the action, recording one error per failed check, then the handler. */
    method ValidateOperationData(request: Payload) returns (valid: bool)
      modifies this`errors
      ensures valid == Accepted(vocabulary, handlers, request)
      ensures errors == old(errors) + ValidationErrors(vocabulary, request)
    {
      valid := true;
      if TYPE_KEY !in request || request[TYPE_KEY] !in vocabulary.types {
        valid := false;
        SetError(TypeError(Shown(request, TYPE_KEY)));
      }
      if ACTION_KEY !in request || request[ACTION_KEY] !in vocabulary.actions {
        valid := false;
        SetError(ActionError(Shown(request, ACTION_KEY)));
      }
      if valid {
        valid := ValidateOperation(MethodNames.MethodName(request[TYPE_KEY], request[ACTION_KEY]));
      }
    }
  }
}
