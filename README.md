# operation-factory in Dafny

This project models the batch dispatcher `aOperationFactory` and its one
concrete family, `Operations\Enrollment`. A caller hands the factory a list
of requests. Each request names an `operation_type` and an
`operation_action`, and everything else in it is that request's data.

The factory works in two phases:

- **Load.** Each request is checked against the family's closed lists of
  types and actions. A request that fails a check leaves one error line per
  failed check. A request that passes both has its handler name derived:
  `"operation"` followed by the `ucwords`'d pieces of `type_action`. When a
  handler of that name exists, the request is queued under that name, minus
  the two routing keys. Otherwise it is dropped without an error.
- **Execute.** The queue runs in order. Each handler may fill result
  buckets, and the cache is flushed after each handler that returns. The
  first exception stops the run and becomes the single error line
  `"Operation: <method>: <message>"`. After a failure `execute` returns
  nothing. After a complete run it returns the buckets together with the
  error list.

The model has one module per concern:

- `MethodNames` covers PHP `explode`, `implode` and `ucwords`, and
  `_generateOperationMethodName` together with its laws.
- `Results` covers the ordered result buckets (`$operations_results`),
  writes into them (`prepareResults`), and `flattenOperationsResults` as a
  function.
- `Operations` states the rules of both phases on plain values:
  - `Load` says what the load phase queues and records.
  - `RunFrom` and `ExecuteBatch` say what running the queue does to the
    buckets, the error list and the calls made into outside code.

  It also holds the lemmas on ordering, fail-fast behaviour, error lines and
  the dry-run flag.
- `Factory` is the class `OperationFactory`. It has the source's fields:
  `operations`, `operationsResults`, `errors` and `dryRun`, plus a ghost log
  `calls` of the handler and flush calls it makes. Its methods change those
  fields in place: `AddOperation`, `SetError` and `PrepareResults` each make
  one update, while `LoadOperationsData`, `Execute` and
  `FlattenOperationsResults` are loops. Each is proved against the functions
  of `Operations`. The object invariant `Valid` says that no bucket key
  appears twice and that every queued entry names a handler.
- `Enrollment` gives the family's vocabulary and its (empty) set of handler
  methods, and works through concrete scenarios.

Handlers and the cache flush are outside collaborators. `Context.handlers`
maps a method name to a function. The function receives the queued data and
the dry-run flag (which a handler would read through `isDryRun`). It returns
either the bucket writes it made or the message it threw. `Context.flush(i)`
says whether the flush after queue entry `i` returns or throws.
`ValidateOperation` (`_validateOperation`), `CanExecute`, `IsDryRun` and the
three getters are plain field and map reads with no contract of their own.
`OperationException` is the datatype
`Operations.OperationException(methodName, data, message)`.

`_generateOperationMethodName` only upper-cases the first letter of each
word. So `ENROLLMENT`/`create` and `enrollment`/`create` derive different
names (`Enrollment.UpperCaseTypeName`). The names agree once folded to lower
case (`MethodNames.MethodNameIgnoresCase`), which is how PHP's
`method_exists` compares them.

## Model

| member | source | states |
|---|---|---|
| MethodNames.Ucwords | aOperationFactory.php:212 | a character is upper-cased exactly when it comes first or follows a delimiter (space, tab, CR, LF, form feed, vertical tab); every other character is kept, and the length is unchanged |
| MethodNames.Split | aOperationFactory.php:211 | `explode` gives at least one piece, and no piece holds the separator |
| MethodNames.SplitCount | aOperationFactory.php:211 | `explode` gives one more piece than the string has separators |
| MethodNames.JoinSplit | aOperationFactory.php:211 | imploding the pieces with the separator gives back the original string |
| MethodNames.ConcatSplit | aOperationFactory.php:211-212 | gluing the pieces with no separator gives the string with every separator removed |
| MethodNames.MethodNameShape | aOperationFactory.php:210-213 | the derived name starts with "operation", holds no '_' after that prefix, and its length is 9 + the input lengths − the number of '_' in them |
| MethodNames.MethodNameFolded | aOperationFactory.php:210-213 | lower-cased, the name is "operation" followed by lower-cased `type_action` with its underscores removed |
| MethodNames.MethodNameIgnoresCase | aOperationFactory.php:210-213 | inputs that agree up to case derive names that agree up to case |
| MethodNames.MethodNameOfWords | aOperationFactory.php:210-213 | for an underscore-free type and action the name is "operation" + ucwords(type) + ucwords(action) |
| MethodNames.MethodNameKeepsCase | aOperationFactory.php:210-213 | a type character that does not start a word appears in the name as written |
| Results.Put | aOperationFactory.php:187-190 | after writing bucket k, k holds the new entries and every other key looks up as before; an existing key keeps its place and a new key goes last |
| Results.PutKeepsKeysUnique | aOperationFactory.php:187-190 | writing a bucket never makes a key appear twice |
| Results.ApplyWritesKeepsKeysUnique | aOperationFactory.php:187-190 | a handler's sequence of bucket writes never makes a key appear twice |
| Results.FlattenAppend | aOperationFactory.php:106-113 | flattening two bucket lists one after the other is flattening each, concatenated |
| Results.FlattenLength | aOperationFactory.php:106-113 | the flat list has one slot per bucket plus one per entry |
| Results.FlattenLayout | aOperationFactory.php:106-113 | bucket i's key sits at offset i + (entries of the buckets before i), with bucket i's entries right behind it |
| Operations.Load | aOperationFactory.php:220-230 | every queued entry names an existing handler and carries neither routing key |
| Operations.ValidationCases | aOperationFactory.php:249-274 | a request passes exactly when the type is set and declared, the action is set and declared, and the derived handler exists; a bad type adds exactly one "Invalid operation-type: …" line, a bad action one "Invalid operation-action: …" line, both bad add both lines in that order, and a request with a good vocabulary adds none even if its handler is missing |
| Operations.LoadAppend | aOperationFactory.php:220-230 | a batch loads as its two halves do, one after the other, so no rejection changes how later requests load |
| Operations.LoadQueueOrder | aOperationFactory.php:220-230 | the queue has as many entries as there are accepted requests, and the accepted request at index k becomes entry AcceptedCount(requests[..k]), resolved and minus its routing keys, so submission order is kept |
| Operations.LoadWithoutHandlers | aOperationFactory.php:238-240 | a family without handler methods queues nothing, whatever it is sent |
| Operations.RunCompletes | aOperationFactory.php:85-93 | when no entry fails, each handler runs exactly once in queue order, each followed by exactly one flush, and the buckets hold every handler's writes |
| Operations.RunFailsFast | aOperationFactory.php:85-93 | when entry j is the first to fail, the entries before it ran and flushed, j's handler ran, j's flush ran only if its handler returned, no later handler ran, and the exception names entry j's method, data and message |
| Operations.RunFailsIff | aOperationFactory.php:85-93 | a run ends with an exception exactly when some entry fails |
| Operations.RunKeepsKeysUnique | aOperationFactory.php:85-93 | a run leaves every bucket key at most once |
| Operations.ExecuteKeepsKeysUnique | aOperationFactory.php:82-99 | `execute` leaves every bucket key at most once, which is what `Valid` needs |
| Operations.ExecuteEmptyQueue | aOperationFactory.php:82-99 | with an empty queue `execute` calls no handler and no flush and returns the buckets and errors unchanged |
| Operations.ExecuteSucceeds | aOperationFactory.php:82-99 | on the all-success path the buckets are all handlers' writes, the errors are unchanged, and the return value is those buckets with those errors |
| Operations.ExecuteFailsFast | aOperationFactory.php:82-99 | when entry j fails first, `execute` returns nothing, appends exactly one "Operation: <method j>: <message>" line, keeps the buckets written before j, and calls nothing after j |
| Operations.RunIgnoresDryRun | aOperationFactory.php:85-93 | the run depends on the dry-run flag only through what the handlers do with it: contexts whose handlers act alike on the queue and whose flush is the same run alike |
| Factory.OperationFactory.constructor | aOperationFactory.php:63-75 | the object invariant holds; the defaults are no requests, execute and no dry run; the queue and errors are those of loading the requests, the dry-run flag is the one given, and the buckets, errors and calls are those of `execute` when asked to execute, or untouched when not |
| Factory.OperationFactory.Execute | aOperationFactory.php:82-99 | the object invariant is kept; the buckets, errors, calls and return value are exactly those `ExecuteBatch` gives for the current queue and context |
| Factory.OperationFactory.FlattenOperationsResults | aOperationFactory.php:106-113 | the result is each bucket key followed by its entries, buckets in insertion order, and its length is the buckets plus their entries |
| Factory.OperationFactory.AddOperation | aOperationFactory.php:148-150 | one entry `{method, data}` (data empty by default) is appended to the queue and nothing else changes |
| Factory.OperationFactory.PrepareResults | aOperationFactory.php:187-190 | the object invariant is kept; bucket k becomes empty, every other bucket is unchanged, and only the buckets field changes |
| Factory.OperationFactory.SetError | aOperationFactory.php:197-199 | one error line is appended and nothing else changes |
| Factory.OperationFactory.LoadOperationsData | aOperationFactory.php:220-230 | the queue and the errors grow by exactly what `Load` gives for the requests |
| Factory.OperationFactory.LoadRequest | aOperationFactory.php:223-227 | one request adds exactly its own queue entry, if accepted, and its own error lines |
| Factory.OperationFactory.ValidateOperationData | aOperationFactory.php:249-274 | the verdict is `Accepted`, and the error list grows by the request's validation errors |
| Enrollment.New | Operations/Enrollment.php:28-63 | an Enrollment factory queues nothing, has no buckets and makes no calls, and its errors are the load errors |
| Enrollment.Declarations | Operations/Enrollment.php:40-63 | the name is "enrollment", the types are exactly ["enrollment"], and the actions are exactly ["create", "delete", "transition", "update"] in that order |
| Enrollment.CreateHandlerName | aOperationFactory.php:210-213 | ("enrollment", "create") derives "operationEnrollmentCreate" |
| Enrollment.DeleteHandlerName | aOperationFactory.php:210-213 | ("enrollment", "delete") derives "operationEnrollmentDelete" |
| Enrollment.ActionHandlerName | Operations/Enrollment.php:47-54 | every declared action derives "operationEnrollment" followed by the action with its first letter upper-cased |
| Enrollment.UpperCaseTypeName | aOperationFactory.php:210-213 | ("ENROLLMENT", "create") derives a different name than ("enrollment", "create") |
| Enrollment.QueuesNothing | Operations/Enrollment.php:28-63 | with no handler methods, every batch sent to Enrollment leaves the queue empty |
| Enrollment.ExecuteIsNoOp | aOperationFactory.php:82-99 | for Enrollment `execute` calls nothing and returns the buckets and errors as they are |
| Enrollment.BogusType | aOperationFactory.php:252-258 | a request of type "bogus" with action "create" queues nothing and records exactly "Invalid operation-type: bogus" |
| Enrollment.ScenarioLoads | aOperationFactory.php:220-230 | once the family has create and delete handlers, a create request and a delete request are queued in that order under "operationEnrollmentCreate" and "operationEnrollmentDelete", each with only its data left |
| Enrollment.ScenarioExecutes | aOperationFactory.php:82-99 | running that queue calls create, flush, delete, flush, fills both handlers' buckets in order, records no error, and returns the buckets |

## Left out

- `flushEntityCaches` (Drupal `entity_flush_caches`, memcache) is the collaborator `Context.flush`, indexed by queue position. Its effects are not modelled; only whether it returns or throws is.
- `check_plain` is taken as the identity. An unset type or action prints as the empty string, which is what PHP prints for `null`. The undefined-index notice is not modelled.
- `method_exists` and `$this->$method(...)` become a lookup in the finite map `Context.handlers`. PHP's case-insensitive method lookup is not modelled, beyond `MethodNames.MethodNameIgnoresCase`.
- `in_array`'s loose comparison is not modelled. Request values are strings and are compared exactly.
- Factory.OperationFactory.Execute: requires `Valid`, so every queued name has a handler. PHP would stop with a fatal error on an undefined method, and the load phase guarantees this precondition (`Operations.Load`). `AddOperation` can queue any name and so does not keep `Valid`.
- Operations.ExecuteSucceeds: a handler's own calls to the protected `setError` and `addOperation` are not modelled. In PHP such calls would add error lines to the value `execute` returns, and the model's "errors unchanged" holds only because a handler here returns just bucket writes or a message.
- An exception's code and chained previous exception are dropped. Only the method, the data and the message are kept.
- PHP `\Error` throwables that are not `\Exception` are not modelled. Such a throwable would escape `execute` uncaught.
- Operations.ExecuteBatch: the return value keeps the buckets and the error list apart (`Response`). PHP's `+` union, which would drop the error list when a handler has filled a bucket named `errors`, is not modelled. Neither are `array_merge` renumbering and string-key overwrite inside a bucket.
- `$_errors` starts as `null` in PHP, so `getErrors` returns `null` before the first error. The model starts with an empty list.
- What handlers do is not modelled. A handler is the list of bucket writes it makes, each a `prepareResults(key)` followed by its entries, or the message it throws. Writes a handler makes before it throws are not modelled, and persistence is out of scope.
- `iOperation` only declares method signatures. Its members are the `Vocabulary` fields and `Factory.OperationFactory.Execute`.
- MethodNames.Ucwords: upper-cases ASCII letters only, as PHP 8 `ucwords` does. Locale-dependent case mapping is not modelled.
- `prepareResults` returns a reference into the bucket. The model has handlers hand back whole bucket writes instead of aliasing into the buckets.
