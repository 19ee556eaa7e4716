# mobx-ajax-util: the request-state container

A Dafny model of the request-state container of `mobx-ajax-util`
(`src/index.ts`). `createRequestDecorator(provider)` returns `asRequest`.
`asRequest({url, method, extraData})` returns a property decorator `wrap`.
`wrap(target, name)` builds one `AjaxStoreImpl` and assigns it to
`target[name]`. The container exposes `initial`, `loading`, `data` and
`error`, plus `fetch(params)` and `reset()`.

The container is an immutable record (`AjaxStore.Container`) and each
piece of code that mutates it is one event of a pure step function
(`AjaxStore.Step`):

- `Fetch(params)`: the synchronous head of `fetch`. It raises `loading` and
  calls the provider with `{url, method, body: params, query: params, extraData}`.
- `FetchThrows(params, e)`: the same, but the provider throws instead of
  returning a promise.
- `Resolve(id, d)`: the `.finally` handler of a successful call.
- `Reject(id, e)`: the `.catch` handler of a failed call.
- `Finally(id)`: the `.finally` handler that runs after that `.catch` handler,
  in a later microtask.
- `Reset`: `reset()`.

Overlapping `fetch` calls are arbitrary interleavings of these events
(`AjaxStore.Run`). Every issued call is recorded with the arguments the
provider received and how far its promise chain has got. From that record
one reads whether `fetch`'s promise resolved or rejected, and with what.

The model follows the code as written. Where the tests expect something
else, the model proves what the code actually does, and `Intended` holds
the corrected definitions (see "## Findings"). In the code as written:

- A successful settlement writes only `loading`. There is no `.then` in the
  chain. So `data` stays `null`, `initial` stays `true`, and `error` is
  never cleared by a success.
- `loading` is a single flag written by every event. It is not a counter.
  The latest event decides it.
- `error` starts as `undefined` (it has no initialiser). After that it holds
  the reason given to the latest `.catch` handler. `reset` does not clear it.
- A container is assigned to the decorator's `target`, which for a
  property decorator is the class prototype. So all instances of a class
  read the same container.

`V` stands for "any JavaScript value": parameters, `extraData`, payloads and
rejection reasons. `undefined` is one of these values, so `fetch()` is
`fetch(undefined)` and a left-out `extraData` is `undefined`. `data` is an
`Option`, with `None` for `null`. `error` is an `AjaxStore.ErrorSlot`:
`Unassigned` (the `undefined` it starts with), `Null` (an explicit `null`,
which only the corrected success handler writes) or `Holds(reason)` (set by
a catch handler).

## Model

| member | source | states |
|---|---|---|
| Request.AsRequest | src/index.ts:28-36 | The captured url and extraData are the ones given; a missing method becomes GET, and a given one is kept |
| Request.DefaultMethodIsGet | src/index.ts:28-31 | Leaving method out is the same configuration as asking for GET, and the provider then sees GET |
| Request.ProviderArgs | src/index.ts:46-52 | The provider receives the captured url, method and extraData, with the call's params as both body and query |
| Request.ProviderArgsDetermined | src/index.ts:46-52 | Two calls on one configuration give the provider equal arguments exactly when their params are equal; body always equals query |
| AjaxStore.Fresh | src/index.ts:38-42 | A new container has initial true, loading false, data null, error unassigned, the given configuration and no calls |
| AjaxStore.StartFetch | src/index.ts:44-52 | fetch raises loading synchronously and changes no other field; it appends exactly one pending call whose provider arguments carry the configuration and the params |
| AjaxStore.StartFetchThrowing | src/index.ts:44-52 | When the provider throws synchronously, loading is already raised and stays so; error is untouched; the call is recorded as thrown with that reason |
| AjaxStore.SettleOk | src/index.ts:46-64 | A success lowers loading and changes no other field; fetch resolves with the provider's payload unchanged; no other call changes |
| AjaxStore.CatchRejection | src/index.ts:53-59 | A rejection lowers loading and sets error to the rejection value, leaving initial and data alone; the call is marked caught with that value |
| AjaxStore.FinallyAfterCatch | src/index.ts:60-64 | The finally handler after a catch lowers loading again, changes no other field, and rejects fetch's promise with the caught value |
| AjaxStore.ResetStore | src/index.ts:67-73 | reset sets initial true, loading false and data null, keeps error, and leaves every outstanding call as it was |
| AjaxStore.Step | src/index.ts:44-73 | Every event keeps the configuration, and after it loading is true exactly when the event started a fetch |
| Lifecycle.NeverLeavesInitial | src/index.ts:38-73 | In every reachable container data is null and initial is true, and the configuration is the one captured |
| Lifecycle.LoadingFollowsLatestEvent | src/index.ts:44-64 | After any trace, loading is true exactly when the latest event started a fetch, however many calls are still outstanding |
| Lifecycle.LoadingImpliesLatestCallOutstanding | src/index.ts:44-64 | loading is true only while the most recently issued call is pending or its provider threw |
| Lifecycle.OverlappingFetchesDoNotCount | src/index.ts:60-64 | From any container, with two overlapping calls the first settlement lowers loading while the second call is still in flight and counted as such |
| Lifecycle.ErrorIsLatestRejection | src/index.ts:53-73 | error equals the reason of the latest catch handler in the trace, or is still unassigned if none ran; successes and resets do not clear it |
| Lifecycle.LatestSettlementWins | src/index.ts:53-59 | From any container, when two overlapping calls reject out of issue order, error holds the reason of the call that settled last |
| Lifecycle.ErrorComesFromRejectedCall | src/index.ts:53-64 | Any value in error is the rejection of some issued call, whose fetch promise is rejected (or about to be) with that same value |
| Lifecycle.RejectionIsNeverForgotten | src/index.ts:53-73 | Once any call has been rejected, error stays assigned by a catch handler in every later state, even if the reason was `null` or `undefined` |
| Lifecycle.RejectionReachesBothChannels | src/index.ts:53-64 | A rejection sets error and lowers loading, and the finally handler that follows rejects fetch with that same value while error still holds it |
| Lifecycle.ProviderSeesIssuedParams | src/index.ts:44-52 | The k-th call's provider arguments are the captured configuration with the k-th fetch's params as body and query |
| Lifecycle.SettledCallsStaySettled | src/index.ts:44-73 | A call that has resolved, rejected or thrown keeps that outcome under every later event |
| Lifecycle.ThrowingProviderLeavesLoading | src/index.ts:44-52 | In any reachable state, a synchronous provider throw raises loading, leaves error as it was (the latest earlier rejection, if any), and records the new call as thrown |
| Lifecycle.ThrownCallNeverSettles | src/index.ts:44-52 | A call whose provider threw keeps that outcome under any later trace, and no resolve, reject or finally of it is ever enabled |
| Lifecycle.ResetIdempotent | src/index.ts:67-73 | Calling reset twice is the same as calling it once |
| Lifecycle.ResetLooksFresh | src/index.ts:67-73 | After reset the fields equal those of a freshly built container, except that error keeps its value |
| Lifecycle.ResetCancelsNothing | src/index.ts:67-73 | Exactly the same events can happen after reset as before, and a rejection arriving after reset still records its reason |
| Lifecycle.ResetOnlyLowersLoading | src/index.ts:67-73 | On any reachable container, reset changes nothing but loading |
| Lifecycle.SuccessLeavesDataNull | src/index.ts:46-64 | After a successful fetch, fetch has resolved with the payload, but data is still null and initial still true |
| Lifecycle.ErrorSurvivesSuccess | src/index.ts:46-64 | From any container, after a failed fetch and then a successful one, the success resolves its call but error still holds the failure's reason |
| Decorator.Wrap | src/index.ts:37-77 | wrap builds one new container, numbered after all earlier ones, and assigns it to target[name]; every other property is unchanged |
| Decorator.Decorate | src/index.ts:25-78 | Applying createRequestDecorator(provider)(opts) to target[name] appends exactly one fresh container with the configuration from opts, puts it into that slot, and leaves every other property unchanged |
| Decorator.WrapIsFresh | src/index.ts:75-76 | The container a decoration builds is referred to by no property that existed before |
| Decorator.WrapPreservesWellFormed | src/index.ts:75-76 | After a decoration, every property still refers to a built container and no two properties share one |
| Decorator.DecorateAllPreservesWellFormed | src/index.ts:75-76 | Any sequence of decorations keeps properties and containers one to one, and builds one container per decoration |
| Decorator.DistinctFieldsDistinctContainers | src/index.ts:75-76 | Two different decorated slots never hold the same container, so two fields of one class are independent |
| Decorator.FieldOf | src/index.ts:76 | Reading instance[name] yields the instance's own property if it has one, else the property of the first object along its prototype chain that has one, else nothing |
| Decorator.InstancesShareContainer | src/index.ts:75-76 | Two instances of one class that have no own property of that name read the same container, whether the field was decorated in that class or in a base class |
| Decorator.SubclassReadsBaseContainer | src/index.ts:75-76 | An instance of a subclass reads the container that a decoration in the base class put on the base prototype |
| Decorator.FetchLeaksAcrossInstances | src/index.ts:75-76 | A fetch started through one instance raises loading on the container another instance of the same class reads |
| Intended.SettleOkIntended | test/test.ts:86-89 | The corrected success handler sets data to the payload, clears initial and loading, and sets error to null, all in one update |
| Intended.IntendedAgreesOnLoadingAndOutcomes | src/index.ts:46-64 | The corrected step agrees with the written one on loading and on every call's outcome, and on every event except a success it is the same step |
| Intended.IntendedFieldsFollowTrace | test/test.ts:155-206 | With the corrected handler, data is the latest payload since the last reset, error the latest rejection since the last success (null after a success, unassigned before any success or rejection), and initial true exactly when no success has happened since the last reset |
| Intended.IntendedSuccessClearsError | test/test.ts:155-165 | With the corrected handler, a success after a failure sets error to null, which differs from the unassigned initial value, and records the payload, while the written one keeps the old error |
| Intended.Materialize | test/test.ts:244-249 | The corrected accessor gives an owner its cached container if it has one, else a fresh one, and leaves every other owner's container in place |
| Intended.MaterializeIsStable | test/test.ts:244-249 | Reading the field a second time from the same owner returns the same container and changes nothing |
| Intended.InstancesIsolated | test/test.ts:244-249 | Two owners reading the same field get different containers, and driving one leaves the other unchanged |

## Findings

| source | as written | input that shows it | evidently intended | confidence | as-written member | corrected member |
|---|---|---|---|---|---|---|
| src/index.ts:46-64 | The chain has `.catch` and `.finally` but no success handler, so a success never writes `data` or clears `initial` | `fetch(p)` whose provider resolves with `d` | `data = d`, `initial = false` (test/test.ts:88, test/test.ts:203) | not executed; high | Lifecycle.SuccessLeavesDataNull | Intended.SettleOkIntended |
| src/index.ts:46-64 | A success does not clear `error` | a rejected `fetch` followed by a successful one | `error = null` after the success (test/test.ts:164) | not executed; high | Lifecycle.ErrorSurvivesSuccess | Intended.IntendedSuccessClearsError |
| src/index.ts:75-76 | One container per decoration, assigned to the decorator's target, which is the class prototype | two instances of one class, each reading the decorated field | a separate container per instance (test/test.ts:248) | not executed; medium, because the exact effect depends on the decorator runtime | Decorator.FetchLeaksAcrossInstances | Intended.InstancesIsolated |

The `AjaxStore`, `Lifecycle` and `Decorator` modules keep the behaviour as
written. `Intended` stands beside them and is not used by them.

## Left out

- MobX reactivity (`@observable`, `@action.bound`, `runInAction`, `autorun`). Each `runInAction` block is one atomic step. Observer notification and autorun scheduling are not modelled.
- The observer-count test (test/test.ts:70-79). It depends on autorun scheduling. Also, its autorun returns early while `initial` is true, and `initial` is never cleared here.
- Promise machinery and timers. Settlements are explicit events. The only ordering kept is that a call's `.catch` handler precedes its `.finally` handler. Microtask scheduling is otherwise unconstrained.
- A provider that returns something without `.catch` is not modelled. In JavaScript that is a `TypeError` thrown from `fetch` after `loading` was raised.
- The provider and its transport (axios, query-string, the fake providers in the tests). Each provider is an opaque source of resolve, reject and throw events.
- The value `wrap` returns. What a property decorator's return value does is up to the decorator runtime. `Decorator.Wrap` returns the container's number.
- Own properties that class-field semantics may add to instances. That is language-runtime behaviour. `Decorator.FieldOf` looks up an own property first and then walks the prototype chain.
- Garbage collection and object lifetime.
- The `TParam`/`TData`/`TExtra` type parameters. One value type `V` stands for all JavaScript values. `error.Holds?` means "assigned by a catch handler", not "non-null": a rejection with `undefined` gives `Holds(undefined)`, which JavaScript cannot tell apart from `Unassigned`; a rejection with `null` gives `Holds(null)`, which reads like `Null`.
- MobX value conversion. `@observable` fields (src/index.ts:39-42) are deep observables, so assigning a plain object, array or Map stores an observable copy rather than the value itself; `Error` instances and primitives pass through unchanged. Equality on `V` in the contracts ("the same value" in `error`, and `data == Some(payload)` in `Intended`) therefore means identity up to that conversion, which is why the tests compare with `deepEqual` and `toJS`.
- The React demo and the test harness. They contain no core logic.

The code differs from its own interface and tests in these places, and the model follows the code:

- The `AjaxStore` interface declares `error: Error | null` (src/index.ts:20), but the field has no initialiser and starts as `undefined`.
- The tests expect a success to write `data`, `initial` and `error` (test/test.ts:88, test/test.ts:164, test/test.ts:203); the code writes only `loading`.
- The tests expect one container per instance (test/test.ts:248); the code assigns one container per decorated field to the class prototype.
