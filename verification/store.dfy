/** `AjaxStoreImpl`: the request-state container and its transitions.

    A container is an immutable record; each piece of code in the TypeScript class
    that mutates the container (the synchronous head of `fetch`, each
    promise handler, `reset`) is one event, and one `runInAction` block is
    one atomic step. Overlapping `fetch` calls are arbitrary interleavings
    of these events. The chain `provider(...).catch(h1).finally(h2)` gives a
    successful call one state-changing step (`h2`) and a failed call two
    (`h1`, then `h2` in a later microtask, so other events may run between
    them). */
module AjaxStore {
  import opened Request

  /** What `error` holds. It has no initialiser, so it starts as the
      unassigned `undefined`; a catch handler stores the rejection reason
      (which may itself be `null` or `undefined`); `Null` is an explicit
      `null`, which the code as written never stores. */
  datatype ErrorSlot<V> = Unassigned | Null | Holds(reason: V)

  /** The four observable fields. `data` is `None` for `null`. */
  datatype Fields<V> = Fields(initial: bool, loading: bool, data: Option<V>, error: ErrorSlot<V>)

  /** How far the promise chain of one `fetch` call has got. */
  datatype CallState<V> =
    | Pending              // the provider's promise has not settled
    | Caught(reason: V)    // the catch handler ran; the finally handler has not, so fetch's promise is unsettled
    | Resolved(value: V)   // the finally handler ran after success; fetch resolved with `value`
    | Rejected(reason: V)  // the finally handler ran after the catch handler; fetch rejected with `reason`
    | Threw(reason: V)     // the provider threw synchronously; fetch threw `reason` and chained nothing

  /** One issued `fetch`: what the provider was given and where it stands. */
  datatype Call<V> = Call(args: ProviderParameter<V>, state: CallState<V>)

  /** A container: its captured configuration, its fields, and every call
      it has issued, numbered in issue order. */
  datatype Container<V> = Container(config: Config<V>, fields: Fields<V>, calls: seq<Call<V>>)

  datatype Event<V> =
    | Fetch(params: V)                   // `fetch(params)`; the provider returns a promise
    | FetchThrows(params: V, reason: V)  // `fetch(params)`; the provider throws `reason` at once
    | Resolve(id: nat, payload: V)               // call `id`'s provider promise fulfils: finally handler
    | Reject(id: nat, reason: V)                 // call `id`'s provider promise rejects: catch handler
    | Finally(id: nat)                           // call `id`'s finally handler after its catch handler
    | Reset                                      // `reset()`
  {
    /** The events that set `loading` to true. */
    predicate IsStart() {
      Fetch? || FetchThrows?
    }
  }

  /** `initial`, `data` and `error` agree: only `loading` may differ. */
  ghost predicate OnlyLoadingDiffers<V>(a: Fields<V>, b: Fields<V>) {
    a.initial == b.initial && a.data == b.data && a.error == b.error
  }

  /** The calls agree except at index `id`, where only the state may differ. */
  ghost predicate OnlyStateOfCallDiffers<V>(a: seq<Call<V>>, b: seq<Call<V>>, id: nat) {
    |a| == |b| && id < |a| && a[id].args == b[id].args
    && forall k :: 0 <= k < |a| && k != id ==> a[k] == b[k]
  }

  /** The container `wrap` builds: the field initialisers only. */
  function Fresh<V>(cfg: Config<V>): (c: Container<V>)
    ensures c.fields.initial && !c.fields.loading
    ensures c.fields.data.None? && c.fields.error == Unassigned
    ensures c.config == cfg && |c.calls| == 0
  {
    Container(cfg, Fields(true, false, None, Unassigned), [])
  }

  function SetState<V>(calls: seq<Call<V>>, id: nat, st: CallState<V>): (r: seq<Call<V>>)
    requires id < |calls|
    ensures OnlyStateOfCallDiffers(r, calls, id) && r[id].state == st
  {
    calls[id := calls[id].(state := st)]
  }

  /** The synchronous head of `fetch(params)`: raise `loading`, then call
      the provider, whose promise is left pending. */
  function StartFetch<V>(c: Container<V>, params: V): (r: Container<V>)
    ensures r.fields.loading && OnlyLoadingDiffers(r.fields, c.fields)
    ensures r.config == c.config
    ensures |r.calls| == |c.calls| + 1 && r.calls[..|c.calls|] == c.calls
    ensures r.calls[|c.calls|].state.Pending?
    ensures var a := r.calls[|c.calls|].args;
      a.url == c.config.url && a.httpMethod == c.config.httpMethod && a.extraData == c.config.extraData
      && a.body == params && a.query == params
  {
    var issued := Call(ProviderArgs(c.config, params), Pending);
    c.(fields := c.fields.(loading := true), calls := c.calls + [issued])
  }

  /** `fetch(params)` when the provider throws instead of returning a
      promise: `loading` has already been raised and no handler is ever
      attached, so nothing lowers it on this call's behalf. */
  function StartFetchThrowing<V>(c: Container<V>, params: V, reason: V): (r: Container<V>)
    ensures r.fields.loading && OnlyLoadingDiffers(r.fields, c.fields)
    ensures r.config == c.config
    ensures |r.calls| == |c.calls| + 1 && r.calls[..|c.calls|] == c.calls
    ensures r.calls[|c.calls|].state == Threw(reason)
    ensures var a := r.calls[|c.calls|].args;
      a.url == c.config.url && a.httpMethod == c.config.httpMethod && a.extraData == c.config.extraData
      && a.body == params && a.query == params
  {
    var issued := Call(ProviderArgs(c.config, params), Threw(reason));
    c.(fields := c.fields.(loading := true), calls := c.calls + [issued])
  }

  /** The finally handler of a call whose provider fulfilled: it lowers
      `loading` and nothing else; fetch resolves with the payload as is. */
  function SettleOk<V>(c: Container<V>, id: nat, payload: V): (r: Container<V>)
    requires id < |c.calls| && c.calls[id].state.Pending?
    ensures !r.fields.loading && OnlyLoadingDiffers(r.fields, c.fields)
    ensures r.config == c.config
    ensures OnlyStateOfCallDiffers(r.calls, c.calls, id) && r.calls[id].state == Resolved(payload)
  {
    c.(fields := c.fields.(loading := false), calls := SetState(c.calls, id, Resolved(payload)))
  }

  /** The catch handler of a call whose provider rejected: it lowers
      `loading`, records the reason in `error`, and rethrows. */
  function CatchRejection<V>(c: Container<V>, id: nat, reason: V): (r: Container<V>)
    requires id < |c.calls| && c.calls[id].state.Pending?
    ensures !r.fields.loading && r.fields.error == Holds(reason)
    ensures r.fields.initial == c.fields.initial && r.fields.data == c.fields.data
    ensures r.config == c.config
    ensures OnlyStateOfCallDiffers(r.calls, c.calls, id) && r.calls[id].state == Caught(reason)
  {
    c.(fields := c.fields.(loading := false, error := Holds(reason)), calls := SetState(c.calls, id, Caught(reason)))
  }

  /** The finally handler that runs after a catch handler: it lowers
      `loading` again and passes the rethrown reason on as fetch's
      rejection. */
  function FinallyAfterCatch<V>(c: Container<V>, id: nat): (r: Container<V>)
    requires id < |c.calls| && c.calls[id].state.Caught?
    ensures !r.fields.loading && OnlyLoadingDiffers(r.fields, c.fields)
    ensures r.config == c.config
    ensures OnlyStateOfCallDiffers(r.calls, c.calls, id) && r.calls[id].state == Rejected(c.calls[id].state.reason)
  {
    c.(fields := c.fields.(loading := false), calls := SetState(c.calls, id, Rejected(c.calls[id].state.reason)))
  }

  /** `reset()`: back to the initial values of `initial`, `loading` and
      `data`; `error` is not touched, and outstanding calls are not
      cancelled. */
  function ResetStore<V>(c: Container<V>): (r: Container<V>)
    ensures r.fields.initial && !r.fields.loading && r.fields.data.None?
    ensures r.fields.error == c.fields.error
    ensures r.config == c.config && r.calls == c.calls
  {
    c.(fields := c.fields.(initial := true, loading := false, data := None))
  }

  /** Whether an event can happen in a state: a promise settles once, and
      its finally handler follows its catch handler. */
  predicate Enabled<V>(c: Container<V>, ev: Event<V>) {
    match ev
    case Fetch(_) => true
    case FetchThrows(_, _) => true
    case Resolve(id, _) => id < |c.calls| && c.calls[id].state.Pending?
    case Reject(id, _) => id < |c.calls| && c.calls[id].state.Pending?
    case Finally(id) => id < |c.calls| && c.calls[id].state.Caught?
    case Reset => true
  }

  function Step<V>(c: Container<V>, ev: Event<V>): (r: Container<V>)
    requires Enabled(c, ev)
    ensures r.config == c.config
    ensures r.fields.loading <==> ev.IsStart()
  {
    match ev
    case Fetch(p) => StartFetch(c, p)
    case FetchThrows(p, e) => StartFetchThrowing(c, p, e)
    case Resolve(id, d) => SettleOk(c, id, d)
    case Reject(id, e) => CatchRejection(c, id, e)
    case Finally(id) => FinallyAfterCatch(c, id)
    case Reset => ResetStore(c)
  }

  function Last<T>(s: seq<T>): T
    requires |s| > 0
  {
    s[|s| - 1]
  }

  function AllButLast<T>(s: seq<T>): (r: seq<T>)
    requires |s| > 0
    ensures |r| == |s| - 1
  {
    s[..|s| - 1]
  }

  /** Replays a trace of events; `None` when some event is not enabled
      where it occurs (a trace no execution can produce). */
  function Run<V>(c: Container<V>, trace: seq<Event<V>>): Option<Container<V>>
    decreases |trace|
  {
    if |trace| == 0 then Some(c)
    else
      match Run(c, AllButLast(trace))
      case None => None
      case Some(prev) => if Enabled(prev, Last(trace)) then Some(Step(prev, Last(trace))) else None
  }
}
