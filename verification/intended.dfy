/** The behaviour the tests and the `AjaxStore` interface describe, for
    comparison with the code as written: a successful settlement records
    its payload in `data`, clears `initial`, and sets `error` to `null`
    (the interface declares `error: Error | null`); and each owner
    instance materialises its own container on first read. */
module Intended {
  import opened Request
  import opened AjaxStore
  import Decorator

  /** The success handler the chain lacks: one atomic update of all four
      fields, then fetch resolves with the payload. */
  function SettleOkIntended<V>(c: Container<V>, id: nat, payload: V): (r: Container<V>)
    requires id < |c.calls| && c.calls[id].state.Pending?
    ensures r.fields.data == Some(payload) && !r.fields.initial
    ensures r.fields.error == Null && !r.fields.loading
    ensures r.config == c.config
    ensures OnlyStateOfCallDiffers(r.calls, c.calls, id) && r.calls[id].state == Resolved(payload)
  {
    c.(fields := Fields(false, false, Some(payload), Null), calls := SetState(c.calls, id, Resolved(payload)))
  }

  function StepIntended<V>(c: Container<V>, ev: Event<V>): (r: Container<V>)
    requires Enabled(c, ev)
  {
    match ev
    case Resolve(id, d) => SettleOkIntended(c, id, d)
    case _ => Step(c, ev)
  }

  function RunIntended<V>(c: Container<V>, trace: seq<Event<V>>): Option<Container<V>>
    decreases |trace|
  {
    if |trace| == 0 then Some(c)
    else
      match RunIntended(c, AllButLast(trace))
      case None => None
      case Some(prev) => if Enabled(prev, Last(trace)) then Some(StepIntended(prev, Last(trace))) else None
  }

  /** The corrected step and the written one agree on `loading` and on
      every call outcome; they differ only in what a success writes to
      `initial`, `data` and `error`. */
  lemma IntendedAgreesOnLoadingAndOutcomes<V>(c: Container<V>, ev: Event<V>)
    requires Enabled(c, ev)
    ensures StepIntended(c, ev).fields.loading == Step(c, ev).fields.loading
    ensures StepIntended(c, ev).calls == Step(c, ev).calls
    ensures !ev.Resolve? ==> StepIntended(c, ev) == Step(c, ev)
  {
  }

  // ---------------------------------------------------------------------
  // Reference definitions over the trace.

  /** The payload of the latest success not followed by a reset. */
  function LatestData<V>(trace: seq<Event<V>>): Option<V>
    decreases |trace|
  {
    if |trace| == 0 then None
    else match Last(trace)
      case Resolve(_, d) => Some(d)
      case Reset => None
      case _ => LatestData(AllButLast(trace))
  }

  /** The reason of the latest rejection not followed by a success; `null`
      after a success; unassigned if neither has happened. */
  function LatestError<V>(trace: seq<Event<V>>): ErrorSlot<V>
    decreases |trace|
  {
    if |trace| == 0 then Unassigned
    else match Last(trace)
      case Reject(_, e) => Holds(e)
      case Resolve(_, _) => Null
      case _ => LatestError(AllButLast(trace))
  }

  /** No success since the container was built or last reset. */
  function NoSuccessSinceReset<V>(trace: seq<Event<V>>): bool
    decreases |trace|
  {
    if |trace| == 0 then true
    else match Last(trace)
      case Resolve(_, _) => false
      case Reset => true
      case _ => NoSuccessSinceReset(AllButLast(trace))
  }

  /** With the corrected success handler, `data` is the latest payload
      since the last reset, `error` the latest rejection since the last
      success, and `initial` says that no success has happened since the
      last reset. */
  lemma {:induction false} IntendedFieldsFollowTrace<V>(cfg: Config<V>, trace: seq<Event<V>>)
    requires RunIntended(Fresh(cfg), trace).Some?
    ensures RunIntended(Fresh(cfg), trace).value.fields.data == LatestData(trace)
    ensures RunIntended(Fresh(cfg), trace).value.fields.error == LatestError(trace)
    ensures RunIntended(Fresh(cfg), trace).value.fields.initial == NoSuccessSinceReset(trace)
    decreases |trace|
  {
    if |trace| > 0 {
      IntendedFieldsFollowTrace(cfg, AllButLast(trace));
    }
  }

  /** A success after a failure sets `error` to `null` (not back to the
      unassigned `undefined`) and records the payload. */
  lemma IntendedSuccessClearsError<V>(c: Container<V>, id: nat, e: V, d: V)
    requires c.fields.error == Holds(e)
    requires Enabled(c, Resolve(id, d))
    ensures StepIntended(c, Resolve(id, d)).fields.error == Null
    ensures StepIntended(c, Resolve(id, d)).fields.error != Fresh(c.config).fields.error
    ensures StepIntended(c, Resolve(id, d)).fields.data == Some(d)
    ensures Step(c, Resolve(id, d)).fields.error == Holds(e)
  {
  }

  // ---------------------------------------------------------------------
  // Per-instance attachment

  /** The corrected accessor: on the first read of `owner[name]` build a
      container for that owner and cache it against `(owner, name)`; later
      reads return the cached one. The table is `Decorator.Heap` keyed by
      the owning instance rather than by the prototype. */
  function Materialize<V>(h: Decorator.Heap<V>, cfg: Config<V>, owner: Decorator.ObjectId, name: string): (r: (Decorator.Heap<V>, nat))
    requires Decorator.WellFormed(h)
    ensures Decorator.WellFormed(r.0)
    ensures Decorator.Slot(owner, name) in r.0.props && r.0.props[Decorator.Slot(owner, name)] == r.1
    ensures Decorator.Slot(owner, name) in h.props ==> r.0 == h
    ensures Decorator.Slot(owner, name) !in h.props ==> r.1 == |h.containers| && r.0.containers[r.1] == Fresh(cfg)
    ensures forall s :: s in h.props ==> s in r.0.props && r.0.props[s] == h.props[s]
  {
    var slot := Decorator.Slot(owner, name);
    if slot in h.props then (h, h.props[slot])
    else
      Decorator.WrapPreservesWellFormed(h, cfg, owner, name);
      Decorator.Wrap(h, cfg, owner, name)
  }

  /** Reading the field twice from one owner yields the same container. */
  lemma MaterializeIsStable<V>(h: Decorator.Heap<V>, cfg: Config<V>, owner: Decorator.ObjectId, name: string)
    requires Decorator.WellFormed(h)
    ensures var (h1, k1) := Materialize(h, cfg, owner, name);
      Materialize(h1, cfg, owner, name) == (h1, k1)
  {
  }

  /** Two owners reading the same field, with the same configuration, get
      two different containers, and driving one leaves the other as it
      was. */
  lemma InstancesIsolated<V>(h: Decorator.Heap<V>, cfg: Config<V>, a: Decorator.ObjectId, b: Decorator.ObjectId, name: string, ev: Event<V>)
    requires Decorator.WellFormed(h) && a != b
    ensures var (h1, ka) := Materialize(h, cfg, a, name);
      var (h2, kb) := Materialize(h1, cfg, b, name);
      ka != kb && ka < |h2.containers| && kb < |h2.containers|
      && (Enabled(h2.containers[ka], ev) ==>
          h2.containers[ka := Step(h2.containers[ka], ev)][kb] == h2.containers[kb])
  {
    var (h1, ka) := Materialize(h, cfg, a, name);
    var (h2, kb) := Materialize(h1, cfg, b, name);
    assert Decorator.Slot(a, name) in h2.props && Decorator.Slot(b, name) in h2.props;
    assert Decorator.Slot(a, name) != Decorator.Slot(b, name);
  }
}
