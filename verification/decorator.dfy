/** Attaching containers to objects: `createRequestDecorator(provider)`
    returns `asRequest`, `asRequest(opts)` returns `wrap`, and
    `wrap(target, name)` builds one container and assigns it to
    `target[name]`. For a property decorator `target` is the declaring
    class's prototype, so `wrap` runs once per class definition and field,
    not once per instance. */
module Decorator {
  import opened Request
  import opened AjaxStore

  /** Identity of a JavaScript object (an instance or a prototype). */
  type ObjectId = nat

  /** A property slot `owner[name]`. */
  datatype Slot = Slot(owner: ObjectId, name: string)

  /** The part of the heap decoration touches: every container built so
      far, numbered, and the properties that refer to one. */
  datatype Heap<V> = Heap(containers: seq<Container<V>>, props: map<Slot, nat>)

  /** A live object and its prototype chain, nearest first: for an
      instance of `class Sub extends Base`, `Sub.prototype` then
      `Base.prototype`. */
  datatype Instance = Instance(id: ObjectId, protos: seq<ObjectId>)

  /** One decorated field in a class body: `@asRequest(opts) name`. */
  datatype Application<V> = Application(opts: RequestOptions<V>, target: ObjectId, name: string)

  function EmptyHeap<V>(): Heap<V> {
    Heap([], map[])
  }

  /** Every property refers to a built container, and no two properties
      refer to the same one. */
  ghost predicate WellFormed<V>(h: Heap<V>) {
    && (forall s :: s in h.props ==> h.props[s] < |h.containers|)
    && (forall s, t :: s in h.props && t in h.props && s != t ==> h.props[s] != h.props[t])
  }

  /** `wrap(target, name)` for a decorator configured with `cfg`: a new
      container, numbered after all earlier ones, assigned to
      `target[name]`; every other property is left alone. */
  function Wrap<V>(h: Heap<V>, cfg: Config<V>, target: ObjectId, name: string): (r: (Heap<V>, nat))
    ensures r.1 == |h.containers| && r.0.containers == h.containers + [Fresh(cfg)]
    ensures Slot(target, name) in r.0.props && r.0.props[Slot(target, name)] == r.1
    ensures r.0.props.Keys == h.props.Keys + {Slot(target, name)}
    ensures forall s :: s in h.props && s != Slot(target, name) ==> r.0.props[s] == h.props[s]
  {
    var id := |h.containers|;
    (Heap(h.containers + [Fresh(cfg)], h.props[Slot(target, name) := id]), id)
  }

  /** `createRequestDecorator(provider)(opts)(target, name)`. The provider
      is not part of the state: it is the source of the settlement events. */
  function Decorate<V>(h: Heap<V>, app: Application<V>): (r: (Heap<V>, nat))
    ensures r.1 == |h.containers| && r.1 < |r.0.containers| && r.0.containers[r.1] == Fresh(AsRequest(app.opts))
    ensures Slot(app.target, app.name) in r.0.props && r.0.props[Slot(app.target, app.name)] == r.1
    ensures r.0.containers == h.containers + [Fresh(AsRequest(app.opts))]
    ensures r.0.props.Keys == h.props.Keys + {Slot(app.target, app.name)}
    ensures forall s :: s in h.props && s != Slot(app.target, app.name) ==> r.0.props[s] == h.props[s]
  {
    Wrap(h, AsRequest(app.opts), app.target, app.name)
  }

  /** Decorated fields applied in order, as class definitions run. */
  function DecorateAll<V>(h: Heap<V>, apps: seq<Application<V>>): (r: Heap<V>)
    decreases |apps|
  {
    if |apps| == 0 then h else DecorateAll(Decorate(h, apps[0]).0, apps[1..])
  }

  /** A new container is not referred to by any property that existed
      before the decoration. */
  lemma WrapIsFresh<V>(h: Heap<V>, cfg: Config<V>, target: ObjectId, name: string)
    requires WellFormed(h)
    ensures forall s :: s in h.props ==> h.props[s] != Wrap(h, cfg, target, name).1
  {
  }

  lemma WrapPreservesWellFormed<V>(h: Heap<V>, cfg: Config<V>, target: ObjectId, name: string)
    requires WellFormed(h)
    ensures WellFormed(Wrap(h, cfg, target, name).0)
  {
    var h' := Wrap(h, cfg, target, name).0;
    forall s, t | s in h'.props && t in h'.props && s != t
      ensures h'.props[s] != h'.props[t]
    {
      if s != Slot(target, name) && t != Slot(target, name) {
        assert h'.props[s] == h.props[s] && h'.props[t] == h.props[t];
      }
    }
  }

  /** Any sequence of decorations keeps every container referred to by at
      most one property. */
  lemma {:induction false} DecorateAllPreservesWellFormed<V>(h: Heap<V>, apps: seq<Application<V>>)
    requires WellFormed(h)
    ensures WellFormed(DecorateAll(h, apps))
    ensures |DecorateAll(h, apps).containers| == |h.containers| + |apps|
    decreases |apps|
  {
    if |apps| > 0 {
      WrapPreservesWellFormed(h, AsRequest(apps[0].opts), apps[0].target, apps[0].name);
      DecorateAllPreservesWellFormed(Decorate(h, apps[0]).0, apps[1..]);
    }
  }

  /** The property `name` of the first object from `chain[i]` on that has
      one. */
  function Inherited<V>(h: Heap<V>, chain: seq<ObjectId>, name: string, i: nat): (r: Option<nat>)
    requires i <= |chain|
    ensures r.None? <==> forall j :: i <= j < |chain| ==> Slot(chain[j], name) !in h.props
    ensures r.Some? ==>
      exists j :: i <= j < |chain| && Slot(chain[j], name) in h.props && r.value == h.props[Slot(chain[j], name)]
        && forall m :: i <= m < j ==> Slot(chain[m], name) !in h.props
    decreases |chain| - i
  {
    if i == |chain| then None
    else if Slot(chain[i], name) in h.props then Some(h.props[Slot(chain[i], name)])
    else Inherited(h, chain, name, i + 1)
  }

  /** Reading `instance[name]`: an own property first, then the first
      prototype along the chain that has one. */
  function FieldOf<V>(h: Heap<V>, inst: Instance, name: string): (r: Option<nat>)
    ensures Slot(inst.id, name) in h.props ==> r == Some(h.props[Slot(inst.id, name)])
    ensures Slot(inst.id, name) !in h.props ==>
      (r.None? <==> forall j :: 0 <= j < |inst.protos| ==> Slot(inst.protos[j], name) !in h.props)
    ensures Slot(inst.id, name) !in h.props && r.Some? ==>
      exists j :: 0 <= j < |inst.protos| && Slot(inst.protos[j], name) in h.props
        && r.value == h.props[Slot(inst.protos[j], name)]
        && forall m :: 0 <= m < j ==> Slot(inst.protos[m], name) !in h.props
  {
    if Slot(inst.id, name) in h.props then Some(h.props[Slot(inst.id, name)])
    else Inherited(h, inst.protos, name, 0)
  }

  /** Two different fields, on one object or on two, never hold the same
      container: each decoration made its own. */
  lemma DistinctFieldsDistinctContainers<V>(apps: seq<Application<V>>, s: Slot, t: Slot)
    requires s != t
    requires s in DecorateAll(EmptyHeap<V>(), apps).props && t in DecorateAll(EmptyHeap<V>(), apps).props
    ensures DecorateAll(EmptyHeap<V>(), apps).props[s] != DecorateAll(EmptyHeap<V>(), apps).props[t]
  {
    DecorateAllPreservesWellFormed(EmptyHeap<V>(), apps);
  }

  /** Two instances of one class read the same container through the
      shared prototype chain: the decorator does not isolate instances,
      whether the field was decorated in the class itself or in a base
      class. */
  lemma InstancesShareContainer<V>(h: Heap<V>, a: Instance, b: Instance, name: string)
    requires a.protos == b.protos
    requires exists j :: 0 <= j < |a.protos| && Slot(a.protos[j], name) in h.props
    requires Slot(a.id, name) !in h.props && Slot(b.id, name) !in h.props
    ensures FieldOf(h, a, name).Some? && FieldOf(h, a, name) == FieldOf(h, b, name)
  {
  }

  /** An instance of a subclass reads the container a base-class
      decoration put on the base prototype, unless something nearer on its
      chain has the property. */
  lemma SubclassReadsBaseContainer<V>(h: Heap<V>, inst: Instance, sub: ObjectId, base: ObjectId, name: string)
    requires inst.protos == [sub, base] && Slot(base, name) in h.props
    requires Slot(inst.id, name) !in h.props && Slot(sub, name) !in h.props
    ensures FieldOf(h, inst, name) == Some(h.props[Slot(base, name)])
  {
    assert inst.protos[0] == sub && inst.protos[1] == base;
    var r := FieldOf(h, inst, name);
    assert r.Some?;
    var j :| 0 <= j < |inst.protos| && Slot(inst.protos[j], name) in h.props
      && r.value == h.props[Slot(inst.protos[j], name)];
    assert j == 1;
  }

  /** Drives the container read through `inst[name]` by one event. */
  function Use<V>(h: Heap<V>, inst: Instance, name: string, ev: Event<V>): (r: Heap<V>)
    requires FieldOf(h, inst, name).Some? && FieldOf(h, inst, name).value < |h.containers|
    requires Enabled(h.containers[FieldOf(h, inst, name).value], ev)
    ensures r.props == h.props && |r.containers| == |h.containers|
    ensures forall k :: 0 <= k < |h.containers| && k != FieldOf(h, inst, name).value ==> r.containers[k] == h.containers[k]
  {
    var k := FieldOf(h, inst, name).value;
    h.(containers := h.containers[k := Step(h.containers[k], ev)])
  }

  /** A fetch started through one instance shows through another instance
      of the same class. */
  lemma FetchLeaksAcrossInstances<V>(h: Heap<V>, a: Instance, b: Instance, name: string, p: V)
    requires WellFormed(h)
    requires a.protos == b.protos
    requires exists j :: 0 <= j < |a.protos| && Slot(a.protos[j], name) in h.props
    requires Slot(a.id, name) !in h.props && Slot(b.id, name) !in h.props
    ensures var h' := Use(h, a, name, Fetch(p));
      h'.containers[FieldOf(h', b, name).value].fields.loading
  {
  }
}
