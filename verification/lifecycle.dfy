/** Properties of a container over whole traces: arbitrary interleavings
    of overlapping `fetch` calls, their settlements and `reset`. */
module Lifecycle {
  import opened Request
  import opened AjaxStore

  /** A trace is possible for a container freshly built from `cfg`. */
  ghost predicate Possible<V>(cfg: Config<V>, trace: seq<Event<V>>) {
    Run(Fresh(cfg), trace).Some?
  }

  /** The container after a possible trace. */
  ghost function After<V>(cfg: Config<V>, trace: seq<Event<V>>): Container<V>
    requires Possible(cfg, trace)
  {
    Run(Fresh(cfg), trace).value
  }

  // ---------------------------------------------------------------------
  // Reference definitions read off the trace alone.

  /** The reason of the most recent catch handler, or `Unassigned` if none
      ran. */
  function LastRejection<V>(trace: seq<Event<V>>): ErrorSlot<V>
    decreases |trace|
  {
    if |trace| == 0 then Unassigned
    else if Last(trace).Reject? then Holds(Last(trace).reason)
    else LastRejection(AllButLast(trace))
  }

  /** The parameters of every `fetch` call, in issue order. */
  function IssuedParams<V>(trace: seq<Event<V>>): seq<V>
    decreases |trace|
  {
    if |trace| == 0 then []
    else if Last(trace).IsStart() then IssuedParams(AllButLast(trace)) + [Last(trace).params]
    else IssuedParams(AllButLast(trace))
  }

  /** How many calls are outstanding: a counter a design with in-flight
      counting would keep, and this one does not. */
  function InFlight<V>(calls: seq<Call<V>>): nat
    decreases |calls|
  {
    if |calls| == 0 then 0
    else InFlight(AllButLast(calls)) + (if Last(calls).state.Pending? || Last(calls).state.Caught? then 1 else 0)
  }

  // ---------------------------------------------------------------------
  // Invariants of every reachable container.

  /** Nothing but the initialisers and `reset` writes `data` and `initial`,
      so every reachable container still has `data = null` and
      `initial = true`, whatever has settled. */
  lemma {:induction false} NeverLeavesInitial<V>(cfg: Config<V>, trace: seq<Event<V>>)
    requires Possible(cfg, trace)
    ensures After(cfg, trace).fields.data.None?
    ensures After(cfg, trace).fields.initial
    ensures After(cfg, trace).config == cfg
    decreases |trace|
  {
    if |trace| > 0 {
      NeverLeavesInitial(cfg, AllButLast(trace));
    }
  }

  /** Last write wins, no counting: after any non-empty trace, from any
      container, `loading` is true exactly when the latest event started a
      fetch, however many earlier calls are still outstanding. */
  lemma LoadingFollowsLatestEvent<V>(c: Container<V>, trace: seq<Event<V>>)
    requires Run(c, trace).Some? && |trace| > 0
    ensures Run(c, trace).value.fields.loading <==> Last(trace).IsStart()
  {
    var prev := Run(c, AllButLast(trace));
    assert prev.Some? && Enabled(prev.value, Last(trace));
    assert Run(c, trace).value == Step(prev.value, Last(trace));
  }

  /** `loading` is only ever true while the most recently issued call is
      pending, or its provider threw at once. */
  lemma LoadingImpliesLatestCallOutstanding<V>(cfg: Config<V>, trace: seq<Event<V>>)
    requires Possible(cfg, trace)
    ensures After(cfg, trace).fields.loading ==>
      |After(cfg, trace).calls| > 0
      && (Last(After(cfg, trace).calls).state.Pending? || Last(After(cfg, trace).calls).state.Threw?)
  {
    if |trace| > 0 {
      var prev := Run(Fresh(cfg), AllButLast(trace));
      assert prev.Some? && Enabled(prev.value, Last(trace));
      assert After(cfg, trace) == Step(prev.value, Last(trace));
    }
  }

  /** `error` always holds the reason given to the most recent catch
      handler (or is still unassigned): a later rejection overwrites an earlier
      one whatever order the calls were issued in, and no success or reset
      clears it. */
  lemma {:induction false} ErrorIsLatestRejection<V>(cfg: Config<V>, trace: seq<Event<V>>)
    requires Possible(cfg, trace)
    ensures After(cfg, trace).fields.error == LastRejection(trace)
    decreases |trace|
  {
    if |trace| > 0 {
      ErrorIsLatestRejection(cfg, AllButLast(trace));
    }
  }

  /** Call `k` was handed the captured `url`, `method` and `extraData`, with
      the `k`-th fetch's parameters as both `body` and `query`. */
  lemma {:induction false} ProviderSeesIssuedParams<V>(cfg: Config<V>, trace: seq<Event<V>>)
    requires Possible(cfg, trace)
    ensures |After(cfg, trace).calls| == |IssuedParams(trace)|
    ensures forall k :: 0 <= k < |After(cfg, trace).calls| ==>
      After(cfg, trace).calls[k].args == ProviderArgs(cfg, IssuedParams(trace)[k])
    decreases |trace|
  {
    if |trace| > 0 {
      var before := AllButLast(trace);
      ProviderSeesIssuedParams(cfg, before);
      NeverLeavesInitial(cfg, before);
      var prev := After(cfg, before);
      assert Enabled(prev, Last(trace));
      assert After(cfg, trace) == Step(prev, Last(trace));
    }
  }

  /** Every reason recorded in `error` is the rejection of some issued call,
      and the failure reaches both channels: that call's promise has been
      or will be rejected with the very same value. */
  lemma {:induction false} ErrorComesFromRejectedCall<V>(cfg: Config<V>, trace: seq<Event<V>>)
    requires Possible(cfg, trace)
    ensures var c := After(cfg, trace);
      c.fields.error.Holds? ==>
        exists k :: 0 <= k < |c.calls| &&
          (c.calls[k].state == Caught(c.fields.error.reason) || c.calls[k].state == Rejected(c.fields.error.reason))
    decreases |trace|
  {
    if |trace| > 0 {
      var before := AllButLast(trace);
      ErrorComesFromRejectedCall(cfg, before);
      var prev := After(cfg, before);
      var ev := Last(trace);
      assert Enabled(prev, ev);
      var c := Step(prev, ev);
      assert After(cfg, trace) == c;
      if c.fields.error.Holds? {
        var e := c.fields.error.reason;
        if ev.Reject? {
          assert c.calls[ev.id].state == Caught(e);
        } else {
          var k :| 0 <= k < |prev.calls| && (prev.calls[k].state == Caught(e) || prev.calls[k].state == Rejected(e));
          assert c.calls[k].state == Caught(e) || c.calls[k].state == Rejected(e);
        }
      }
    }
  }

  /** Once any call has been rejected, `error` holds a reason for good. */
  lemma {:induction false} RejectionIsNeverForgotten<V>(cfg: Config<V>, trace: seq<Event<V>>)
    requires Possible(cfg, trace)
    ensures var c := After(cfg, trace);
      (exists k :: 0 <= k < |c.calls| && (c.calls[k].state.Caught? || c.calls[k].state.Rejected?))
      ==> c.fields.error.Holds?
    decreases |trace|
  {
    if |trace| > 0 {
      var before := AllButLast(trace);
      RejectionIsNeverForgotten(cfg, before);
      var prev := After(cfg, before);
      var ev := Last(trace);
      assert Enabled(prev, ev);
      var c := Step(prev, ev);
      assert After(cfg, trace) == c;
      if exists k :: 0 <= k < |c.calls| && (c.calls[k].state.Caught? || c.calls[k].state.Rejected?) {
        var k :| 0 <= k < |c.calls| && (c.calls[k].state.Caught? || c.calls[k].state.Rejected?);
        if !ev.Reject? {
          assert k < |prev.calls|;
          assert prev.calls[k].state.Caught? || prev.calls[k].state.Rejected?;
        }
      }
    }
  }

  /** A call that has settled (resolved, rejected or thrown) keeps its
      outcome under every later event. */
  lemma SettledCallsStaySettled<V>(c: Container<V>, ev: Event<V>, k: nat)
    requires Enabled(c, ev) && k < |c.calls|
    requires c.calls[k].state.Resolved? || c.calls[k].state.Rejected? || c.calls[k].state.Threw?
    ensures k < |Step(c, ev).calls| && Step(c, ev).calls[k] == c.calls[k]
  {
    match ev
    case Fetch(p) => assert Step(c, ev).calls[..|c.calls|] == c.calls;
    case FetchThrows(p, e) => assert Step(c, ev).calls[..|c.calls|] == c.calls;
    case _ =>
  }

  // ---------------------------------------------------------------------
  // One failing call, both channels.

  /** A rejection sets `error` and lowers `loading` in the catch handler;
      the following finally handler rejects fetch's promise with that same
      value and leaves `error` holding it. */
  lemma RejectionReachesBothChannels<V>(c: Container<V>, id: nat, reason: V)
    requires Enabled(c, Reject(id, reason))
    ensures var caught := Step(c, Reject(id, reason));
      caught.fields.error == Holds(reason) && !caught.fields.loading
      && Enabled(caught, Finally(id))
      && var done := Step(caught, Finally(id));
         done.calls[id].state == Rejected(reason) && done.fields.error == Holds(reason) && !done.fields.loading
  {
  }

  // ---------------------------------------------------------------------
  // reset

  /** `reset` twice is `reset` once. */
  lemma ResetIdempotent<V>(c: Container<V>)
    ensures ResetStore(ResetStore(c)) == ResetStore(c)
  {
  }

  /** After `reset` the container looks freshly built, except that `error`
      keeps whatever it held. */
  lemma ResetLooksFresh<V>(c: Container<V>)
    ensures ResetStore(c).fields == Fresh(c.config).fields.(error := c.fields.error)
  {
  }

  /** `reset` cancels nothing: exactly the same settlements can still
      happen afterwards, and each applies its own update. */
  lemma ResetCancelsNothing<V>(c: Container<V>, ev: Event<V>)
    ensures Enabled(ResetStore(c), ev) <==> Enabled(c, ev)
    ensures Enabled(c, ev) && ev.Reject? ==> Step(ResetStore(c), ev).fields.error == Holds(ev.reason)
  {
  }

  /** Since `data` and `initial` never leave their initial values, `reset`
      on any reachable container only lowers `loading`. */
  lemma ResetOnlyLowersLoading<V>(cfg: Config<V>, trace: seq<Event<V>>)
    requires Possible(cfg, trace)
    ensures ResetStore(After(cfg, trace)).fields == After(cfg, trace).fields.(loading := false)
  {
    NeverLeavesInitial(cfg, trace);
  }

  // ---------------------------------------------------------------------
  // Scenarios

  /** A pending call counts towards `InFlight`. */
  lemma {:induction false} PendingCallIsInFlight<V>(calls: seq<Call<V>>, k: nat)
    requires k < |calls| && calls[k].state.Pending?
    ensures InFlight(calls) > 0
    decreases |calls|
  {
    if k < |calls| - 1 {
      PendingCallIsInFlight(AllButLast(calls), k);
    }
  }

  /** Two overlapping fetches from any container: the first to settle
      lowers `loading` while the other is still outstanding, so `loading`
      is false with a call in flight. */
  lemma OverlappingFetchesDoNotCount<V>(c: Container<V>, p: V, q: V, d: V)
    ensures var n := |c.calls|;
      var c2 := Step(Step(c, Fetch(p)), Fetch(q));
      Enabled(c2, Resolve(n, d))
      && var c3 := Step(c2, Resolve(n, d));
         !c3.fields.loading && c3.calls[n + 1].state.Pending? && InFlight(c3.calls) > 0
  {
    var n := |c.calls|;
    var c3 := Step(Step(Step(c, Fetch(p)), Fetch(q)), Resolve(n, d));
    PendingCallIsInFlight(c3.calls, n + 1);
  }

  /** Settlement order, not issue order, decides `error`: of two
      overlapping calls, the one issued first but rejected last is the one
      recorded. */
  lemma LatestSettlementWins<V>(c: Container<V>, p: V, q: V, first: V, second: V)
    ensures var n := |c.calls|;
      var c2 := Step(Step(c, Fetch(p)), Fetch(q));
      Enabled(c2, Reject(n + 1, second))
      && var c3 := Step(c2, Reject(n + 1, second));
         Enabled(c3, Reject(n, first))
         && Step(c3, Reject(n, first)).fields.error == Holds(first)
  {
  }

  /** A provider that throws synchronously, in any reachable state, leaves
      `loading` raised and `error` as it was (it holds a reason only if an
      earlier rejection stored one), and records the new call as thrown. */
  lemma ThrowingProviderLeavesLoading<V>(cfg: Config<V>, trace: seq<Event<V>>, p: V, reason: V)
    requires Possible(cfg, trace)
    ensures var c := After(cfg, trace);
      var c' := Step(c, FetchThrows(p, reason));
      c'.fields.loading && c'.fields.error == c.fields.error
      && |c'.calls| == |c.calls| + 1 && c'.calls[|c.calls|].state == Threw(reason)
      && c'.fields.error == LastRejection(trace)
  {
    ErrorIsLatestRejection(cfg, trace);
  }

  /** A call whose provider threw stays thrown under any later trace, and no
      settlement of it is ever enabled: nothing will lower `loading` on its
      behalf. */
  lemma {:induction false} ThrownCallNeverSettles<V>(c: Container<V>, trace: seq<Event<V>>, k: nat)
    requires k < |c.calls| && c.calls[k].state.Threw?
    requires Run(c, trace).Some?
    ensures k < |Run(c, trace).value.calls| && Run(c, trace).value.calls[k] == c.calls[k]
    ensures forall ev: Event<V> ::
              (ev.Resolve? || ev.Reject? || ev.Finally?) && ev.id == k ==> !Enabled(Run(c, trace).value, ev)
    decreases |trace|
  {
    if |trace| > 0 {
      ThrownCallNeverSettles(c, AllButLast(trace), k);
      var prev := Run(c, AllButLast(trace)).value;
      assert Enabled(prev, Last(trace));
      SettledCallsStaySettled(prev, Last(trace), k);
      assert Run(c, trace).value == Step(prev, Last(trace));
    }
  }

  // ---------------------------------------------------------------------
  // Where the code as written parts from what its tests expect

  /** A successful fetch resolves with the payload, but nothing copies the
      payload into `data` or clears `initial`: there is no `.then` in the
      chain. */
  lemma SuccessLeavesDataNull<V>(cfg: Config<V>, p: V, d: V)
    ensures var c1 := Step(Fresh(cfg), Fetch(p));
      Enabled(c1, Resolve(0, d))
      && var c2 := Step(c1, Resolve(0, d));
         c2.calls[0].state == Resolved(d) && c2.fields.data.None? && c2.fields.initial
  {
  }

  /** After a failed fetch, a successful one, from any container, leaves
      the failure's reason in `error`. */
  lemma ErrorSurvivesSuccess<V>(c: Container<V>, p: V, q: V, e: V, d: V)
    ensures var n := |c.calls|;
      var c1 := Step(c, Fetch(p));
      Enabled(c1, Reject(n, e))
      && var c2 := Step(c1, Reject(n, e));
         Enabled(c2, Finally(n))
         && var c4 := Step(Step(c2, Finally(n)), Fetch(q));
            Enabled(c4, Resolve(n + 1, d))
            && var c5 := Step(c4, Resolve(n + 1, d));
               c5.calls[n + 1].state == Resolved(d) && c5.fields.error == Holds(e)
  {
  }
}
