/** The loops of the monitor, the controller and the control sender, as the methods they are,
    each proved to carry out its decision of the protocol on the shared store. */
module HandoverHandlers {
  import opened UeKey
  import opened HandoverTypes
  import opened MhoStore
  import RanParam
  import Handover
  import Wrappers

  /** The store after a handler has worked through a sequence of events undisturbed. */
  function HandleAll(ws: set<Recipient>, v: StoreView, r: Recipient, es: seq<Event>): StoreView
    decreases es
  {
    if es == [] then v else HandleAll(ws, Apply(ws, v, OnEvent(v.records, r, es[0])), r, es[1..])
  }

  /** A call of `node.Control`. A header or message that cannot be built is logged and the call
      is made all the same, so the payload is kept as the builder's result. */
  datatype Attempt = Attempt(control: Control, payload: Wrappers.Result<seq<RanParam.Item>>)

  type Validator = seq<RanParam.Item> -> bool

  function AttemptFor(v: MetricValue, accepts: Validator): Attempt {
    Attempt(ControlFor(v), RanParam.CreateRcControlMessage(v.tgtCellId, accepts))
  }

  /** The attempts a sender makes on the way. */
  function AttemptsOf(ws: set<Recipient>, v: StoreView, n: NodeId, es: seq<Event>, accepts: Validator): seq<Attempt>
    decreases es
  {
    if es == [] then [] else
      var d := OnEvent(v.records, Node(n), es[0]);
      (if d.PutValue? then [AttemptFor(d.value, accepts)] else [])
      + AttemptsOf(ws, Apply(ws, v, d), n, es[1..], accepts)
  }

  // ---------- the handlers' loops are runs of the protocol ----------

  function Deliveries(r: Recipient, es: seq<Event>): seq<Handover.Step> {
    seq(|es|, i requires 0 <= i < |es| => Handover.Deliver(Delivery(es[i], r)))
  }

  /** The events, while they are still in flight to the handler. */
  function InFlightTo(r: Recipient, es: seq<Event>): multiset<Delivery> {
    if es == [] then multiset{} else multiset{Delivery(es[0], r)} + InFlightTo(r, es[1..])
  }

  function ControlsIn(attempts: seq<Attempt>): seq<Control> {
    seq(|attempts|, i requires 0 <= i < |attempts| => attempts[i].control)
  }

  function WithInFlight(s: Handover.State, more: multiset<Delivery>): Handover.State {
    s.(view := s.view.(inFlight := s.view.inFlight + more))
  }

  lemma DeliverOne(ws: set<Recipient>, s: Handover.State, r: Recipient, e: Event, more: multiset<Delivery>)
    ensures var d, before := Delivery(e, r), WithInFlight(s, multiset{Delivery(e, r)} + more);
            && Handover.Enabled(ws, before, Handover.Deliver(d))
            && var t, decision := Handover.Do(ws, before, Handover.Deliver(d)), OnEvent(s.view.records, r, e);
            && t == WithInFlight(t.(view := Apply(ws, s.view, decision)), more)
            && t.controls == s.controls + if r.Node? && decision.PutValue? then [ControlFor(decision.value)] else []
  {
    hide GenerateGnbUeIDString, FanOut, OnEvent;
    var all := s.view.inFlight + (multiset{Delivery(e, r)} + more);
    assert all - multiset{Delivery(e, r)} == s.view.inFlight + more;
    var decision := OnEvent(s.view.records, r, e);
    if decision.PutValue? {
      var put := FanOut(ws, EventFor(decision.key in s.view.records, decision.key, decision.state));
      assert s.view.inFlight + more + put == s.view.inFlight + put + more;
    }
  }

  lemma FirstStep(ws: set<Recipient>, s: Handover.State, steps: seq<Handover.Step>)
    requires steps != [] && Handover.Enabled(ws, s, steps[0])
    requires Handover.Legal(ws, Handover.Do(ws, s, steps[0]), steps[1..])
    ensures Handover.Legal(ws, s, steps)
    ensures Handover.Run(ws, s, steps) == Handover.Run(ws, Handover.Do(ws, s, steps[0]), steps[1..])
  {
    hide Handover.Do, Handover.Enabled;
  }

  /** The first attempt and the later ones. */
  lemma NextAttempts(ws: set<Recipient>, v: StoreView, n: NodeId, es: seq<Event>, accepts: Validator, before: seq<Attempt>)
    requires es != []
    ensures var d := OnEvent(v.records, Node(n), es[0]);
            before + (if d.PutValue? then [AttemptFor(d.value, accepts)] else [])
            + AttemptsOf(ws, Apply(ws, v, d), n, es[1..], accepts)
            == before + AttemptsOf(ws, v, n, es, accepts)
  {
    hide OnEvent, Apply, AttemptFor;
    var d := OnEvent(v.records, Node(n), es[0]);
    var now := if d.PutValue? then [AttemptFor(d.value, accepts)] else [];
    var later := AttemptsOf(ws, Apply(ws, v, d), n, es[1..], accepts);
    assert AttemptsOf(ws, v, n, es, accepts) == now + later;
    hide AttemptsOf;
    assert before + now + later == before + (now + later);
  }

  lemma NoAttempts(ws: set<Recipient>, v: StoreView, n: NodeId, accepts: Validator)
    ensures AttemptsOf(ws, v, n, [], accepts) == []
  {
  }

  /** The control attempts that the protocol makes in the same deliveries. */
  function ControlsMade(ws: set<Recipient>, v: StoreView, r: Recipient, es: seq<Event>): seq<Control>
    decreases es
  {
    if es == [] then [] else
      var d := OnEvent(v.records, r, es[0]);
      (if r.Node? && d.PutValue? then [ControlFor(d.value)] else []) + ControlsMade(ws, Apply(ws, v, d), r, es[1..])
  }

  lemma {:induction false} MadeByAttempts(ws: set<Recipient>, v: StoreView, n: NodeId, es: seq<Event>, accepts: Validator)
    ensures ControlsIn(AttemptsOf(ws, v, n, es, accepts)) == ControlsMade(ws, v, Node(n), es)
    decreases es
  {
    hide OnEvent, Apply, ControlFor, RanParam.CreateRcControlMessage;
    if es != [] {
      MadeByAttempts(ws, Apply(ws, v, OnEvent(v.records, Node(n), es[0])), n, es[1..], accepts);
    }
  }

  lemma {:induction false} ControllerMakesNone(ws: set<Recipient>, v: StoreView, es: seq<Event>)
    ensures ControlsMade(ws, v, Controller, es) == []
    decreases es
  {
    hide OnEvent, Apply;
    if es != [] {
      ControllerMakesNone(ws, Apply(ws, v, OnEvent(v.records, Controller, es[0])), es[1..]);
    }
  }

  /** The first delivery, with the others still in flight. */
  lemma DeliverNext(ws: set<Recipient>, s: Handover.State, r: Recipient, es: seq<Event>) returns (u: Handover.State)
    requires es != []
    ensures var before, d := WithInFlight(s, InFlightTo(r, es)), OnEvent(s.view.records, r, es[0]);
            && |Deliveries(r, es)| > 0 && Deliveries(r, es)[1..] == Deliveries(r, es[1..])
            && Handover.Enabled(ws, before, Deliveries(r, es)[0])
            && Handover.Do(ws, before, Deliveries(r, es)[0]) == WithInFlight(u, InFlightTo(r, es[1..]))
            && u.view == Apply(ws, s.view, d)
            && u.controls == s.controls + if r.Node? && d.PutValue? then [ControlFor(d.value)] else []
  {
    hide Handover.Do, Handover.Enabled, OnEvent, Apply, ControlFor;
    DeliverOne(ws, s, r, es[0], InFlightTo(r, es[1..]));
    var t := Handover.Do(ws, WithInFlight(s, InFlightTo(r, es)), Deliveries(r, es)[0]);
    u := t.(view := Apply(ws, s.view, OnEvent(s.view.records, r, es[0])));
  }

  lemma DeliverNone(ws: set<Recipient>, s: Handover.State, r: Recipient)
    ensures Deliveries(r, []) == [] && WithInFlight(s, InFlightTo(r, [])) == s
  {
  }

  lemma {:induction false} DeliverAll(ws: set<Recipient>, s: Handover.State, r: Recipient, es: seq<Event>)
    ensures Handover.Legal(ws, WithInFlight(s, InFlightTo(r, es)), Deliveries(r, es))
    ensures var t := Handover.Run(ws, WithInFlight(s, InFlightTo(r, es)), Deliveries(r, es));
            t.view == HandleAll(ws, s.view, r, es) && t.controls == s.controls + ControlsMade(ws, s.view, r, es)
    decreases es
  {
    hide Handover.Do, Handover.Enabled, OnEvent, Apply, ControlFor, Deliveries, InFlightTo, WithInFlight;
    if es == [] {
      DeliverNone(ws, s, r);
    } else {
      var u := DeliverNext(ws, s, r, es);
      DeliverAll(ws, u, r, es[1..]);
      FirstStep(ws, WithInFlight(s, InFlightTo(r, es)), Deliveries(r, es));
      hide Handover.Legal, Handover.Run;
      assert u.controls + ControlsMade(ws, u.view, r, es[1..]) == s.controls + ControlsMade(ws, s.view, r, es);
    }
  }

  lemma {:induction false} AllInFlight(r: Recipient, es: seq<Event>, ds: seq<Delivery>)
    requires |ds| == |es| && forall i :: 0 <= i < |es| ==> ds[i] == Delivery(es[i], r)
    ensures InFlightTo(r, es) == multiset(ds)
  {
    if es != [] {
      AllInFlight(r, es[1..], ds[1..]);
      assert ds == [ds[0]] + ds[1..];
    }
  }

  lemma SameSteps(r: Recipient, es: seq<Event>, ds: seq<Delivery>, steps: seq<Handover.Step>)
    requires |ds| == |steps| == |es|
    requires forall i :: 0 <= i < |es| ==> ds[i] == Delivery(es[i], r) && steps[i] == Handover.Deliver(ds[i])
    ensures InFlightTo(r, es) == multiset(ds) && Deliveries(r, es) == steps
  {
    AllInFlight(r, es, ds);
  }

  lemma ControlsAppended(before: seq<Control>, attempts: seq<Attempt>)
    ensures var after := before + ControlsIn(attempts);
            && |after| == |before| + |attempts| && before <= after
            && forall i :: 0 <= i < |attempts| ==> after[|before| + i] == attempts[i].control
  {
  }

  /** Working through a sequence of events is the run of the protocol in which just these
      deliveries are made, in this order: same store, same events in flight, and the control
      attempts of the run are those of a sender's loop, or none for the controller's. */
  lemma LoopIsRun(ws: set<Recipient>, s: Handover.State, r: Recipient, es: seq<Event>, ds: seq<Delivery>,
                  steps: seq<Handover.Step>, accepts: Validator)
    requires |ds| == |steps| == |es|
    requires forall i :: 0 <= i < |es| ==> ds[i] == Delivery(es[i], r) && steps[i] == Handover.Deliver(ds[i])
    ensures var before := s.(view := s.view.(inFlight := s.view.inFlight + multiset(ds)));
            && Handover.Legal(ws, before, steps)
            && var t := Handover.Run(ws, before, steps);
            && t.view == HandleAll(ws, s.view, r, es)
            && (r == Controller ==> t.controls == s.controls)
            && (r.Node? ==>
                  var attempts := AttemptsOf(ws, s.view, r.id, es, accepts);
                  && |t.controls| == |s.controls| + |attempts| && s.controls <= t.controls
                  && forall i :: 0 <= i < |attempts| ==> t.controls[|s.controls| + i] == attempts[i].control)
  {
    hide Handover.Run, Handover.Legal, HandleAll, ControlsMade, AttemptsOf, Deliveries, InFlightTo, ControlsIn;
    SameSteps(r, es, ds, steps);
    DeliverAll(ws, s, r, es);
    match r
    case Controller => ControllerMakesNone(ws, s.view, es);
    case Node(n) =>
      MadeByAttempts(ws, s.view, n, es, accepts);
      ControlsAppended(s.controls, AttemptsOf(ws, s.view, n, es, accepts));
  }

  // ---------- what a sender commands ----------

  /** The attempt goes to node `n` and commands the handover that the entry of the approved UE
      asks for, in the control's own fields and, where the monitor would read it, in the message. */
  ghost predicate Commands(records: map<string, MetricValue>, n: NodeId, e: Event, at: Attempt) {
    && e.eventType == Updated && e.state == Approved && e.key in records && records[e.key].e2NodeId == n
    && at.control == Control(n, records[e.key].rawUeId, records[e.key].tgtCellId, records[e.key].callProcessId)
    && (at.payload.Ok? ==> RanParam.HasFixedPath(at.payload.value)
                           && RanParam.FixedPathRead(at.payload.value) == records[e.key].tgtCellId)
  }

  /** Every attempt comes from an approval, and commands what the entry of that UE asked for
      when the sender came to the event. */
  lemma {:induction false} AttemptsNameTheirTarget(ws: set<Recipient>, v: StoreView, n: NodeId, es: seq<Event>,
                                                   accepts: Validator, i: nat) returns (k: nat)
    requires i < |AttemptsOf(ws, v, n, es, accepts)|
    ensures k < |es| && Commands(HandleAll(ws, v, Node(n), es[..k]).records, n, es[k],
                                 AttemptsOf(ws, v, n, es, accepts)[i])
    decreases es
  {
    var d := OnEvent(v.records, Node(n), es[0]);
    if d.PutValue? && i == 0 {
      hide GenerateGnbUeIDString, FanOut, RanParam.CreateRcControlMessage, RanParam.HasFixedPath, RanParam.FixedPathRead;
      if RanParam.CreateRcControlMessage(d.value.tgtCellId, accepts).Ok? {
        RanParam.BuilderRoundTrip(d.value.tgtCellId, accepts);
      }
      k := 0;
    } else {
      hide GenerateGnbUeIDString, FanOut, OnEvent, Apply, Commands;
      var k' := AttemptsNameTheirTarget(ws, Apply(ws, v, d), n, es[1..], accepts, if d.PutValue? then i - 1 else i);
      k := k' + 1;
      assert es[..k][1..] == es[1..][..k'];
    }
  }

  // ---------- what one event does, in the store's terms ----------

  lemma ControllerEffect(ws: set<Recipient>, v: StoreView, e: Event)
    requires e.eventType in {Created, Updated} ==> e.key in v.records
    ensures Apply(ws, v, OnEvent(v.records, Controller, e)) ==
            if e.eventType in {Created, Updated} && e.state in {StateCreated, Denied} then
              StoreView(v.records[e.key := v.records[e.key].(state := Approved)],
                        v.inFlight + FanOut(ws, Event(e.key, Updated, Approved)))
            else v
  {
    hide FanOut;
  }

  lemma SenderEffect(ws: set<Recipient>, v: StoreView, n: NodeId, e: Event)
    requires e.eventType == Updated ==> e.key in v.records
    ensures Apply(ws, v, OnEvent(v.records, Node(n), e)) ==
            if e.eventType == Updated && e.state == Approved && v.records[e.key].e2NodeId == n then
              StoreView(v.records[e.key := v.records[e.key].(state := Done)],
                        v.inFlight + FanOut(ws, Event(e.key, Updated, Done)))
            else v
  {
    hide FanOut;
  }

  lemma MonitorEffect(ws: set<Recipient>, v: StoreView, ind: Indication, key: string)
    requires RendersTo(ind.rawUeId, key)
    ensures Apply(ws, v, OnIndication(v.records, ind)) ==
            if key !in v.records || v.records[key].tgtCellId != ind.tgtCellId then
              StoreView(v.records[key := MetricValue(ind.rawUeId, ind.tgtCellId, StateCreated, ind.callProcessId, ind.node)],
                        v.inFlight + FanOut(ws, Event(key, if key in v.records then Updated else Created, StateCreated)))
            else if v.records[key].state == Denied then
              v.(inFlight := v.inFlight + FanOut(ws, Event(key, Updated, Denied)))
            else v
  {
    hide FanOut, GenerateGnbUeIDString;
    if key in v.records {
      assert v.records[key := v.records[key]] == v.records;
    }
  }

  /** Writing the state of a shared value through the store's own reference changes the entry
      of its key and no other, as long as every value is filed under its own key. */
  lemma StateWrite(store: Store, before: map<string, MetricValue>, key: string, state: MHOState)
    requires store.WellKeyed() && before.Keys == store.records.Keys && key in before
    requires store.records[key].value.Value() == before[key].(state := state)
    requires forall k :: k in before && store.records[k].value != store.records[key].value ==>
               store.records[k].value.Value() == before[k]
    ensures store.Contents() == before[key := before[key].(state := state)]
  {
    hide GenerateGnbUeIDString;
    forall k | k in before && k != key ensures store.records[k].value != store.records[key].value {
      assert RendersTo(store.records[k].value.rawUeId, k) && RendersTo(store.records[key].value.rawUeId, key);
    }
  }

  lemma NoPutNoChange(ws: set<Recipient>, v: StoreView)
    ensures Apply(ws, v, Unsupported) == v && Apply(ws, v, Ignore) == v
  {
  }

  /** What the controller and the senders do to an entry they act on: write the state of the
      shared value in place, then put the value back. */
  method MarkAndPut(metricStore: Store, key: string, nv: Metric, state: MHOState)
    requires metricStore.Valid() && metricStore.WellKeyed()
    requires key in metricStore.records && metricStore.records[key].value == nv
    modifies metricStore`records, metricStore.watchers`inFlight, nv`state
    ensures metricStore.Valid() && metricStore.WellKeyed() && metricStore.records == old(metricStore.records)
    ensures metricStore.watchers.Recipients() == old(metricStore.watchers.Recipients())
    ensures metricStore.View() ==
            Apply(metricStore.watchers.Recipients(), old(metricStore.View()),
                  PutValue(key, old(nv.Value()).(state := state), state))
  {
    hide GenerateGnbUeIDString, FanOut, RendersTo;
    ghost var before := metricStore.Contents();
    assert before[key] == nv.Value();
    nv.state := state;
    StateWrite(metricStore, before, key, state);
    var _ := metricStore.Put(key, nv, state);
    assert metricStore.records == old(metricStore.records);
  }

  class MHOController {
    const metricStore: Store

    constructor (metricStore: Store)
      ensures this.metricStore == metricStore
    {
      this.metricStore := metricStore;
    }

    /** One iteration of `controlHandover`. A missing entry would be a nil dereference. */
    method HandleEvent(e: Event)
      requires metricStore.Valid() && metricStore.WellKeyed()
      requires Reads(Controller, e) ==> e.key in metricStore.records
      modifies metricStore`records, metricStore.watchers`inFlight, metricStore.Objects()`state
      ensures metricStore.Valid() && metricStore.WellKeyed()
      ensures metricStore.View() ==
              Apply(metricStore.watchers.Recipients(), old(metricStore.View()),
                    OnEvent(old(metricStore.View()).records, Controller, e))
      ensures metricStore.View() ==
              if e.eventType in {Created, Updated} && e.state in {StateCreated, Denied} then
                var before := old(metricStore.View());
                StoreView(before.records[e.key := before.records[e.key].(state := Approved)],
                          before.inFlight + FanOut(metricStore.watchers.Recipients(), Event(e.key, Updated, Approved)))
              else old(metricStore.View())
      ensures metricStore.records == old(metricStore.records)
    {
      hide GenerateGnbUeIDString, FanOut, RendersTo, Apply;
      ghost var before := metricStore.View();
      NoPutNoChange(metricStore.watchers.Recipients(), before);
      ControllerEffect(metricStore.watchers.Recipients(), before, e);
      if e.eventType == Created || e.eventType == Updated {
        var v := metricStore.Get(e.key);
        var nv := v.entry.value;
        assert before.records[e.key] == nv.Value();
        if e.state == StateCreated || e.state == Denied {
          MarkAndPut(metricStore, e.key, nv, Approved);
        }
      }
    }

    /** `controlHandover` over the events its channel delivers. */
    method ControlHandover(events: seq<Event>)
      requires metricStore.Valid() && metricStore.WellKeyed()
      requires forall e :: e in events && Reads(Controller, e) ==> e.key in metricStore.records
      modifies metricStore`records, metricStore.watchers`inFlight, metricStore.Objects()`state
      ensures metricStore.Valid() && metricStore.WellKeyed()
      ensures metricStore.View() ==
              HandleAll(metricStore.watchers.Recipients(), old(metricStore.View()), Controller, events)
    {
      hide Apply, OnEvent;
      for i := 0 to |events|
        invariant metricStore.Valid() && metricStore.WellKeyed()
        invariant metricStore.records == old(metricStore.records)
        invariant metricStore.watchers.Recipients() == old(metricStore.watchers.Recipients())
        invariant HandleAll(metricStore.watchers.Recipients(), metricStore.View(), Controller, events[i..]) ==
                  HandleAll(metricStore.watchers.Recipients(), old(metricStore.View()), Controller, events)
      {
        assert events[i..][0] == events[i] && events[i..][1..] == events[i + 1..];
        HandleEvent(events[i]);
      }
    }
  }

  class Manager {
    const metricStore: Store
    /** The generated validator and marshaller of control messages. */
    const accepts: Validator
    /** The calls of `node.Control` so far. */
    var attempts: seq<Attempt>

    constructor (metricStore: Store, accepts: Validator)
      ensures this.metricStore == metricStore && this.accepts == accepts && attempts == []
    {
      this.metricStore, this.accepts, attempts := metricStore, accepts, [];
    }

    /** One iteration of `watchMHOChanges` for one E2 node. */
    method HandleChange(e2NodeId: NodeId, e: Event)
      requires metricStore.Valid() && metricStore.WellKeyed()
      requires Reads(Node(e2NodeId), e) ==> e.key in metricStore.records
      modifies this`attempts, metricStore`records, metricStore.watchers`inFlight, metricStore.Objects()`state
      ensures metricStore.Valid() && metricStore.WellKeyed()
      ensures metricStore.View() ==
              Apply(metricStore.watchers.Recipients(), old(metricStore.View()),
                    OnEvent(old(metricStore.View()).records, Node(e2NodeId), e))
      ensures var d := OnEvent(old(metricStore.View()).records, Node(e2NodeId), e);
              attempts == old(attempts) + (if d.PutValue? then [AttemptFor(d.value, accepts)] else [])
      ensures if e.eventType == Updated && e.state == Approved
                 && old(metricStore.records[e.key].value.e2NodeId) == e2NodeId then
                var before, tgtCellId := old(metricStore.View()), old(metricStore.records[e.key].value.tgtCellId);
                && metricStore.View() ==
                   StoreView(before.records[e.key := before.records[e.key].(state := Done)],
                             before.inFlight + FanOut(metricStore.watchers.Recipients(), Event(e.key, Updated, Done)))
                && attempts == old(attempts)
                   + [Attempt(Control(e2NodeId, old(metricStore.records[e.key].value.rawUeId), tgtCellId,
                                      old(metricStore.records[e.key].value.callProcessId)),
                              RanParam.CreateRcControlMessage(tgtCellId, accepts))]
              else metricStore.View() == old(metricStore.View()) && attempts == old(attempts)
      ensures metricStore.records == old(metricStore.records)
    {
      hide GenerateGnbUeIDString, FanOut, RendersTo, Apply, RanParam.CreateRcControlMessage;
      ghost var before := metricStore.View();
      NoPutNoChange(metricStore.watchers.Recipients(), before);
      SenderEffect(metricStore.watchers.Recipients(), before, e2NodeId, e);
      if e.eventType == Updated {
        var v := metricStore.Get(e.key);
        var nv := v.entry.value;
        assert before.records[e.key] == nv.Value();
        if e.state == Approved && nv.e2NodeId == e2NodeId {
          var rawUeId, tgtCellId := nv.rawUeId, nv.tgtCellId;
          var payload := RanParam.CreateRcControlMessage(tgtCellId, accepts);
          attempts := attempts + [Attempt(Control(e2NodeId, rawUeId, tgtCellId, nv.callProcessId), payload)];
          MarkAndPut(metricStore, e.key, nv, Done);
        }
      }
    }

    /** `watchMHOChanges` over the events its channel delivers. */
    method WatchMHOChanges(e2NodeId: NodeId, events: seq<Event>)
      requires metricStore.Valid() && metricStore.WellKeyed()
      requires forall e :: e in events && Reads(Node(e2NodeId), e) ==> e.key in metricStore.records
      modifies this`attempts, metricStore`records, metricStore.watchers`inFlight, metricStore.Objects()`state
      ensures metricStore.Valid() && metricStore.WellKeyed()
      ensures metricStore.View() ==
              HandleAll(metricStore.watchers.Recipients(), old(metricStore.View()), Node(e2NodeId), events)
      ensures attempts == old(attempts) + AttemptsOf(metricStore.watchers.Recipients(), old(metricStore.View()),
                                                     e2NodeId, events, accepts)
    {
      hide Apply, OnEvent, AttemptFor, AttemptsOf, ControlsIn, FanOut, RanParam.CreateRcControlMessage;
      for i := 0 to |events|
        invariant metricStore.Valid() && metricStore.WellKeyed()
        invariant metricStore.records == old(metricStore.records)
        invariant metricStore.watchers.Recipients() == old(metricStore.watchers.Recipients())
        invariant HandleAll(metricStore.watchers.Recipients(), metricStore.View(), Node(e2NodeId), events[i..]) ==
                  HandleAll(metricStore.watchers.Recipients(), old(metricStore.View()), Node(e2NodeId), events)
        invariant attempts + AttemptsOf(metricStore.watchers.Recipients(), metricStore.View(),
                                        e2NodeId, events[i..], accepts) ==
                  old(attempts) + AttemptsOf(metricStore.watchers.Recipients(), old(metricStore.View()),
                                             e2NodeId, events, accepts)
      {
        assert events[i..][0] == events[i] && events[i..][1..] == events[i + 1..];
        NextAttempts(metricStore.watchers.Recipients(), metricStore.View(), e2NodeId, events[i..], accepts, attempts);
        HandleChange(e2NodeId, events[i]);
      }
      NoAttempts(metricStore.watchers.Recipients(), metricStore.View(), e2NodeId, accepts);
    }
  }

  datatype Outcome = Processed | NotSupported

  class Monitor {
    const metricStore: Store
    const nodeId: NodeId

    constructor (metricStore: Store, nodeId: NodeId)
      ensures this.metricStore == metricStore && this.nodeId == nodeId
    {
      this.metricStore, this.nodeId := metricStore, nodeId;
    }

    /** What both branches that create or replace an entry do. */
    method PutFresh(ind: Indication, key: string)
      requires metricStore.Valid() && metricStore.WellKeyed() && RendersTo(ind.rawUeId, key)
      modifies metricStore`records, metricStore.watchers`inFlight
      ensures metricStore.Valid() && metricStore.WellKeyed()
      ensures metricStore.View() ==
              Apply(metricStore.watchers.Recipients(), old(metricStore.View()),
                    PutValue(key, FreshValue(ind), StateCreated))
      ensures key in metricStore.records && fresh(metricStore.records[key].value)
      ensures var m := metricStore.records[key].value;
              && m.rawUeId == ind.rawUeId && m.tgtCellId == ind.tgtCellId && m.state == StateCreated
              && m.callProcessId == ind.callProcessId && m.e2NodeId == ind.node
    {
      hide GenerateGnbUeIDString, FanOut;
      var metricValue := new Metric(FreshValue(ind));
      var _ := metricStore.Put(key, metricValue, StateCreated);
    }

    /** Puts the entry back unchanged, to trigger the controller once more. */
    method PutAgain(key: string, nv: Metric)
      requires metricStore.Valid() && metricStore.WellKeyed()
      requires key in metricStore.records && metricStore.records[key].value == nv
      modifies metricStore`records, metricStore.watchers`inFlight
      ensures metricStore.Valid() && metricStore.WellKeyed()
      ensures metricStore.View() ==
              Apply(metricStore.watchers.Recipients(), old(metricStore.View()), PutValue(key, nv.Value(), Denied))
    {
      hide RendersTo, FanOut;
      var _ := metricStore.Put(key, nv, Denied);
      assert metricStore.records == old(metricStore.records);
    }

    /** `processInsertIndicationHeader2Message5` on a decoded header and message. The lists it
        indexes must be non-empty; the source panics otherwise. */
    method ProcessInsertIndication(ueId: UeId, message: seq<RanParam.Item>, callProcessId: seq<Byte>)
        returns (outcome: Outcome)
      requires metricStore.Valid() && metricStore.WellKeyed()
      requires ueId.GnbUeId? ==> RanParam.HasFixedPath(message)
      modifies metricStore`records, metricStore.watchers`inFlight
      ensures metricStore.Valid() && metricStore.WellKeyed()
      ensures outcome == NotSupported <==> !ueId.GnbUeId?
      ensures outcome == NotSupported ==> metricStore.View() == old(metricStore.View())
      ensures ueId.GnbUeId? ==>
                metricStore.View() ==
                Apply(metricStore.watchers.Recipients(), old(metricStore.View()),
                      OnIndication(old(metricStore.View()).records,
                                   Indication(nodeId, ueId, RanParam.FixedPathRead(message), callProcessId)))
      ensures ueId.GnbUeId? ==>
                var key, tgtCellId := GenerateGnbUeIDString(ueId.gnb), RanParam.FixedPathRead(message);
                var before, ws := old(metricStore.View()), metricStore.watchers.Recipients();
                metricStore.View() ==
                if key !in before.records || before.records[key].tgtCellId != tgtCellId then
                  StoreView(before.records[key := MetricValue(ueId, tgtCellId, StateCreated, callProcessId, nodeId)],
                            before.inFlight
                            + FanOut(ws, Event(key, if key in before.records then Updated else Created, StateCreated)))
                else if before.records[key].state == Denied then
                  before.(inFlight := before.inFlight + FanOut(ws, Event(key, Updated, Denied)))
                else before
    {
      hide GenerateGnbUeIDString, FanOut, RanParam.FixedPathRead, RanParam.HasFixedPath, Apply;
      ghost var before := metricStore.View();
      if !ueId.GnbUeId? {
        return NotSupported;
      }
      var key := GenerateGnbUeIDString(ueId.gnb);
      var tgtCellId := RanParam.FixedPathRead(message);
      var ind := Indication(nodeId, ueId, tgtCellId, callProcessId);
      var present := metricStore.HasEntry(key);
      if present {
        var v := metricStore.Get(key);
        var nv := v.entry.value;
        assert metricStore.View() == before && before.records[key] == nv.Value();
        if nv.tgtCellId != tgtCellId {
          assert OnIndication(before.records, ind) == PutValue(key, FreshValue(ind), StateCreated);
          PutFresh(ind, key);
        } else if nv.state == Denied {
          assert OnIndication(before.records, ind) == PutValue(key, nv.Value(), Denied);
          PutAgain(key, nv);
        } else {
          assert OnIndication(before.records, ind) == Ignore;
          NoPutNoChange(metricStore.watchers.Recipients(), before);
        }
      } else {
        assert metricStore.View() == before;
        assert OnIndication(before.records, ind) == PutValue(key, FreshValue(ind), StateCreated);
        PutFresh(ind, key);
      }
      assert metricStore.watchers.Recipients() == old(metricStore.watchers.Recipients());
      MonitorEffect(metricStore.watchers.Recipients(), before, ind, key);
      return Processed;
    }
  }
}
