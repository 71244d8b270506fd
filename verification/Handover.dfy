/** The handover protocol with one handler iteration per step: monitors, the controller and
    the senders act on the store in any order, and events are delivered in any order. */
module Handover {
  import opened Wrappers
  import opened UeKey
  import opened HandoverTypes

  /** `log` holds the indications processed, `puts` the events emitted, `controls` the
      control attempts, `received` the number of deliveries. */
  datatype State = State(view: StoreView, log: seq<Indication>, puts: seq<Event>,
                         controls: seq<Control>, received: nat)

  datatype Step = Indicate(ind: Indication) | Deliver(d: Delivery)

  const Init: State := State(StoreView(map[], multiset{}), [], [], [], 0)

  predicate Enabled(ws: set<Recipient>, s: State, step: Step) {
    match step
    case Indicate(ind) => Node(ind.node) in ws
    case Deliver(d) => d in s.view.inFlight
  }

  function Commit(ws: set<Recipient>, s: State, d: Decision): State {
    if d.PutValue?
    then s.(view := Apply(ws, s.view, d), puts := s.puts + [EventFor(d.key in s.view.records, d.key, d.state)])
    else s
  }

  function DecisionOf(s: State, step: Step): Decision {
    match step
    case Indicate(ind) => OnIndication(s.view.records, ind)
    case Deliver(d) => OnEvent(s.view.records, d.to, d.event)
  }

  function Do(ws: set<Recipient>, s: State, step: Step): State
    requires Enabled(ws, s, step)
  {
    var decision := DecisionOf(s, step);
    match step
    case Indicate(ind) => Commit(ws, s.(log := s.log + [ind]), decision)
    case Deliver(d) =>
      var taken := s.(view := s.view.(inFlight := s.view.inFlight - multiset{d}), received := s.received + 1);
      Commit(ws, if d.to.Node? && decision.PutValue?
                 then taken.(controls := s.controls + [ControlFor(decision.value)]) else taken, decision)
  }

  predicate Legal(ws: set<Recipient>, s: State, steps: seq<Step>)
    decreases |steps|
  {
    steps == [] || (Enabled(ws, s, steps[0]) && Legal(ws, Do(ws, s, steps[0]), steps[1..]))
  }

  function Run(ws: set<Recipient>, s: State, steps: seq<Step>): State
    requires Legal(ws, s, steps)
    decreases |steps|
  {
    if steps == [] then s else Run(ws, Do(ws, s, steps[0]), steps[1..])
  }

  /** The indications processed in a run. */
  function IndicationsIn(steps: seq<Step>): seq<Indication> {
    if steps == [] then [] else
      (if steps[0].Indicate? then [steps[0].ind] else []) + IndicationsIn(steps[1..])
  }

  lemma StepLog(ws: set<Recipient>, s: State, step: Step)
    requires Enabled(ws, s, step)
    ensures Do(ws, s, step).log == s.log + if step.Indicate? then [step.ind] else []
  {
    hide GenerateGnbUeIDString, FanOut;
  }

  lemma {:induction false} LogIsInput(ws: set<Recipient>, s: State, steps: seq<Step>)
    requires Legal(ws, s, steps)
    ensures Run(ws, s, steps).log == s.log + IndicationsIn(steps)
    decreases |steps|
  {
    if steps != [] {
      StepLog(ws, s, steps[0]);
      hide Do, Enabled;
      LogIsInput(ws, Do(ws, s, steps[0]), steps[1..]);
    }
  }

  // ---------- what the log says should happen ----------

  /** The indications for one UE that create or replace its entry: the first, and each one
      whose target differs from that of the previous accepted one. */
  function Accepted(log: seq<Indication>, key: string): seq<Indication> {
    if log == [] then [] else
      var before, ind := Accepted(log[..|log| - 1], key), log[|log| - 1];
      if RendersTo(ind.rawUeId, key) && (before == [] || before[|before| - 1].tgtCellId != ind.tgtCellId)
      then before + [ind] else before
  }

  /** The last indication processed for one UE. */
  function LastFor(log: seq<Indication>, key: string): Option<Indication> {
    if log == [] then None
    else if RendersTo(log[|log| - 1].rawUeId, key) then Some(log[|log| - 1])
    else LastFor(log[..|log| - 1], key)
  }

  /** The control attempts for one UE, in order. */
  function ControlsOf(cs: seq<Control>, key: string): seq<Control> {
    if cs == [] then [] else
      var before, c := ControlsOf(cs[..|cs| - 1], key), cs[|cs| - 1];
      if RendersTo(c.rawUeId, key) then before + [c] else before
  }

  /** The control attempts that a sequence of indications asks for. */
  function ControlsFor(inds: seq<Indication>): seq<Control> {
    if inds == [] then [] else
      var ind := inds[|inds| - 1];
      ControlsFor(inds[..|inds| - 1]) + [Control(ind.node, ind.rawUeId, ind.tgtCellId, ind.callProcessId)]
  }

  lemma {:induction false} AcceptedAreLogged(log: seq<Indication>, key: string, a: Indication)
    requires a in Accepted(log, key)
    ensures a in log && RendersTo(a.rawUeId, key)
  {
    var before, ind := log[..|log| - 1], log[|log| - 1];
    if a in Accepted(before, key) {
      AcceptedAreLogged(before, key, a);
    } else {
      assert a == ind;
    }
  }

  /** The entry's target is current: the last accepted indication asks for the same target
      as the last indication, and there is one exactly when the UE was ever seen. */
  lemma {:induction false} AcceptedEndsAtLastTarget(log: seq<Indication>, key: string)
    ensures (Accepted(log, key) == []) == LastFor(log, key).None?
    ensures LastFor(log, key).Some? ==>
              var acc := Accepted(log, key);
              acc[|acc| - 1].tgtCellId == LastFor(log, key).value.tgtCellId
  {
    if log != [] {
      AcceptedEndsAtLastTarget(log[..|log| - 1], key);
    }
  }

  lemma LogSnoc(log: seq<Indication>, ind: Indication, key: string)
    ensures Accepted(log + [ind], key) ==
            var before := Accepted(log, key);
            if RendersTo(ind.rawUeId, key) && (before == [] || before[|before| - 1].tgtCellId != ind.tgtCellId)
            then before + [ind] else before
  {
    assert (log + [ind])[..|log|] == log;
  }

  lemma ControlsSnoc(cs: seq<Control>, c: Control, key: string)
    ensures ControlsOf(cs + [c], key) ==
            if RendersTo(c.rawUeId, key) then ControlsOf(cs, key) + [c] else ControlsOf(cs, key)
  {
    assert (cs + [c])[..|cs|] == cs;
  }

  // ---------- the inductive invariant ----------

  predicate Pending(s: State, key: string, state: MHOState, r: Recipient) {
    Delivery(Event(key, Created, state), r) in s.view.inFlight
    || Delivery(Event(key, Updated, state), r) in s.view.inFlight
  }

  /** What the entry of one UE is, against the logs and the events in flight. */
  predicate EntryOk(ws: set<Recipient>, s: State, key: string) {
    var acc := Accepted(s.log, key);
    var ctl := ControlsOf(s.controls, key);
    if key !in s.view.records then acc == [] && ctl == [] else
      var v := s.view.records[key];
      && acc != [] && OriginOf(v) == acc[|acc| - 1]
      && RendersTo(v.rawUeId, key) && Node(v.e2NodeId) in ws
      && match v.state
         case StateCreated => Pending(s, key, StateCreated, Controller)
         case Approved => Delivery(Event(key, Updated, Approved), Node(v.e2NodeId)) in s.view.inFlight
         case Done => ctl != [] && ctl[|ctl| - 1] == ControlFor(v)
         case _ => false
  }

  predicate DeliveryOk(ws: set<Recipient>, s: State, d: Delivery) {
    && d.event.key in s.view.records && d.to in ws
    && (d.event.eventType == Created || d.event.eventType == Updated)
    && (d.event.state == StateCreated || d.event.state == Approved || d.event.state == Done)
    && (d.event.state == Approved ==> d.event.eventType == Updated)
  }

  ghost predicate Inv(ws: set<Recipient>, s: State) {
    && Controller in ws
    && (forall key: string :: EntryOk(ws, s, key))
    && (forall d :: d in s.view.inFlight ==> DeliveryOk(ws, s, d))
  }

  lemma InitInv(ws: set<Recipient>)
    requires Controller in ws
    ensures Inv(ws, Init)
  {
  }

  /** A step that leaves one UE's record, log and controls alone, and takes none of its
      awaited events, keeps its entry. */
  lemma EntryFrame(ws: set<Recipient>, s: State, s': State, key: string)
    requires EntryOk(ws, s, key)
    requires (key in s.view.records) == (key in s'.view.records)
    requires key in s.view.records ==> s.view.records[key] == s'.view.records[key]
    requires Accepted(s.log, key) == Accepted(s'.log, key)
    requires ControlsOf(s.controls, key) == ControlsOf(s'.controls, key)
    requires forall d :: d in s.view.inFlight && d.event.key == key ==> d in s'.view.inFlight
    ensures EntryOk(ws, s', key)
  {
  }

  lemma IndicateKeepsEntry(ws: set<Recipient>, s: State, ind: Indication, key: string)
    requires Inv(ws, s) && Enabled(ws, s, Indicate(ind))
    ensures EntryOk(ws, Do(ws, s, Indicate(ind)), key)
  {
    LogSnoc(s.log, ind, key);
    assert EntryOk(ws, s, key);
    var s' := Do(ws, s, Indicate(ind));
    var d := DecisionOf(s, Indicate(ind));
    if !RendersTo(ind.rawUeId, key) || !d.PutValue? {
      EntryFrame(ws, s, s', key);
    } else {
      var e := EventFor(key in s.view.records, key, StateCreated);
      assert Delivery(e, Controller) in FanOut(ws, e);
    }
  }

  lemma DeliverKeepsOtherEntry(ws: set<Recipient>, s: State, d: Delivery, key: string)
    requires Inv(ws, s) && Enabled(ws, s, Deliver(d)) && d.event.key != key
    ensures EntryOk(ws, Do(ws, s, Deliver(d)), key)
  {
    assert EntryOk(ws, s, key) && EntryOk(ws, s, d.event.key) && DeliveryOk(ws, s, d);
    if d.to.Node? && DecisionOf(s, Deliver(d)).PutValue? {
      ControlsSnoc(s.controls, ControlFor(DecisionOf(s, Deliver(d)).value), key);
    }
    EntryFrame(ws, s, Do(ws, s, Deliver(d)), key);
  }

  lemma ControllerKeepsEntry(ws: set<Recipient>, s: State, e: Event)
    requires Inv(ws, s) && Enabled(ws, s, Deliver(Delivery(e, Controller)))
    ensures EntryOk(ws, Do(ws, s, Deliver(Delivery(e, Controller))), e.key)
  {
    assert EntryOk(ws, s, e.key) && DeliveryOk(ws, s, Delivery(e, Controller));
    var s' := Do(ws, s, Deliver(Delivery(e, Controller)));
    var v := s.view.records[e.key];
    if e.state == StateCreated {
      var approval := Event(e.key, Updated, Approved);
      assert Delivery(approval, Node(v.e2NodeId)) in FanOut(ws, approval);
      ApprovedEntry(ws, s, s', e.key);
    } else {
      EntryOtherEvent(ws, s, s', Delivery(e, Controller));
    }
  }

  lemma ApprovedEntry(ws: set<Recipient>, s: State, s': State, key: string)
    requires EntryOk(ws, s, key) && key in s.view.records
    requires s'.view.records == s.view.records[key := s.view.records[key].(state := Approved)]
    requires s'.log == s.log && s'.controls == s.controls
    requires Delivery(Event(key, Updated, Approved), Node(s.view.records[key].e2NodeId)) in s'.view.inFlight
    ensures EntryOk(ws, s', key)
  {
  }

  lemma DoneEntry(ws: set<Recipient>, s: State, s': State, key: string)
    requires EntryOk(ws, s, key) && key in s.view.records
    requires s'.view.records == s.view.records[key := s.view.records[key].(state := Done)]
    requires s'.log == s.log && s'.controls == s.controls + [ControlFor(s.view.records[key])]
    ensures EntryOk(ws, s', key)
  {
    ControlsSnoc(s.controls, ControlFor(s.view.records[key]), key);
  }

  /** Taking an event the entry does not wait for keeps it. */
  lemma EntryOtherEvent(ws: set<Recipient>, s: State, s': State, d: Delivery)
    requires EntryOk(ws, s, d.event.key)
    requires s' == s.(view := s.view.(inFlight := s.view.inFlight - multiset{d}), received := s.received + 1)
    requires d.event.key in s.view.records
    requires d.to == Controller ==> d.event.state != StateCreated
    requires d.to == Node(s.view.records[d.event.key].e2NodeId) ==>
               d.event.state != Approved || d.event.eventType != Updated
    ensures EntryOk(ws, s', d.event.key)
  {
  }

  lemma SenderKeepsEntry(ws: set<Recipient>, s: State, n: NodeId, e: Event)
    requires Inv(ws, s) && Enabled(ws, s, Deliver(Delivery(e, Node(n))))
    ensures EntryOk(ws, Do(ws, s, Deliver(Delivery(e, Node(n)))), e.key)
  {
    assert EntryOk(ws, s, e.key) && DeliveryOk(ws, s, Delivery(e, Node(n)));
    var s' := Do(ws, s, Deliver(Delivery(e, Node(n))));
    if DecisionOf(s, Deliver(Delivery(e, Node(n)))).PutValue? {
      DoneEntry(ws, s, s', e.key);
    } else {
      EntryOtherEvent(ws, s, s', Delivery(e, Node(n)));
    }
  }

  lemma StepKeepsInv(ws: set<Recipient>, s: State, step: Step)
    requires Inv(ws, s) && Enabled(ws, s, step)
    ensures Inv(ws, Do(ws, s, step))
  {
    var s' := Do(ws, s, step);
    forall key: string ensures EntryOk(ws, s', key) {
      match step
      case Indicate(ind) => IndicateKeepsEntry(ws, s, ind, key);
      case Deliver(d) =>
        if d.event.key != key {
          DeliverKeepsOtherEntry(ws, s, d, key);
        } else {
          match d.to
          case Controller => ControllerKeepsEntry(ws, s, d.event);
          case Node(n) => SenderKeepsEntry(ws, s, n, d.event);
        }
    }
    forall d | d in s'.view.inFlight ensures DeliveryOk(ws, s', d) {
      if d in s.view.inFlight {
        assert DeliveryOk(ws, s, d);
      }
      match step
      case Indicate(ind) =>
        if ind.rawUeId.GnbUeId? {
          assert EntryOk(ws, s, GenerateGnbUeIDString(ind.rawUeId.gnb));
        }
      case Deliver(taken) => assert DeliveryOk(ws, s, taken);
    }
  }

  lemma {:induction false} RunKeepsInv(ws: set<Recipient>, s: State, steps: seq<Step>)
    requires Inv(ws, s) && Legal(ws, s, steps)
    decreases |steps|
    ensures Inv(ws, Run(ws, s, steps))
  {
    if steps != [] {
      StepKeepsInv(ws, s, steps[0]);
      RunKeepsInv(ws, Do(ws, s, steps[0]), steps[1..]);
    }
  }

  /** The UE has an entry exactly if it was seen, and then the entry is done, it carries the
      last accepted indication, the last control attempt for the UE is that one's, and it
      names the target of the last indication processed. */
  predicate Agrees(s: State, key: string) {
    if key !in s.view.records then LastFor(s.log, key).None? else
      var acc, ctl := Accepted(s.log, key), ControlsOf(s.controls, key);
      && acc != [] && ctl != [] && LastFor(s.log, key).Some?
      && var ind := acc[|acc| - 1];
      && s.view.records[key] == MetricValue(ind.rawUeId, ind.tgtCellId, Done, ind.callProcessId, ind.node)
      && ctl[|ctl| - 1] == Control(ind.node, ind.rawUeId, ind.tgtCellId, ind.callProcessId)
      && ctl[|ctl| - 1].tgtCellId == LastFor(s.log, key).value.tgtCellId
  }

  lemma QuietEntryAgrees(ws: set<Recipient>, s: State, key: string)
    requires EntryOk(ws, s, key) && s.view.inFlight == multiset{}
    ensures Agrees(s, key)
  {
    AcceptedEndsAtLastTarget(s.log, key);
    if key in s.view.records {
      var v := s.view.records[key];
      assert v.state == Done;
      assert v == FreshValue(OriginOf(v)).(state := Done);
    }
  }

  /** Events may be delivered in any order, for any number of UEs and nodes: in every
      reachable state with no event in flight, every UE agrees. */
  lemma EndToEndAgreement(ws: set<Recipient>, steps: seq<Step>, key: string)
    requires Controller in ws && Legal(ws, Init, steps)
    requires Run(ws, Init, steps).view.inFlight == multiset{}
    ensures Agrees(Run(ws, Init, steps), key) && Run(ws, Init, steps).log == IndicationsIn(steps)
  {
    InitInv(ws);
    LogIsInput(ws, Init, steps);
    RunKeepsInv(ws, Init, steps);
    QuietEntryAgrees(ws, Run(ws, Init, steps), key);
  }

  /** No handler ever dereferences a missing entry, and no entry is ever waiting or denied. */
  lemma NoPanicNoDenial(ws: set<Recipient>, steps: seq<Step>, step: Step)
    requires Controller in ws && Legal(ws, Init, steps) && Enabled(ws, Run(ws, Init, steps), step)
    ensures !DecisionOf(Run(ws, Init, steps), step).Panic?
    ensures forall key :: key in Run(ws, Init, steps).view.records ==>
                            Run(ws, Init, steps).view.records[key].state in {StateCreated, Approved, Done}
  {
    var s := Run(ws, Init, steps);
    InitInv(ws);
    RunKeepsInv(ws, Init, steps);
    if step.Deliver? {
      assert DeliveryOk(ws, s, step.d);
    }
    forall key | key in s.view.records ensures s.view.records[key].state in {StateCreated, Approved, Done} {
      assert EntryOk(ws, s, key);
    }
  }
}
