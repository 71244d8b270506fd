/** The documented entry state machine, recovered from the protocol for a UE whose next
    indication is processed only when no event for it is in flight. */
module HandoverCycle {
  import opened Wrappers
  import opened UeKey
  import opened HandoverTypes
  import opened Handover

  /** The states put for one UE, in order. */
  function PutsOf(puts: seq<Event>, key: string): seq<MHOState> {
    if puts == [] then [] else
      var before, e := PutsOf(puts[..|puts| - 1], key), puts[|puts| - 1];
      if e.key == key then before + [e.state] else before
  }

  lemma PutsSnoc(puts: seq<Event>, e: Event, key: string)
    ensures PutsOf(puts + [e], key) ==
            if e.key == key then PutsOf(puts, key) + [e.state] else PutsOf(puts, key)
  {
    assert (puts + [e])[..|puts|] == puts;
  }

  /** `n` edges of the documented machine: (a) or (f), then (b) and (c) in one put, then (d). */
  function Cycle(n: nat): (h: seq<MHOState>)
    ensures |h| == n
  {
    if n == 0 then [] else
      Cycle(n - 1) + [if n % 3 == 1 then StateCreated else if n % 3 == 2 then Approved else Done]
  }

  /** Everything the protocol has recorded about one UE, with the copies in flight of the
      two events its entry reacts to. */
  datatype Trace = Trace(entry: Option<MetricValue>, accepted: seq<Indication>, controls: seq<Control>,
                         puts: seq<MHOState>, requests: nat, approvals: nat)

  function TraceOf(s: State, key: string): Trace {
    Trace(if key in s.view.records then Some(s.view.records[key]) else None,
          Accepted(s.log, key), ControlsOf(s.controls, key), PutsOf(s.puts, key),
          Copies(s.view.inFlight, key, StateCreated, Controller),
          if key in s.view.records then Copies(s.view.inFlight, key, Approved, Node(s.view.records[key].e2NodeId)) else 0)
  }

  /** Where a UE stands on the cycle: one round of three puts for each accepted indication,
      the last round possibly unfinished, one control attempt for each finished round, and
      exactly the event in flight that the next put waits for. */
  predicate OnCycle(t: Trace) {
    if t.entry.None? then t == Trace(None, [], [], [], 0, 0) else
      && t.accepted != []
      && var finished := t.accepted[..|t.accepted| - 1];
         match t.entry.value.state
         case StateCreated =>
           t == t.(controls := ControlsFor(finished), puts := Cycle(3 * |finished| + 1), requests := 1, approvals := 0)
         case Approved =>
           t == t.(controls := ControlsFor(finished), puts := Cycle(3 * |finished| + 2), requests := 0, approvals := 1)
         case Done =>
           t == t.(controls := ControlsFor(t.accepted), puts := Cycle(3 * |t.accepted|), requests := 0, approvals := 0)
         case _ => false
  }

  ghost predicate QuietFor(s: State, key: string) {
    forall d :: d in s.view.inFlight ==> d.event.key != key
  }

  /** Each indication of the UE is processed only when none of its events is in flight;
      everything else may interleave at will. */
  ghost predicate Spaced(ws: set<Recipient>, s: State, steps: seq<Step>, key: string)
    requires Legal(ws, s, steps)
    decreases |steps|
  {
    steps != [] ==>
      && (steps[0].Indicate? && RendersTo(steps[0].ind.rawUeId, key) ==> QuietFor(s, key))
      && Spaced(ws, Do(ws, s, steps[0]), steps[1..], key)
  }

  // ---------- the rounds, on traces ----------

  lemma StartRound(t: Trace, ind: Indication)
    requires OnCycle(t) && (t.entry.Some? ==> t.entry.value.state == Done)
    ensures OnCycle(Trace(Some(FreshValue(ind)), t.accepted + [ind], t.controls, t.puts + [StateCreated], 1, 0))
  {
    assert (t.accepted + [ind])[..|t.accepted|] == t.accepted;
  }

  lemma ApproveRound(t: Trace)
    requires OnCycle(t) && t.entry.Some? && t.requests >= 1
    ensures t.entry.value.state == StateCreated && t.requests == 1 && t.approvals == 0
    ensures OnCycle(t.(entry := Some(t.entry.value.(state := Approved)), puts := t.puts + [Approved],
                       requests := 0, approvals := 1))
  {
  }

  lemma FinishRound(t: Trace)
    requires OnCycle(t) && t.entry.Some? && t.approvals >= 1
    requires OriginOf(t.entry.value) == t.accepted[|t.accepted| - 1]
    ensures t.entry.value.state == Approved && t.approvals == 1
    ensures OnCycle(t.(entry := Some(t.entry.value.(state := Done)), puts := t.puts + [Done],
                       controls := t.controls + [ControlFor(t.entry.value)], approvals := 0))
  {
    assert FreshValue(OriginOf(t.entry.value)).(state := Approved) == t.entry.value;
  }

  // ---------- the steps, as changes of the trace ----------

  lemma QuietCopies(s: State, key: string, state: MHOState, r: Recipient)
    requires QuietFor(s, key)
    ensures Copies(s.view.inFlight, key, state, r) == 0
  {
    var c, u := Delivery(Event(key, Created, state), r), Delivery(Event(key, Updated, state), r);
    assert c !in s.view.inFlight && u !in s.view.inFlight;
  }

  lemma QuietIsDone(ws: set<Recipient>, s: State, key: string)
    requires QuietFor(s, key) && EntryOk(ws, s, key) && key in s.view.records
    ensures s.view.records[key].state == Done
  {
  }

  lemma IgnoredIndicationTrace(ws: set<Recipient>, s: State, ind: Indication, key: string)
    requires Enabled(ws, s, Indicate(ind)) && EntryOk(ws, s, key)
    requires !OnIndication(s.view.records, ind).PutValue?
    ensures TraceOf(Do(ws, s, Indicate(ind)), key) == TraceOf(s, key)
  {
    LogSnoc(s.log, ind, key);
  }

  /** A put for another UE. */
  lemma ForeignPutTrace(ws: set<Recipient>, s: State, s': State, taken: multiset<Delivery>, put: Event, key: string)
    requires put.key != key
    requires forall k :: k != put.key ==> (k in s.view.records) == (k in s'.view.records)
    requires forall k :: k != put.key && k in s.view.records ==> s.view.records[k] == s'.view.records[k]
    requires s'.view.inFlight == taken + FanOut(ws, put) && s'.puts == s.puts + [put]
    requires forall d: Delivery :: d.event.key == key ==> taken[d] == s.view.inFlight[d]
    requires Accepted(s.log, key) == Accepted(s'.log, key)
    requires ControlsOf(s.controls, key) == ControlsOf(s'.controls, key)
    ensures TraceOf(s', key) == TraceOf(s, key)
  {
    PutsSnoc(s.puts, put, key);
  }

  lemma ForeignIndicationTrace(ws: set<Recipient>, s: State, ind: Indication, key: string)
    requires Enabled(ws, s, Indicate(ind)) && EntryOk(ws, s, key) && !RendersTo(ind.rawUeId, key)
    ensures TraceOf(Do(ws, s, Indicate(ind)), key) == TraceOf(s, key)
  {
    LogSnoc(s.log, ind, key);
    var d := OnIndication(s.view.records, ind);
    if d.PutValue? {
      var put := EventFor(d.key in s.view.records, d.key, d.state);
      ForeignPutTrace(ws, s, Do(ws, s, Indicate(ind)), s.view.inFlight, put, key);
    }
  }

  lemma AcceptedIndicationTrace(ws: set<Recipient>, s: State, ind: Indication, key: string)
    requires Controller in ws && Enabled(ws, s, Indicate(ind)) && EntryOk(ws, s, key)
    requires RendersTo(ind.rawUeId, key) && OnIndication(s.view.records, ind).PutValue? && QuietFor(s, key)
    ensures var t := TraceOf(s, key);
            TraceOf(Do(ws, s, Indicate(ind)), key) ==
            Trace(Some(FreshValue(ind)), t.accepted + [ind], t.controls, t.puts + [StateCreated], 1, 0)
  {
    LogSnoc(s.log, ind, key);
    var e := EventFor(key in s.view.records, key, StateCreated);
    PutsSnoc(s.puts, e, key);
    if key in s.view.records {
      QuietIsDone(ws, s, key);
    }
    assert OnIndication(s.view.records, ind) == PutValue(key, FreshValue(ind), StateCreated);
    var s' := Do(ws, s, Indicate(ind));
    QuietCopies(s, key, StateCreated, Controller);
    QuietCopies(s, key, Approved, Node(ind.node));
    assert Copies(s'.view.inFlight, key, StateCreated, Controller) == 1;
    assert Copies(s'.view.inFlight, key, Approved, Node(ind.node)) == 0;
  }

  lemma IgnoredDeliveryTrace(ws: set<Recipient>, s: State, d: Delivery, key: string)
    requires Enabled(ws, s, Deliver(d)) && DeliveryOk(ws, s, d) && !DecisionOf(s, Deliver(d)).PutValue?
    ensures TraceOf(Do(ws, s, Deliver(d)), key) == TraceOf(s, key)
  {
    var s' := Do(ws, s, Deliver(d));
    assert s' == s.(view := s.view.(inFlight := s.view.inFlight - multiset{d}), received := s.received + 1);
  }

  lemma ForeignDeliveryTrace(ws: set<Recipient>, s: State, d: Delivery, key: string)
    requires Enabled(ws, s, Deliver(d)) && EntryOk(ws, s, d.event.key) && d.event.key != key
    ensures TraceOf(Do(ws, s, Deliver(d)), key) == TraceOf(s, key)
  {
    var decision := DecisionOf(s, Deliver(d));
    if decision.PutValue? {
      ControlsSnoc(s.controls, ControlFor(decision.value), key);
      var put := EventFor(true, d.event.key, decision.state);
      ForeignPutTrace(ws, s, Do(ws, s, Deliver(d)), s.view.inFlight - multiset{d}, put, key);
    }
  }

  lemma ApprovalTrace(ws: set<Recipient>, s: State, e: Event)
    requires Enabled(ws, s, Deliver(Delivery(e, Controller))) && EntryOk(ws, s, e.key)
    requires DeliveryOk(ws, s, Delivery(e, Controller)) && e.state == StateCreated
    ensures var t := TraceOf(s, e.key);
            && t.entry.Some? && t.requests >= 1
            && TraceOf(Do(ws, s, Deliver(Delivery(e, Controller))), e.key) ==
               t.(entry := Some(t.entry.value.(state := Approved)), puts := t.puts + [Approved],
                  requests := t.requests - 1, approvals := t.approvals + 1)
  {
    var approval := EventFor(true, e.key, Approved);
    PutsSnoc(s.puts, approval, e.key);
    var own := Node(s.view.records[e.key].e2NodeId);
    CopiesAfterPut(ws, s.view.inFlight, Delivery(e, Controller), approval, e.key, StateCreated, Controller);
    CopiesAfterPut(ws, s.view.inFlight, Delivery(e, Controller), approval, e.key, Approved, own);
    assert s.view.inFlight[Delivery(e, Controller)] >= 1;
  }

  lemma ControlTrace(ws: set<Recipient>, s: State, e: Event, n: NodeId)
    requires Enabled(ws, s, Deliver(Delivery(e, Node(n)))) && EntryOk(ws, s, e.key)
    requires DeliveryOk(ws, s, Delivery(e, Node(n))) && e.state == Approved
    requires s.view.records[e.key].e2NodeId == n
    ensures var t := TraceOf(s, e.key);
            && t.entry.Some? && t.approvals >= 1
            && TraceOf(Do(ws, s, Deliver(Delivery(e, Node(n)))), e.key) ==
               t.(entry := Some(t.entry.value.(state := Done)), puts := t.puts + [Done],
                  controls := t.controls + [ControlFor(t.entry.value)], approvals := t.approvals - 1)
  {
    var done := EventFor(true, e.key, Done);
    PutsSnoc(s.puts, done, e.key);
    ControlsSnoc(s.controls, ControlFor(s.view.records[e.key]), e.key);
    CopiesAfterPut(ws, s.view.inFlight, Delivery(e, Node(n)), done, e.key, StateCreated, Controller);
    CopiesAfterPut(ws, s.view.inFlight, Delivery(e, Node(n)), done, e.key, Approved, Node(n));
    assert s.view.inFlight[Delivery(e, Node(n))] >= 1;
  }

  // ---------- the refinement ----------

  lemma IndicateOnCycle(ws: set<Recipient>, s: State, ind: Indication, key: string)
    requires Inv(ws, s) && OnCycle(TraceOf(s, key)) && Enabled(ws, s, Indicate(ind))
    requires RendersTo(ind.rawUeId, key) ==> QuietFor(s, key)
    ensures OnCycle(TraceOf(Do(ws, s, Indicate(ind)), key))
  {
    assert EntryOk(ws, s, key);
    if RendersTo(ind.rawUeId, key) && OnIndication(s.view.records, ind).PutValue? {
      if key in s.view.records {
        QuietIsDone(ws, s, key);
      }
      AcceptedIndicationTrace(ws, s, ind, key);
      StartRound(TraceOf(s, key), ind);
    } else if RendersTo(ind.rawUeId, key) {
      IgnoredIndicationTrace(ws, s, ind, key);
    } else {
      ForeignIndicationTrace(ws, s, ind, key);
    }
  }

  lemma DeliverOnCycle(ws: set<Recipient>, s: State, d: Delivery, key: string)
    requires Inv(ws, s) && OnCycle(TraceOf(s, key)) && Enabled(ws, s, Deliver(d))
    ensures OnCycle(TraceOf(Do(ws, s, Deliver(d)), key))
  {
    assert EntryOk(ws, s, d.event.key) && DeliveryOk(ws, s, d);
    if d.event.key != key {
      ForeignDeliveryTrace(ws, s, d, key);
    } else if !DecisionOf(s, Deliver(d)).PutValue? {
      IgnoredDeliveryTrace(ws, s, d, key);
    } else {
      match d.to
      case Controller => ApprovalOnCycle(ws, s, d.event);
      case Node(n) => ControlOnCycle(ws, s, d.event, n);
    }
  }

  lemma ApprovalOnCycle(ws: set<Recipient>, s: State, e: Event)
    requires Enabled(ws, s, Deliver(Delivery(e, Controller))) && EntryOk(ws, s, e.key)
    requires DeliveryOk(ws, s, Delivery(e, Controller)) && e.state == StateCreated
    requires OnCycle(TraceOf(s, e.key))
    ensures OnCycle(TraceOf(Do(ws, s, Deliver(Delivery(e, Controller))), e.key))
  {
    ApprovalTrace(ws, s, e);
    ApproveRound(TraceOf(s, e.key));
  }

  lemma ControlOnCycle(ws: set<Recipient>, s: State, e: Event, n: NodeId)
    requires Enabled(ws, s, Deliver(Delivery(e, Node(n)))) && EntryOk(ws, s, e.key)
    requires DeliveryOk(ws, s, Delivery(e, Node(n))) && e.state == Approved
    requires s.view.records[e.key].e2NodeId == n && OnCycle(TraceOf(s, e.key))
    ensures OnCycle(TraceOf(Do(ws, s, Deliver(Delivery(e, Node(n)))), e.key))
  {
    ControlTrace(ws, s, e, n);
    FinishRound(TraceOf(s, e.key));
  }

  /** In every run spaced for the UE, whatever the other UEs do, its entry stays on the
      documented cycle. */
  lemma {:induction false} SpacedRunOnCycle(ws: set<Recipient>, s: State, steps: seq<Step>, key: string)
    requires Inv(ws, s) && OnCycle(TraceOf(s, key)) && Legal(ws, s, steps) && Spaced(ws, s, steps, key)
    ensures OnCycle(TraceOf(Run(ws, s, steps), key))
    decreases |steps|
  {
    if steps != [] {
      StepKeepsInv(ws, s, steps[0]);
      match steps[0] {
        case Indicate(ind) => IndicateOnCycle(ws, s, ind, key);
        case Deliver(d) => DeliverOnCycle(ws, s, d, key);
      }
      SpacedRunOnCycle(ws, Do(ws, s, steps[0]), steps[1..], key);
    }
  }

  /** From the empty store: the puts of the entry are a prefix of the repeated cycle, and
      once nothing of the UE is in flight there is, in order, exactly one control attempt
      and one full round for each new or changed target. */
  lemma SpacedRunRefinesDocumentedMachine(ws: set<Recipient>, steps: seq<Step>, key: string)
    requires Controller in ws && Legal(ws, Init, steps) && Spaced(ws, Init, steps, key)
    ensures var s := Run(ws, Init, steps);
            && PutsOf(s.puts, key) == Cycle(|PutsOf(s.puts, key)|)
            && (QuietFor(s, key) ==>
                  && ControlsOf(s.controls, key) == ControlsFor(Accepted(s.log, key))
                  && |PutsOf(s.puts, key)| == 3 * |Accepted(s.log, key)|)
  {
    InitInv(ws);
    SpacedRunOnCycle(ws, Init, steps, key);
    RunKeepsInv(ws, Init, steps);
    var s := Run(ws, Init, steps);
    assert EntryOk(ws, s, key);
    if QuietFor(s, key) && key in s.view.records {
      QuietIsDone(ws, s, key);
    }
  }

  /** Edge (e): in every state of the protocol, an indication that repeats the target of a done
      entry changes nothing but the log, and asks for no further control attempt. */
  lemma RepeatedTargetIsIgnored(ws: set<Recipient>, s: State, ind: Indication, key: string)
    requires Inv(ws, s) && Enabled(ws, s, Indicate(ind)) && RendersTo(ind.rawUeId, key) && key in s.view.records
    requires s.view.records[key].tgtCellId == ind.tgtCellId && s.view.records[key].state == Done
    ensures Do(ws, s, Indicate(ind)) == s.(log := s.log + [ind])
    ensures Accepted(s.log + [ind], key) == Accepted(s.log, key)
  {
    assert EntryOk(ws, s, key);
    LogSnoc(s.log, ind, key);
  }

  /** Edges (h) and (i), which no run reaches: in any state, an indication that repeats the
      target of a denied entry leaves the records alone but alerts the controller, and its
      handling approves the entry and tells every watcher. */
  lemma DeniedIsRetriggered(ws: set<Recipient>, s: State, ind: Indication, key: string)
    requires Controller in ws && Enabled(ws, s, Indicate(ind)) && RendersTo(ind.rawUeId, key) && key in s.view.records
    requires s.view.records[key].tgtCellId == ind.tgtCellId && s.view.records[key].state == Denied
    ensures var alert, t := Delivery(Event(key, Updated, Denied), Controller), Do(ws, s, Indicate(ind));
            && t.view.records == s.view.records && alert in t.view.inFlight
            && var u := Do(ws, t, Deliver(alert));
            && u.view.records == s.view.records[key := s.view.records[key].(state := Approved)]
            && forall r :: r in ws ==> Delivery(Event(key, Updated, Approved), r) in u.view.inFlight
  {
    hide GenerateGnbUeIDString;
    var alert, t := Delivery(Event(key, Updated, Denied), Controller), Do(ws, s, Indicate(ind));
    assert s.view.records[key := s.view.records[key]] == s.view.records;
    assert alert in FanOut(ws, alert.event);
    assert t.view.inFlight == s.view.inFlight + FanOut(ws, alert.event);
    var approval := Event(key, Updated, Approved);
    forall r | r in ws ensures Delivery(approval, r) in Do(ws, t, Deliver(alert)).view.inFlight {
      assert Delivery(approval, r) in FanOut(ws, approval);
    }
  }
}
