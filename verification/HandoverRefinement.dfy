/** Running each handler iteration without interruption is one of the possible interleavings,
    so what holds for every interleaving holds for the atomic protocol. */
module HandoverRefinement {
  import opened UeKey
  import opened HandoverTypes
  import A = Handover
  import opened Interleaving
  import opened HandoverCounts
  import Quiescence

  /** The interleaved state between two handler iterations of the atomic one. */
  ghost predicate Matches(a: A.State, s: Sys) {
    && AllIdle(s)
    && s.inFlight == a.view.inFlight && s.log == a.log && s.puts == a.puts
    && s.controls == a.controls && s.received == a.received
    && SameRecords(a.view.records, s)
  }

  ghost predicate AllIdle(s: Sys) {
    (forall r :: PcOf(s, r) == Idle) && (forall n: NodeId :: MonitorOf(s, n) == Waits)
  }

  ghost predicate SameRecords(records: map<string, MetricValue>, s: Sys) {
    && (forall key :: key in records <==> key in s.records)
    && (forall key :: key in records ==> s.records[key] < |s.heap| && s.heap[s.records[key]] == records[key])
  }

  /** The store calls of one uninterrupted handler iteration. */
  function Expand(s: Sys, step: A.Step): seq<Step> {
    match step
    case Indicate(ind) =>
      if !ind.rawUeId.GnbUeId? then [Lookup(ind)]
      else if KeyOfInd(ind) !in s.records then [Lookup(ind), MonitorPut(ind.node)]
      else if s.records[KeyOfInd(ind)] < |s.heap| && s.heap[s.records[KeyOfInd(ind)]].tgtCellId != ind.tgtCellId
        then [Lookup(ind), MonitorGet(ind.node), MonitorCompare(ind.node), MonitorPut(ind.node)]
      else [Lookup(ind), MonitorGet(ind.node), MonitorCompare(ind.node)]
    case Deliver(d) =>
      var acts := d.event.key in s.records && s.records[d.event.key] < |s.heap| && Reads(d.to, d.event)
                  && Acts(d.to, d.event, s.heap[s.records[d.event.key]]);
      if !acts then [Receive(d), GetEntry(d.to)]
      else if d.to.Controller? then [Receive(d), GetEntry(d.to), WriteState(d.to), PutEntry(d.to)]
      else [Receive(d), GetEntry(d.to), SendControl(d.to.id), WriteState(d.to), PutEntry(d.to)]
  }

  lemma Run1(ws: set<Recipient>, s: Sys, a: Step)
    requires Enabled(ws, s, a)
    ensures Legal(ws, s, [a]) && Run(ws, s, [a]) == Do(ws, s, a)
  {
    Prepend(ws, s, a, []);
    assert [a] + [] == [a];
  }

  lemma Run2(ws: set<Recipient>, s: Sys, a: Step, b: Step)
    requires Enabled(ws, s, a) && Enabled(ws, Do(ws, s, a), b)
    ensures Legal(ws, s, [a, b]) && Run(ws, s, [a, b]) == Do(ws, Do(ws, s, a), b)
  {
    hide Do, Enabled;
    Run1(ws, Do(ws, s, a), b);
    Prepend(ws, s, a, [b]);
    assert [a] + [b] == [a, b];
  }

  ghost predicate OtherThreadsStay(s: Sys, s': Sys, r: Recipient) {
    && (forall q :: q != r ==> PcOf(s', q) == PcOf(s, q))
    && s'.monitors == s.monitors
  }

  /** Taking an event from the channel and reading the entry. */
  lemma ReceiveAndGet(ws: set<Recipient>, a: A.State, s: Sys, d: Delivery)
    requires Inv(ws, s) && Matches(a, s) && d in s.inFlight
    ensures Enabled(ws, s, Receive(d)) && Enabled(ws, Do(ws, s, Receive(d)), GetEntry(d.to))
    ensures d.event.key in s.records && s.records[d.event.key] < |s.heap| && d.to in ws
    ensures var t, ref := Do(ws, Do(ws, s, Receive(d)), GetEntry(d.to)), s.records[d.event.key];
            && t == s.(inFlight := s.inFlight - multiset{d}, received := s.received + 1, handlers := t.handlers)
            && OtherThreadsStay(s, t, d.to)
            && PcOf(t, d.to) == if Reads(d.to, d.event) && Acts(d.to, d.event, s.heap[ref]) then Have(d.event.key, ref)
                                else Idle
  {
    hide GenerateGnbUeIDString, FanOut;
    ReceivedIsOk(ws, s, d);
    assert RefOk(s, d.event.key, s.records[d.event.key]);
  }

  /** Sending, for a node, then writing the state of the value held, then putting it back. */
  lemma WriteAndPut(ws: set<Recipient>, s: Sys, r: Recipient, key: string, ref: Ref)
    requires PcOf(s, r) == (if r.Node? then Sent(key, ref) else Have(key, ref)) && ref < |s.heap|
    ensures Enabled(ws, s, WriteState(r)) && Enabled(ws, Do(ws, s, WriteState(r)), PutEntry(r))
    ensures var t, e := Do(ws, Do(ws, s, WriteState(r)), PutEntry(r)), EventFor(key in s.records, key, StateWritten(r));
            && t == s.(heap := s.heap[ref := s.heap[ref].(state := StateWritten(r))], records := s.records[key := ref],
                       inFlight := s.inFlight + FanOut(ws, e), puts := s.puts + [e], handlers := t.handlers)
            && OtherThreadsStay(s, t, r) && PcOf(t, r) == Idle
  {
    hide GenerateGnbUeIDString, FanOut;
  }

  lemma SendFirst(ws: set<Recipient>, s: Sys, n: NodeId, key: string, ref: Ref)
    requires PcOf(s, Node(n)) == Have(key, ref) && ref < |s.heap|
    ensures Enabled(ws, s, SendControl(n))
    ensures var t := Do(ws, s, SendControl(n));
            && t == s.(controls := s.controls + [ControlFor(s.heap[ref]).(node := n)], handlers := t.handlers)
            && OtherThreadsStay(s, t, Node(n)) && PcOf(t, Node(n)) == Sent(key, ref)
  {
    hide GenerateGnbUeIDString, FanOut;
  }

  /** Writing the state in place and putting the value back is replacing it under its key. */
  lemma RecordsAfterPut(records: map<string, MetricValue>, s: Sys, t: Sys, key: string, ref: Ref, state: MHOState)
    requires SameRecords(records, s) && key in s.records && s.records[key] == ref && ref < |s.heap|
    requires forall k :: k in s.records ==> RefOk(s, k, s.records[k])
    requires t.heap == s.heap[ref := s.heap[ref].(state := state)] && t.records == s.records[key := ref]
    ensures SameRecords(records[key := records[key].(state := state)], t)
  {
    hide GenerateGnbUeIDString;
    forall k | k in s.records && k != key ensures s.records[k] != ref {
      assert RefOk(s, k, s.records[k]) && RefOk(s, key, ref);
    }
  }

  lemma RecordsUntouched(records: map<string, MetricValue>, s: Sys, t: Sys)
    requires SameRecords(records, s) && t.heap == s.heap && t.records == s.records
    ensures SameRecords(records, t)
  {
  }

  // ---------- one delivery ----------

  predicate ActsOn(s: Sys, d: Delivery)
    requires d.event.key in s.records && s.records[d.event.key] < |s.heap|
  {
    Reads(d.to, d.event) && Acts(d.to, d.event, s.heap[s.records[d.event.key]])
  }

  /** The store after an uninterrupted iteration of a handler that acts on the entry `ref`. */
  function AfterDelivery(ws: set<Recipient>, s: Sys, d: Delivery, ref: Ref, handlers: map<Recipient, Pc>): Sys
    requires ref < |s.heap|
  {
    var state, v := StateWritten(d.to), s.heap[ref];
    var e := EventFor(d.event.key in s.records, d.event.key, state);
    Sys(s.heap[ref := v.(state := state)], s.records[d.event.key := ref],
        s.inFlight - multiset{d} + FanOut(ws, e), handlers, s.monitors, s.log, s.puts + [e],
        if d.to.Node? then s.controls + [ControlFor(v).(node := d.to.id)] else s.controls, s.received + 1)
  }

  /** The interleaved side: where the expanded steps lead. */
  lemma ActingRun(ws: set<Recipient>, a: A.State, s: Sys, d: Delivery) returns (t: Sys)
    requires Inv(ws, s) && Matches(a, s) && d in s.inFlight
    requires d.event.key in s.records && s.records[d.event.key] < |s.heap| && ActsOn(s, d)
    ensures Legal(ws, s, Expand(s, A.Deliver(d))) && t == Run(ws, s, Expand(s, A.Deliver(d)))
    ensures t == AfterDelivery(ws, s, d, s.records[d.event.key], t.handlers)
    ensures OtherThreadsStay(s, t, d.to) && PcOf(t, d.to) == Idle
  {
    hide Do, Enabled, Inv, Legal, Run, FanOut, GenerateGnbUeIDString, Reads, Acts;
    ReceiveAndGet(ws, a, s, d);
    Run2(ws, s, Receive(d), GetEntry(d.to));
    var key, ref, r := d.event.key, s.records[d.event.key], d.to;
    var s1 := Do(ws, Do(ws, s, Receive(d)), GetEntry(r));
    if r.Controller? {
      WriteAndPut(ws, s1, r, key, ref);
      Run2(ws, s1, WriteState(r), PutEntry(r));
      RunConcat(ws, s, [Receive(d), GetEntry(r)], [WriteState(r), PutEntry(r)]);
      assert [Receive(d), GetEntry(r)] + [WriteState(r), PutEntry(r)] == Expand(s, A.Deliver(d));
      t := Do(ws, Do(ws, s1, WriteState(r)), PutEntry(r));
    } else {
      SendFirst(ws, s1, r.id, key, ref);
      var s2 := Do(ws, s1, SendControl(r.id));
      WriteAndPut(ws, s2, r, key, ref);
      Run2(ws, s2, WriteState(r), PutEntry(r));
      Prepend(ws, s1, SendControl(r.id), [WriteState(r), PutEntry(r)]);
      RunConcat(ws, s, [Receive(d), GetEntry(r)], [SendControl(r.id)] + [WriteState(r), PutEntry(r)]);
      assert [Receive(d), GetEntry(r)] + ([SendControl(r.id)] + [WriteState(r), PutEntry(r)]) == Expand(s, A.Deliver(d));
      t := Do(ws, Do(ws, s2, WriteState(r)), PutEntry(r));
    }
  }

  /** The atomic side of the same delivery. */
  lemma AtomicActing(ws: set<Recipient>, a: A.State, d: Delivery)
    requires A.Enabled(ws, a, A.Deliver(d)) && d.event.key in a.view.records
    requires Reads(d.to, d.event) && Acts(d.to, d.event, a.view.records[d.event.key])
    ensures var state, v := StateWritten(d.to), a.view.records[d.event.key];
            var e := EventFor(true, d.event.key, state);
            A.Do(ws, a, A.Deliver(d)) ==
            A.State(StoreView(a.view.records[d.event.key := v.(state := state)],
                              a.view.inFlight - multiset{d} + FanOut(ws, e)),
                    a.log, a.puts + [e], if d.to.Node? then a.controls + [ControlFor(v)] else a.controls, a.received + 1)
  {
    hide FanOut;
  }

  lemma AtomicIgnoring(ws: set<Recipient>, a: A.State, d: Delivery)
    requires A.Enabled(ws, a, A.Deliver(d)) && d.event.key in a.view.records
    requires !(Reads(d.to, d.event) && Acts(d.to, d.event, a.view.records[d.event.key]))
    ensures A.Do(ws, a, A.Deliver(d)) ==
            a.(view := a.view.(inFlight := a.view.inFlight - multiset{d}), received := a.received + 1)
  {
    hide FanOut;
  }

  lemma StillQuiet(s: Sys, t: Sys, r: Recipient)
    requires AllIdle(s) && OtherThreadsStay(s, t, r) && PcOf(t, r) == Idle
    ensures AllIdle(t)
  {
    forall n: NodeId ensures MonitorOf(t, n) == Waits {
      assert MonitorOf(s, n) == Waits;
    }
  }

  lemma ActingMatches(ws: set<Recipient>, a: A.State, s: Sys, d: Delivery, t: Sys)
    requires Matches(a, s) && A.Enabled(ws, a, A.Deliver(d))
    requires d.event.key in s.records && s.records[d.event.key] < |s.heap| && ActsOn(s, d)
    requires t == AfterDelivery(ws, s, d, s.records[d.event.key], t.handlers) && AllIdle(t)
    requires forall k :: k in s.records ==> RefOk(s, k, s.records[k])
    ensures Matches(A.Do(ws, a, A.Deliver(d)), t)
  {
    var key, ref := d.event.key, s.records[d.event.key];
    assert a.view.records[key] == s.heap[ref];
    hide A.Do, AllIdle, FanOut, GenerateGnbUeIDString, Reads, RefOk;
    AtomicActing(ws, a, d);
    RecordsAfterPut(a.view.records, s, t, key, ref, StateWritten(d.to));
    hide SameRecords;
    assert d.to.Node? ==> ControlFor(s.heap[ref]).(node := d.to.id) == ControlFor(s.heap[ref]);
  }

  lemma ActingSimulated(ws: set<Recipient>, a: A.State, s: Sys, d: Delivery)
    requires Inv(ws, s) && Matches(a, s) && A.Enabled(ws, a, A.Deliver(d))
    requires d.event.key in s.records && s.records[d.event.key] < |s.heap| && ActsOn(s, d)
    ensures Legal(ws, s, Expand(s, A.Deliver(d)))
    ensures Matches(A.Do(ws, a, A.Deliver(d)), Run(ws, s, Expand(s, A.Deliver(d))))
  {
    hide Do, Enabled, Legal, Run, A.Do, Expand, PcOf, AllIdle, SameRecords, AfterDelivery, ActsOn, RefOk;
    var t := ActingRun(ws, a, s, d);
    StillQuiet(s, t, d.to);
    assert ValuesOk(ws, s);
    ActingMatches(ws, a, s, d, t);
  }

  lemma IgnoringMatches(ws: set<Recipient>, a: A.State, s: Sys, d: Delivery, t: Sys)
    requires Matches(a, s) && A.Enabled(ws, a, A.Deliver(d))
    requires d.event.key in s.records && s.records[d.event.key] < |s.heap| && !ActsOn(s, d)
    requires t == s.(inFlight := s.inFlight - multiset{d}, received := s.received + 1, handlers := t.handlers)
    requires AllIdle(t)
    ensures Matches(A.Do(ws, a, A.Deliver(d)), t)
  {
    assert a.view.records[d.event.key] == s.heap[s.records[d.event.key]];
    hide A.Do, AllIdle, FanOut;
    AtomicIgnoring(ws, a, d);
    RecordsUntouched(a.view.records, s, t);
  }

  lemma IgnoringSimulated(ws: set<Recipient>, a: A.State, s: Sys, d: Delivery)
    requires Inv(ws, s) && Matches(a, s) && A.Enabled(ws, a, A.Deliver(d))
    requires d.event.key in s.records && s.records[d.event.key] < |s.heap| && !ActsOn(s, d)
    ensures Legal(ws, s, Expand(s, A.Deliver(d)))
    ensures Matches(A.Do(ws, a, A.Deliver(d)), Run(ws, s, Expand(s, A.Deliver(d))))
  {
    hide Do, Enabled, Inv, Legal, Run, A.Do, PcOf, AllIdle, SameRecords, OtherThreadsStay;
    ReceiveAndGet(ws, a, s, d);
    Run2(ws, s, Receive(d), GetEntry(d.to));
    var t := Do(ws, Do(ws, s, Receive(d)), GetEntry(d.to));
    StillQuiet(s, t, d.to);
    IgnoringMatches(ws, a, s, d, t);
  }

  lemma DeliverySimulated(ws: set<Recipient>, a: A.State, s: Sys, d: Delivery)
    requires Inv(ws, s) && Matches(a, s) && A.Enabled(ws, a, A.Deliver(d))
    ensures Legal(ws, s, Expand(s, A.Deliver(d)))
    ensures Matches(A.Do(ws, a, A.Deliver(d)), Run(ws, s, Expand(s, A.Deliver(d))))
  {
    hide Do, Enabled, Inv, Legal, Run, A.Do, Expand;
    ReceiveAndGet(ws, a, s, d);
    if ActsOn(s, d) {
      ActingSimulated(ws, a, s, d);
    } else {
      IgnoringSimulated(ws, a, s, d);
    }
  }

  // ---------- one indication ----------

  ghost predicate MonitorStays(s: Sys, t: Sys, n: NodeId) {
    && (forall m: NodeId :: m != n ==> MonitorOf(t, m) == MonitorOf(s, m))
    && t.handlers == s.handlers
  }

  lemma LookupPresent(ws: set<Recipient>, s: Sys, ind: Indication)
    requires MonitorOf(s, ind.node) == Waits && Node(ind.node) in ws
    requires ind.rawUeId.GnbUeId? && KeyOfInd(ind) in s.records
    ensures Enabled(ws, s, Lookup(ind))
    ensures var t := Do(ws, s, Lookup(ind));
            && t == s.(log := s.log + [ind], monitors := t.monitors)
            && MonitorStays(s, t, ind.node) && MonitorOf(t, ind.node) == Present(ind)
  {
    hide GenerateGnbUeIDString, FanOut;
  }

  lemma GetAndCompare(ws: set<Recipient>, s: Sys, ind: Indication)
    requires MonitorOf(s, ind.node) == Present(ind) && ind.rawUeId.GnbUeId? && KeyOfInd(ind) in s.records
    requires s.records[KeyOfInd(ind)] < |s.heap| && s.heap[s.records[KeyOfInd(ind)]].state != Denied
    ensures Enabled(ws, s, MonitorGet(ind.node))
    ensures Enabled(ws, Do(ws, s, MonitorGet(ind.node)), MonitorCompare(ind.node))
    ensures var t := Do(ws, Do(ws, s, MonitorGet(ind.node)), MonitorCompare(ind.node));
            && t == s.(monitors := t.monitors) && MonitorStays(s, t, ind.node)
            && MonitorOf(t, ind.node) ==
               if s.heap[s.records[KeyOfInd(ind)]].tgtCellId != ind.tgtCellId then PutNew(ind) else Waits
  {
    hide GenerateGnbUeIDString, FanOut;
  }

  /** Reading up to the decision to put or not. */
  lemma MonitorReads(ws: set<Recipient>, a: A.State, s: Sys, ind: Indication) returns (t: Sys)
    requires Inv(ws, s) && Matches(a, s) && Node(ind.node) in ws && ind.rawUeId.GnbUeId? && KeyOfInd(ind) in s.records
    ensures var steps := [Lookup(ind), MonitorGet(ind.node), MonitorCompare(ind.node)];
            Legal(ws, s, steps) && t == Run(ws, s, steps)
    ensures s.records[KeyOfInd(ind)] < |s.heap|
    ensures t == s.(log := s.log + [ind], monitors := t.monitors) && MonitorStays(s, t, ind.node)
    ensures MonitorOf(t, ind.node) ==
            if s.heap[s.records[KeyOfInd(ind)]].tgtCellId != ind.tgtCellId then PutNew(ind) else Waits
  {
    hide GenerateGnbUeIDString, FanOut, Legal, Run;
    var key, n := KeyOfInd(ind), ind.node;
    assert MonitorOf(s, n) == Waits;
    assert RefOk(s, key, s.records[key]) && ValueOk(ws, s, s.heap[s.records[key]]);
    hide Inv, Matches;
    LookupPresent(ws, s, ind);
    var s1 := Do(ws, s, Lookup(ind));
    GetAndCompare(ws, s1, ind);
    t := Do(ws, Do(ws, s1, MonitorGet(n)), MonitorCompare(n));
    hide Do, Enabled;
    Run2(ws, s1, MonitorGet(n), MonitorCompare(n));
    Prepend(ws, s, Lookup(ind), [MonitorGet(n), MonitorCompare(n)]);
    assert [Lookup(ind)] + [MonitorGet(n), MonitorCompare(n)] == [Lookup(ind), MonitorGet(n), MonitorCompare(n)];
  }

  lemma MonitorPuts(ws: set<Recipient>, s: Sys, ind: Indication)
    requires ind.rawUeId.GnbUeId? && MonitorOf(s, ind.node) == PutNew(ind)
    ensures Enabled(ws, s, MonitorPut(ind.node))
    ensures var t, key := Do(ws, s, MonitorPut(ind.node)), KeyOfInd(ind);
            var e := EventFor(key in s.records, key, StateCreated);
            && t == s.(heap := s.heap + [FreshValue(ind)], records := s.records[key := |s.heap|],
                       inFlight := s.inFlight + FanOut(ws, e), puts := s.puts + [e], monitors := t.monitors)
            && MonitorStays(s, t, ind.node) && MonitorOf(t, ind.node) == Waits
  {
    hide GenerateGnbUeIDString, FanOut;
  }

  lemma QuietAgain(s: Sys, t: Sys, n: NodeId)
    requires AllIdle(s) && MonitorStays(s, t, n) && MonitorOf(t, n) == Waits
    ensures AllIdle(t)
  {
    forall r ensures PcOf(t, r) == Idle {
      assert PcOf(s, r) == Idle;
    }
  }

  lemma AtomicIndication(ws: set<Recipient>, a: A.State, ind: Indication)
    requires A.Enabled(ws, a, A.Indicate(ind))
    ensures var d := OnIndication(a.view.records, ind);
            A.Do(ws, a, A.Indicate(ind)) ==
            if d.PutValue? then
              var e := EventFor(d.key in a.view.records, d.key, d.state);
              A.State(StoreView(a.view.records[d.key := d.value], a.view.inFlight + FanOut(ws, e)),
                      a.log + [ind], a.puts + [e], a.controls, a.received)
            else a.(log := a.log + [ind])
  {
    hide FanOut, GenerateGnbUeIDString;
  }

  lemma NewRecord(records: map<string, MetricValue>, s: Sys, t: Sys, key: string, v: MetricValue)
    requires SameRecords(records, s)
    requires t.heap == s.heap + [v] && t.records == s.records[key := |s.heap|]
    ensures SameRecords(records[key := v], t)
  {
  }

  lemma IndicationSimulated(ws: set<Recipient>, a: A.State, s: Sys, ind: Indication)
    requires Inv(ws, s) && Matches(a, s) && A.Enabled(ws, a, A.Indicate(ind))
    ensures Legal(ws, s, Expand(s, A.Indicate(ind)))
    ensures Matches(A.Do(ws, a, A.Indicate(ind)), Run(ws, s, Expand(s, A.Indicate(ind))))
  {
    AtomicIndication(ws, a, ind);
    if !ind.rawUeId.GnbUeId? {
      LookupOnly(ws, a, s, ind);
    } else if KeyOfInd(ind) !in s.records {
      CreationSimulated(ws, a, s, ind);
    } else {
      KnownUeSimulated(ws, a, s, ind);
    }
  }

  lemma LookupOnly(ws: set<Recipient>, a: A.State, s: Sys, ind: Indication)
    requires Matches(a, s) && A.Enabled(ws, a, A.Indicate(ind)) && !ind.rawUeId.GnbUeId?
    ensures Legal(ws, s, [Lookup(ind)]) && Matches(A.Do(ws, a, A.Indicate(ind)), Run(ws, s, [Lookup(ind)]))
  {
    hide Legal, Run, FanOut;
    assert MonitorOf(s, ind.node) == Waits;
    Run1(ws, s, Lookup(ind));
    QuietAgain(s, Do(ws, s, Lookup(ind)), ind.node);
  }

  lemma LookupAbsent(ws: set<Recipient>, s: Sys, ind: Indication)
    requires MonitorOf(s, ind.node) == Waits && Node(ind.node) in ws
    requires ind.rawUeId.GnbUeId? && KeyOfInd(ind) !in s.records
    ensures Enabled(ws, s, Lookup(ind))
    ensures var t := Do(ws, s, Lookup(ind));
            && t == s.(log := s.log + [ind], monitors := t.monitors)
            && MonitorStays(s, t, ind.node) && MonitorOf(t, ind.node) == PutNew(ind)
  {
    hide GenerateGnbUeIDString, FanOut;
  }

  lemma CreationSimulated(ws: set<Recipient>, a: A.State, s: Sys, ind: Indication)
    requires Inv(ws, s) && Matches(a, s) && A.Enabled(ws, a, A.Indicate(ind))
    requires ind.rawUeId.GnbUeId? && KeyOfInd(ind) !in s.records
    ensures Legal(ws, s, Expand(s, A.Indicate(ind)))
    ensures Matches(A.Do(ws, a, A.Indicate(ind)), Run(ws, s, Expand(s, A.Indicate(ind))))
  {
    assert MonitorOf(s, ind.node) == Waits;
    AtomicIndication(ws, a, ind);
    assert OnIndication(a.view.records, ind) == PutValue(KeyOfInd(ind), FreshValue(ind), StateCreated);
    hide Do, Enabled, Inv, Legal, Run, FanOut, GenerateGnbUeIDString, A.Do, OnIndication;
    LookupAbsent(ws, s, ind);
    var s1 := Do(ws, s, Lookup(ind));
    MonitorPuts(ws, s1, ind);
    Run2(ws, s, Lookup(ind), MonitorPut(ind.node));
    var t := Do(ws, s1, MonitorPut(ind.node));
    NewRecord(a.view.records, s1, t, KeyOfInd(ind), FreshValue(ind));
    QuietAgain(s, t, ind.node);
  }

  /** The last step of a creation or replacement: both sides have the new value. */
  lemma PutMatches(ws: set<Recipient>, a: A.State, s: Sys, ind: Indication, t: Sys)
    requires Matches(a, s) && A.Enabled(ws, a, A.Indicate(ind)) && ind.rawUeId.GnbUeId?
    requires OnIndication(a.view.records, ind) == PutValue(KeyOfInd(ind), FreshValue(ind), StateCreated)
    requires var e := EventFor(KeyOfInd(ind) in s.records, KeyOfInd(ind), StateCreated);
             t == s.(log := s.log + [ind], heap := s.heap + [FreshValue(ind)],
                     records := s.records[KeyOfInd(ind) := |s.heap|], inFlight := s.inFlight + FanOut(ws, e),
                     puts := s.puts + [e], monitors := t.monitors)
    requires AllIdle(t)
    ensures Matches(A.Do(ws, a, A.Indicate(ind)), t)
  {
    hide A.Do, AllIdle, FanOut, GenerateGnbUeIDString, OnIndication;
    AtomicIndication(ws, a, ind);
    NewRecord(a.view.records, s, t, KeyOfInd(ind), FreshValue(ind));
  }

  lemma ReplacementDecision(a: A.State, s: Sys, ind: Indication)
    requires Matches(a, s) && ind.rawUeId.GnbUeId? && KeyOfInd(ind) in s.records
    requires s.records[KeyOfInd(ind)] < |s.heap|
    ensures s.heap[s.records[KeyOfInd(ind)]].tgtCellId != ind.tgtCellId ==>
              OnIndication(a.view.records, ind) == PutValue(KeyOfInd(ind), FreshValue(ind), StateCreated)
    ensures s.heap[s.records[KeyOfInd(ind)]].tgtCellId == ind.tgtCellId &&
            s.heap[s.records[KeyOfInd(ind)]].state != Denied ==>
              OnIndication(a.view.records, ind) == Ignore
  {
    hide GenerateGnbUeIDString;
    assert s.heap[s.records[KeyOfInd(ind)]] == a.view.records[KeyOfInd(ind)];
  }

  lemma ReplacementSimulated(ws: set<Recipient>, a: A.State, s: Sys, ind: Indication)
    requires Inv(ws, s) && Matches(a, s) && A.Enabled(ws, a, A.Indicate(ind))
    requires ind.rawUeId.GnbUeId? && KeyOfInd(ind) in s.records && s.records[KeyOfInd(ind)] < |s.heap|
    requires s.heap[s.records[KeyOfInd(ind)]].tgtCellId != ind.tgtCellId
    ensures Legal(ws, s, Expand(s, A.Indicate(ind)))
    ensures Matches(A.Do(ws, a, A.Indicate(ind)), Run(ws, s, Expand(s, A.Indicate(ind))))
  {
    hide Do, Enabled, Inv, Legal, Run, FanOut, GenerateGnbUeIDString, A.Do, OnIndication, PcOf, MonitorOf,
         SameRecords, AllIdle, MonitorStays;
    ReplacementDecision(a, s, ind);
    var t := MonitorReads(ws, a, s, ind);
    MonitorPuts(ws, t, ind);
    var u := Do(ws, t, MonitorPut(ind.node));
    Run1(ws, t, MonitorPut(ind.node));
    RunConcat(ws, s, [Lookup(ind), MonitorGet(ind.node), MonitorCompare(ind.node)], [MonitorPut(ind.node)]);
    assert [Lookup(ind), MonitorGet(ind.node), MonitorCompare(ind.node)] + [MonitorPut(ind.node)]
        == Expand(s, A.Indicate(ind));
    StaysTwice(s, t, u, ind.node);
    QuietAgain(s, u, ind.node);
    PutMatches(ws, a, s, ind, u);
  }

  lemma StaysTwice(s: Sys, t: Sys, u: Sys, n: NodeId)
    requires MonitorStays(s, t, n) && MonitorStays(t, u, n)
    ensures MonitorStays(s, u, n)
  {
  }

  lemma RepetitionSimulated(ws: set<Recipient>, a: A.State, s: Sys, ind: Indication)
    requires Inv(ws, s) && Matches(a, s) && A.Enabled(ws, a, A.Indicate(ind))
    requires ind.rawUeId.GnbUeId? && KeyOfInd(ind) in s.records && s.records[KeyOfInd(ind)] < |s.heap|
    requires s.heap[s.records[KeyOfInd(ind)]].tgtCellId == ind.tgtCellId
    ensures Legal(ws, s, Expand(s, A.Indicate(ind)))
    ensures Matches(A.Do(ws, a, A.Indicate(ind)), Run(ws, s, Expand(s, A.Indicate(ind))))
  {
    assert ValueOk(ws, s, s.heap[s.records[KeyOfInd(ind)]]);
    hide Do, Enabled, Inv, Legal, Run, FanOut, GenerateGnbUeIDString, A.Do, OnIndication, PcOf, MonitorOf,
         SameRecords, AllIdle, MonitorStays;
    ReplacementDecision(a, s, ind);
    AtomicIndication(ws, a, ind);
    var t := MonitorReads(ws, a, s, ind);
    QuietAgain(s, t, ind.node);
    RecordsUntouched(a.view.records, s, t);
  }

  lemma KnownUeSimulated(ws: set<Recipient>, a: A.State, s: Sys, ind: Indication)
    requires Inv(ws, s) && Matches(a, s) && A.Enabled(ws, a, A.Indicate(ind))
    requires ind.rawUeId.GnbUeId? && KeyOfInd(ind) in s.records
    ensures Legal(ws, s, Expand(s, A.Indicate(ind)))
    ensures Matches(A.Do(ws, a, A.Indicate(ind)), Run(ws, s, Expand(s, A.Indicate(ind))))
  {
    hide Do, Enabled, Legal, Run, A.Do, Expand, GenerateGnbUeIDString, RendersTo;
    assert RefOk(s, KeyOfInd(ind), s.records[KeyOfInd(ind)]);
    if s.heap[s.records[KeyOfInd(ind)]].tgtCellId != ind.tgtCellId {
      ReplacementSimulated(ws, a, s, ind);
    } else {
      RepetitionSimulated(ws, a, s, ind);
    }
  }

  // ---------- whole runs ----------

  lemma StepSimulated(ws: set<Recipient>, a: A.State, s: Sys, step: A.Step)
    requires Inv(ws, s) && Matches(a, s) && A.Enabled(ws, a, step)
    ensures Legal(ws, s, Expand(s, step)) && Matches(A.Do(ws, a, step), Run(ws, s, Expand(s, step)))
  {
    hide Do, Enabled, Inv, Legal, Run, A.Do, A.Enabled, Expand, Matches;
    match step
    case Indicate(ind) => IndicationSimulated(ws, a, s, ind);
    case Deliver(d) => DeliverySimulated(ws, a, s, d);
  }

  lemma {:induction false} RunSimulated(ws: set<Recipient>, a: A.State, s: Sys, steps: seq<A.Step>) returns (fine: seq<Step>)
    requires Inv(ws, s) && Matches(a, s) && A.Legal(ws, a, steps)
    ensures Legal(ws, s, fine) && Matches(A.Run(ws, a, steps), Run(ws, s, fine))
    decreases |steps|
  {
    hide Do, Enabled, Inv, Legal, Run, A.Do, A.Enabled, Expand, Matches;
    if steps == [] {
      fine := [];
      NoSteps(ws, s);
    } else {
      StepSimulated(ws, a, s, steps[0]);
      RunKeepsInv(ws, s, Expand(s, steps[0]));
      var rest := RunSimulated(ws, A.Do(ws, a, steps[0]), Run(ws, s, Expand(s, steps[0])), steps[1..]);
      RunConcat(ws, s, Expand(s, steps[0]), rest);
      fine := Expand(s, steps[0]) + rest;
    }
  }

  lemma NoSteps(ws: set<Recipient>, s: Sys)
    ensures Legal(ws, s, []) && Run(ws, s, []) == s
  {
  }

  /** Every run of the atomic protocol is an interleaved run that ends in the same store, with
      the same events in flight and the same logs, and with every handler idle. */
  lemma AtomicRunIsInterleaving(ws: set<Recipient>, steps: seq<A.Step>) returns (fine: seq<Step>)
    requires Controller in ws && A.Legal(ws, A.Init, steps)
    ensures Legal(ws, Start, fine) && Matches(A.Run(ws, A.Init, steps), Run(ws, Start, fine))
  {
    hide Do, Enabled, Legal, Run, A.Do, A.Enabled, A.Legal, A.Run;
    StartInv(ws);
    assert Matches(A.Init, Start);
    fine := RunSimulated(ws, A.Init, Start, steps);
  }

  function Delivered(steps: seq<A.Step>): nat {
    if steps == [] then 0 else (if steps[0].Deliver? then 1 else 0) + Delivered(steps[1..])
  }

  lemma AtomicStepCounts(ws: set<Recipient>, a: A.State, step: A.Step)
    requires A.Enabled(ws, a, step)
    ensures A.Do(ws, a, step).received == a.received + if step.Deliver? then 1 else 0
  {
    hide GenerateGnbUeIDString, FanOut;
  }

  lemma {:induction false} AtomicCounts(ws: set<Recipient>, a: A.State, steps: seq<A.Step>)
    requires A.Legal(ws, a, steps)
    ensures A.Run(ws, a, steps).received == a.received + Delivered(steps)
    decreases |steps|
  {
    hide A.Do, A.Enabled;
    if steps != [] {
      AtomicStepCounts(ws, a, steps[0]);
      AtomicCounts(ws, A.Do(ws, a, steps[0]), steps[1..]);
    }
  }

  /** The delivery bound, for the atomic protocol. */
  lemma AtomicDeliveryBound(ws: set<Recipient>, steps: seq<A.Step>)
    requires Controller in ws && A.Legal(ws, A.Init, steps)
    ensures Delivered(steps) <= |A.IndicationsIn(steps)| * (|ws| * (|ws| + 1))
  {
    AtomicCounts(ws, A.Init, steps);
    A.LogIsInput(ws, A.Init, steps);
    hide Do, Enabled, Legal, Run, A.Do, A.Enabled, A.Legal, A.Run;
    var fine := AtomicRunIsInterleaving(ws, steps);
    Quiescence.DeliveryBound(ws, fine);
  }

  // ---------- conservation, for the atomic protocol ----------

  lemma EntryTarget(ws: set<Recipient>, a: A.State, key: string)
    requires A.Inv(ws, a)
    ensures var acc := A.Accepted(a.log, key);
            if key !in a.view.records then acc == [] else
              && acc != [] && a.view.records[key].tgtCellId == acc[|acc| - 1].tgtCellId
              && a.view.records[key].state != Denied
  {
    hide A.Accepted, A.ControlsOf;
    assert A.EntryOk(ws, a, key);
  }

  /** An indication is put exactly if it is accepted. */
  lemma PutIsAcceptance(ws: set<Recipient>, a: A.State, ind: Indication, key: string)
    requires A.Inv(ws, a)
    ensures var d := OnIndication(a.view.records, ind);
            A.Accepted(a.log + [ind], key) ==
            if d.PutValue? && d.key == key then A.Accepted(a.log, key) + [ind] else A.Accepted(a.log, key)
    ensures var d := OnIndication(a.view.records, ind); d.PutValue? ==> d.state == StateCreated
  {
    if ind.rawUeId.GnbUeId? {
      EntryTarget(ws, a, GenerateGnbUeIDString(ind.rawUeId.gnb));
    }
    hide GenerateGnbUeIDString, A.Inv, A.Accepted;
    A.LogSnoc(a.log, ind, key);
  }

  lemma IndicationRequests(ws: set<Recipient>, a: A.State, ind: Indication, key: string)
    requires A.Inv(ws, a) && A.Enabled(ws, a, A.Indicate(ind))
    requires PutCount(a.puts, key, StateCreated) == |A.Accepted(a.log, key)|
    ensures var t := A.Do(ws, a, A.Indicate(ind));
            PutCount(t.puts, key, StateCreated) == |A.Accepted(t.log, key)|
  {
    PutIsAcceptance(ws, a, ind, key);
    AtomicIndication(ws, a, ind);
    hide OnIndication, FanOut, A.Do, A.Enabled, A.Inv, PutCount, A.Accepted;
    var d := OnIndication(a.view.records, ind);
    if d.PutValue? {
      PutCountSnoc(a.puts, EventFor(d.key in a.view.records, d.key, d.state), key, StateCreated);
    }
  }

  lemma DeliveryRequests(ws: set<Recipient>, a: A.State, d: Delivery, key: string)
    requires A.Inv(ws, a) && A.Enabled(ws, a, A.Deliver(d))
    ensures var t := A.Do(ws, a, A.Deliver(d));
            PutCount(t.puts, key, StateCreated) == PutCount(a.puts, key, StateCreated) && t.log == a.log
  {
    assert A.DeliveryOk(ws, a, d);
    if Reads(d.to, d.event) && Acts(d.to, d.event, a.view.records[d.event.key]) {
      AtomicActing(ws, a, d);
      PutCountSnoc(a.puts, EventFor(true, d.event.key, StateWritten(d.to)), key, StateCreated);
    } else {
      AtomicIgnoring(ws, a, d);
    }
  }

  lemma {:induction false} RequestsAreAcceptances(ws: set<Recipient>, a: A.State, steps: seq<A.Step>, key: string)
    requires A.Inv(ws, a) && A.Legal(ws, a, steps)
    requires PutCount(a.puts, key, StateCreated) == |A.Accepted(a.log, key)|
    ensures PutCount(A.Run(ws, a, steps).puts, key, StateCreated) == |A.Accepted(A.Run(ws, a, steps).log, key)|
    decreases |steps|
  {
    hide A.Do, A.Enabled, A.Inv, PutCount, A.Accepted;
    if steps != [] {
      A.StepKeepsInv(ws, a, steps[0]);
      match steps[0] {
        case Indicate(ind) => IndicationRequests(ws, a, ind, key);
        case Deliver(d) => DeliveryRequests(ws, a, d, key);
      }
      RequestsAreAcceptances(ws, A.Do(ws, a, steps[0]), steps[1..], key);
    }
  }

  /** For each UE: each new or changed target is requested once, and each request is pending at
      the controller or approved; the control attempts to one node and the approvals pending
      there never exceed the approvals; and with one node only, control attempts, pending
      approvals and pending requests add up to the new or changed targets. */
  lemma AtomicConservation(ws: set<Recipient>, steps: seq<A.Step>, key: string, n: NodeId)
    requires Controller in ws && Node(n) in ws && A.Legal(ws, A.Init, steps)
    ensures var a := A.Run(ws, A.Init, steps);
            PutCount(a.puts, key, Approved) + Copies(a.view.inFlight, key, StateCreated, Controller)
            == |A.Accepted(a.log, key)|
    ensures var a := A.Run(ws, A.Init, steps);
            ControlCount(a.controls, key, n) + Copies(a.view.inFlight, key, Approved, Node(n))
            <= PutCount(a.puts, key, Approved)
    ensures var a := A.Run(ws, A.Init, steps);
            ws == {Controller, Node(n)} ==>
              ControlCount(a.controls, key, n) + Copies(a.view.inFlight, key, Approved, Node(n))
              + Copies(a.view.inFlight, key, StateCreated, Controller) == |A.Accepted(a.log, key)|
  {
    A.InitInv(ws);
    RequestsAreAcceptances(ws, A.Init, steps, key);
    hide Do, Enabled, Legal, Run, A.Do, A.Enabled, A.Legal, A.Run, PutCount, ControlCount, A.Accepted, Copies;
    var fine := AtomicRunIsInterleaving(ws, steps);
    Conservation(ws, fine, key, n, StateCreated);
    var s := Run(ws, Start, fine);
    assert PcOf(s, Controller) == Idle && PcOf(s, Node(n)) == Idle;
  }
}
