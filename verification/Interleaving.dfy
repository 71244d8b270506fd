/** The handover protocol at the granularity of single store calls: a handler can be
    overtaken between receiving an event, reading the entry, sending the control, writing the
    state of the shared value and putting it back. Values live on a heap and are aliased. */
module Interleaving {
  import opened UeKey
  import opened HandoverTypes

  type Ref = nat

  /** Where the controller or a sender is in its loop. `key` and `ref` are the entry it read. */
  datatype Pc =
    | Idle
    | Got(e: Event)
    | Have(key: string, ref: Ref)
    | Sent(key: string, ref: Ref)
    | Written(key: string, ref: Ref)
    | Panicked

  /** Where a monitor is in processing one indication. */
  datatype MonitorPc =
    | Waits
    | Present(ind: Indication)
    | Read(ind: Indication, ref: Ref)
    | PutNew(ind: Indication)
    | PutOld(key: string, ref: Ref)

  datatype Sys = Sys(heap: seq<MetricValue>, records: map<string, Ref>, inFlight: multiset<Delivery>,
                     handlers: map<Recipient, Pc>, monitors: map<NodeId, MonitorPc>,
                     log: seq<Indication>, puts: seq<Event>, controls: seq<Control>, received: nat)

  const Start: Sys := Sys([], map[], multiset{}, map[], map[], [], [], [], 0)

  datatype Step =
    | Receive(d: Delivery)
    | GetEntry(r: Recipient)
    | SendControl(n: NodeId)
    | WriteState(r: Recipient)
    | PutEntry(r: Recipient)
    | Lookup(ind: Indication)
    | MonitorGet(n: NodeId)
    | MonitorCompare(n: NodeId)
    | MonitorPut(n: NodeId)

  function PcOf(s: Sys, r: Recipient): Pc {
    if r in s.handlers then s.handlers[r] else Idle
  }

  function MonitorOf(s: Sys, n: NodeId): MonitorPc {
    if n in s.monitors then s.monitors[n] else Waits
  }

  function KeyOfInd(ind: Indication): string
    requires ind.rawUeId.GnbUeId?
  {
    GenerateGnbUeIDString(ind.rawUeId.gnb)
  }

  /** Bounds on references are memory safety, not protocol conditions. */
  predicate Enabled(ws: set<Recipient>, s: Sys, step: Step) {
    match step
    case Receive(d) => d in s.inFlight && PcOf(s, d.to) == Idle
    case GetEntry(r) =>
      PcOf(s, r).Got? && (PcOf(s, r).e.key in s.records ==> s.records[PcOf(s, r).e.key] < |s.heap|)
    case SendControl(n) => PcOf(s, Node(n)).Have? && PcOf(s, Node(n)).ref < |s.heap|
    case WriteState(r) =>
      (if r.Node? then PcOf(s, r).Sent? else PcOf(s, r).Have?) && PcOf(s, r).ref < |s.heap|
    case PutEntry(r) => PcOf(s, r).Written?
    case Lookup(ind) => Node(ind.node) in ws && MonitorOf(s, ind.node) == Waits
    case MonitorGet(n) => MonitorOf(s, n).Present? && MonitorOf(s, n).ind.rawUeId.GnbUeId?
    case MonitorCompare(n) =>
      MonitorOf(s, n).Read? && MonitorOf(s, n).ind.rawUeId.GnbUeId? && MonitorOf(s, n).ref < |s.heap|
    case MonitorPut(n) =>
      MonitorOf(s, n).PutOld? || (MonitorOf(s, n).PutNew? && MonitorOf(s, n).ind.rawUeId.GnbUeId?)
  }

  /** `Store.Put` under its lock: replace the record, tell every watcher. */
  function Put(ws: set<Recipient>, s: Sys, key: string, ref: Ref, state: MHOState): Sys {
    var e := EventFor(key in s.records, key, state);
    s.(records := s.records[key := ref], inFlight := s.inFlight + FanOut(ws, e), puts := s.puts + [e])
  }

  function AfterGet(s: Sys, r: Recipient, e: Event): Pc
    requires e.key in s.records ==> s.records[e.key] < |s.heap|
  {
    if !Reads(r, e) then Idle
    else if e.key !in s.records then Panicked
    else if Acts(r, e, s.heap[s.records[e.key]]) then Have(e.key, s.records[e.key])
    else Idle
  }

  function AfterCompare(s: Sys, ind: Indication, ref: Ref): MonitorPc
    requires ind.rawUeId.GnbUeId? && ref < |s.heap|
  {
    if s.heap[ref].tgtCellId != ind.tgtCellId then PutNew(ind)
    else if s.heap[ref].state == Denied then PutOld(KeyOfInd(ind), ref)
    else Waits
  }

  function Do(ws: set<Recipient>, s: Sys, step: Step): Sys
    requires Enabled(ws, s, step)
  {
    match step
    case Receive(d) =>
      s.(inFlight := s.inFlight - multiset{d}, handlers := s.handlers[d.to := Got(d.event)], received := s.received + 1)
    case GetEntry(r) =>
      s.(handlers := s.handlers[r := AfterGet(s, r, PcOf(s, r).e)])
    case SendControl(n) =>
      var pc := PcOf(s, Node(n));
      s.(controls := s.controls + [ControlFor(s.heap[pc.ref]).(node := n)],
         handlers := s.handlers[Node(n) := Sent(pc.key, pc.ref)])
    case WriteState(r) =>
      var pc := PcOf(s, r);
      s.(heap := s.heap[pc.ref := s.heap[pc.ref].(state := StateWritten(r))],
         handlers := s.handlers[r := Written(pc.key, pc.ref)])
    case PutEntry(r) =>
      var pc := PcOf(s, r);
      Put(ws, s, pc.key, pc.ref, StateWritten(r)).(handlers := s.handlers[r := Idle])
    case Lookup(ind) =>
      var pc := if !ind.rawUeId.GnbUeId? then Waits
                else if KeyOfInd(ind) in s.records then Present(ind) else PutNew(ind);
      s.(log := s.log + [ind], monitors := s.monitors[ind.node := pc])
    case MonitorGet(n) =>
      var ind := MonitorOf(s, n).ind;
      s.(monitors := s.monitors[n := if KeyOfInd(ind) in s.records then Read(ind, s.records[KeyOfInd(ind)]) else Waits])
    case MonitorCompare(n) =>
      var pc := MonitorOf(s, n);
      s.(monitors := s.monitors[n := AfterCompare(s, pc.ind, pc.ref)])
    case MonitorPut(n) =>
      var pc := MonitorOf(s, n);
      if pc.PutOld? then Put(ws, s, pc.key, pc.ref, Denied).(monitors := s.monitors[n := Waits])
      else
        var t := s.(heap := s.heap + [FreshValue(pc.ind)], monitors := s.monitors[n := Waits]);
        Put(ws, t, KeyOfInd(pc.ind), |s.heap|, StateCreated)
  }

  predicate Legal(ws: set<Recipient>, s: Sys, steps: seq<Step>)
    decreases |steps|
  {
    steps == [] || (Enabled(ws, s, steps[0]) && Legal(ws, Do(ws, s, steps[0]), steps[1..]))
  }

  function Run(ws: set<Recipient>, s: Sys, steps: seq<Step>): Sys
    requires Legal(ws, s, steps)
    decreases |steps|
  {
    if steps == [] then s else Run(ws, Do(ws, s, steps[0]), steps[1..])
  }

  /** The indications that monitors begin to process in a run. */
  function LookedUp(steps: seq<Step>): seq<Indication> {
    if steps == [] then [] else (if steps[0].Lookup? then [steps[0].ind] else []) + LookedUp(steps[1..])
  }

  lemma StepLog(ws: set<Recipient>, s: Sys, step: Step)
    requires Enabled(ws, s, step)
    ensures Do(ws, s, step).log == s.log + if step.Lookup? then [step.ind] else []
  {
    hide GenerateGnbUeIDString, FanOut;
  }

  lemma {:induction false} LogIsInput(ws: set<Recipient>, s: Sys, steps: seq<Step>)
    requires Legal(ws, s, steps)
    ensures Run(ws, s, steps).log == s.log + LookedUp(steps)
    decreases |steps|
  {
    if steps != [] {
      StepLog(ws, s, steps[0]);
      hide Do, Enabled;
      LogIsInput(ws, Do(ws, s, steps[0]), steps[1..]);
    }
  }

  /** No event in flight and no handler under way. */
  ghost predicate Quiescent(s: Sys) {
    s.inFlight == multiset{} && (forall r :: PcOf(s, r) == Idle) && (forall n: NodeId :: MonitorOf(s, n) == Waits)
  }

  /** The thread a step belongs to. */
  function ThreadOf(step: Step): Recipient {
    match step
    case Receive(d) => d.to
    case GetEntry(r) => r
    case SendControl(n) => Node(n)
    case WriteState(r) => r
    case PutEntry(r) => r
    case Lookup(ind) => Node(ind.node)
    case MonitorGet(n) => Node(n)
    case MonitorCompare(n) => Node(n)
    case MonitorPut(n) => Node(n)
  }

  lemma {:induction false} RunConcat(ws: set<Recipient>, s: Sys, a: seq<Step>, b: seq<Step>)
    requires Legal(ws, s, a) && Legal(ws, Run(ws, s, a), b)
    ensures Legal(ws, s, a + b) && Run(ws, s, a + b) == Run(ws, Run(ws, s, a), b)
    decreases |a|
  {
    hide Do, Enabled;
    if a == [] {
      assert a + b == b;
    } else {
      RunConcat(ws, Do(ws, s, a[0]), a[1..], b);
      assert (a + b)[0] == a[0] && (a + b)[1..] == a[1..] + b;
    }
  }

  lemma Prepend(ws: set<Recipient>, s: Sys, step: Step, rest: seq<Step>)
    requires Enabled(ws, s, step) && Legal(ws, Do(ws, s, step), rest)
    ensures Legal(ws, s, [step] + rest) && Run(ws, s, [step] + rest) == Run(ws, Do(ws, s, step), rest)
  {
    hide Do, Enabled;
    assert ([step] + rest)[0] == step && ([step] + rest)[1..] == rest;
  }

  // ---------- the structural invariant ----------

  /** A value on the heap: every field but `state` is that of one logged indication. */
  predicate ValueOk(ws: set<Recipient>, s: Sys, v: MetricValue) {
    && v.rawUeId.GnbUeId? && OriginOf(v) in s.log && Node(v.e2NodeId) in ws
    && (v.state == StateCreated || v.state == Approved || v.state == Done)
  }

  predicate RefOk(s: Sys, key: string, ref: Ref) {
    ref < |s.heap| && RendersTo(s.heap[ref].rawUeId, key)
  }

  predicate EventOk(s: Sys, e: Event) {
    && e.key in s.records
    && (e.eventType == Created || e.eventType == Updated)
    && (e.state == StateCreated || e.state == Approved || e.state == Done)
    && (e.state == Approved ==> e.eventType == Updated)
  }

  /** A handler that has read an entry holds a value of that key; a sender's is its own. */
  predicate HoldsOk(s: Sys, r: Recipient, key: string, ref: Ref) {
    && RefOk(s, key, ref) && key in s.records
    && (r.Node? ==> s.heap[ref].e2NodeId == r.id)
  }

  predicate PcOk(ws: set<Recipient>, s: Sys, r: Recipient, pc: Pc) {
    match pc
    case Idle => true
    case Got(e) => r in ws && EventOk(s, e)
    case Have(key, ref) => r in ws && HoldsOk(s, r, key, ref)
    case Sent(key, ref) => r in ws && r.Node? && HoldsOk(s, r, key, ref)
    case Written(key, ref) => r in ws && HoldsOk(s, r, key, ref) && s.heap[ref].state != StateCreated
    case Panicked => false
  }

  predicate IndOk(ws: set<Recipient>, s: Sys, n: NodeId, ind: Indication) {
    ind in s.log && ind.node == n && Node(n) in ws && ind.rawUeId.GnbUeId?
  }

  predicate MonitorOk(ws: set<Recipient>, s: Sys, n: NodeId, pc: MonitorPc) {
    match pc
    case Waits => true
    case Present(ind) => IndOk(ws, s, n, ind) && KeyOfInd(ind) in s.records
    case Read(ind, ref) => IndOk(ws, s, n, ind) && RefOk(s, KeyOfInd(ind), ref) && KeyOfInd(ind) in s.records
    case PutNew(ind) => IndOk(ws, s, n, ind)
    case PutOld(_, _) => false
  }

  /** Every control attempt carries the fields of one single logged indication of its node. */
  predicate ControlOk(s: Sys, c: Control) {
    Indication(c.node, c.rawUeId, c.tgtCellId, c.callProcessId) in s.log
  }

  ghost predicate ValuesOk(ws: set<Recipient>, s: Sys) {
    && (forall ref :: 0 <= ref < |s.heap| ==> ValueOk(ws, s, s.heap[ref]))
    && (forall key :: key in s.records ==> RefOk(s, key, s.records[key]))
    && (forall c :: c in s.controls ==> ControlOk(s, c))
  }

  ghost predicate EventsOk(ws: set<Recipient>, s: Sys) {
    && (forall d :: d in s.inFlight ==> EventOk(s, d.event) && d.to in ws)
    && (forall e :: e in s.puts ==> EventOk(s, e))
  }

  ghost predicate Inv(ws: set<Recipient>, s: Sys) {
    && Controller in ws
    && ValuesOk(ws, s) && EventsOk(ws, s)
    && (forall r :: PcOk(ws, s, r, PcOf(s, r)))
    && (forall n: NodeId :: MonitorOk(ws, s, n, MonitorOf(s, n)))
  }

  lemma StartInv(ws: set<Recipient>)
    requires Controller in ws
    ensures Inv(ws, Start)
  {
  }

  /** What no step undoes: logged indications, entries, and all of a value but its state. */
  ghost predicate Extends(s: Sys, s': Sys) {
    && (forall ind :: ind in s.log ==> ind in s'.log)
    && |s.heap| <= |s'.heap|
    && (forall ref :: 0 <= ref < |s.heap| ==>
          s'.heap[ref] == s.heap[ref].(state := s'.heap[ref].state)
          && (s.heap[ref].state != StateCreated ==> s'.heap[ref].state != StateCreated))
    && (forall key :: key in s.records ==> key in s'.records)
  }

  lemma StepExtends(ws: set<Recipient>, s: Sys, step: Step)
    requires Enabled(ws, s, step)
    ensures Extends(s, Do(ws, s, step))
  {
  }

  lemma ExtendsTransitive(a: Sys, b: Sys, c: Sys)
    requires Extends(a, b) && Extends(b, c)
    ensures Extends(a, c)
  {
  }

  lemma PcFrame(ws: set<Recipient>, s: Sys, s': Sys, r: Recipient, pc: Pc)
    requires Extends(s, s') && PcOk(ws, s, r, pc)
    ensures PcOk(ws, s', r, pc)
  {
  }

  lemma MonitorFrame(ws: set<Recipient>, s: Sys, s': Sys, n: NodeId, pc: MonitorPc)
    requires Extends(s, s') && MonitorOk(ws, s, n, pc)
    ensures MonitorOk(ws, s', n, pc)
  {
  }

  /** The thread that a step belongs to ends up somewhere sound. */
  lemma ReceivedPc(ws: set<Recipient>, s: Sys, d: Delivery)
    requires Inv(ws, s) && Enabled(ws, s, Receive(d))
    ensures PcOk(ws, Do(ws, s, Receive(d)), d.to, PcOf(Do(ws, s, Receive(d)), d.to))
  {
    hide GenerateGnbUeIDString, FanOut;
    ReceivedIsOk(ws, s, d);
  }

  lemma ReadPc(ws: set<Recipient>, s: Sys, r: Recipient)
    requires Inv(ws, s) && Enabled(ws, s, GetEntry(r))
    ensures PcOk(ws, Do(ws, s, GetEntry(r)), r, PcOf(Do(ws, s, GetEntry(r)), r))
  {
    hide GenerateGnbUeIDString, FanOut;
    assert PcOk(ws, s, r, PcOf(s, r));
    var e := PcOf(s, r).e;
    assert RefOk(s, e.key, s.records[e.key]);
  }

  lemma SentPc(ws: set<Recipient>, s: Sys, n: NodeId)
    requires Inv(ws, s) && Enabled(ws, s, SendControl(n))
    ensures PcOk(ws, Do(ws, s, SendControl(n)), Node(n), PcOf(Do(ws, s, SendControl(n)), Node(n)))
  {
    hide GenerateGnbUeIDString, FanOut;
    assert PcOk(ws, s, Node(n), PcOf(s, Node(n)));
  }

  lemma WrittenPc(ws: set<Recipient>, s: Sys, r: Recipient)
    requires Inv(ws, s) && Enabled(ws, s, WriteState(r))
    ensures PcOk(ws, Do(ws, s, WriteState(r)), r, PcOf(Do(ws, s, WriteState(r)), r))
  {
    hide GenerateGnbUeIDString, FanOut;
    assert PcOk(ws, s, r, PcOf(s, r));
  }

  predicate IsMonitorStep(step: Step) {
    step.Lookup? || step.MonitorGet? || step.MonitorCompare? || step.MonitorPut?
  }

  lemma OnlyThreadMoves(ws: set<Recipient>, s: Sys, step: Step, r: Recipient)
    requires Enabled(ws, s, step) && PcOf(Do(ws, s, step), r) != PcOf(s, r)
    ensures r == ThreadOf(step) && !IsMonitorStep(step)
    ensures step.PutEntry? ==> PcOf(Do(ws, s, step), r) == Idle
  {
    hide GenerateGnbUeIDString, FanOut;
  }

  lemma MovedPc(ws: set<Recipient>, s: Sys, step: Step, r: Recipient)
    requires Inv(ws, s) && Enabled(ws, s, step)
    requires PcOf(Do(ws, s, step), r) != PcOf(s, r)
    ensures PcOk(ws, Do(ws, s, step), r, PcOf(Do(ws, s, step), r))
  {
    hide Do, Enabled, Inv, PcOf, EventOk, HoldsOk;
    OnlyThreadMoves(ws, s, step, r);
    match step {
      case Receive(d) => ReceivedPc(ws, s, d);
      case GetEntry(q) => ReadPc(ws, s, q);
      case SendControl(n) => SentPc(ws, s, n);
      case WriteState(q) => WrittenPc(ws, s, q);
      case _ =>
    }
  }

  lemma LookedUpMonitor(ws: set<Recipient>, s: Sys, ind: Indication)
    requires Enabled(ws, s, Lookup(ind))
    ensures var s' := Do(ws, s, Lookup(ind)); MonitorOk(ws, s', ind.node, MonitorOf(s', ind.node))
  {
    hide GenerateGnbUeIDString, FanOut;
  }

  lemma ReadMonitor(ws: set<Recipient>, s: Sys, n: NodeId)
    requires Inv(ws, s) && Enabled(ws, s, MonitorGet(n))
    ensures var s' := Do(ws, s, MonitorGet(n)); MonitorOk(ws, s', n, MonitorOf(s', n))
  {
    hide GenerateGnbUeIDString, FanOut;
    assert MonitorOk(ws, s, n, MonitorOf(s, n));
    var key := KeyOfInd(MonitorOf(s, n).ind);
    assert RefOk(s, key, s.records[key]);
  }

  lemma ComparedMonitor(ws: set<Recipient>, s: Sys, n: NodeId)
    requires Inv(ws, s) && Enabled(ws, s, MonitorCompare(n))
    ensures var s' := Do(ws, s, MonitorCompare(n)); MonitorOk(ws, s', n, MonitorOf(s', n))
  {
    hide GenerateGnbUeIDString, FanOut;
    assert MonitorOk(ws, s, n, MonitorOf(s, n));
    assert ValueOk(ws, s, s.heap[MonitorOf(s, n).ref]);
  }

  lemma ReceivedIsOk(ws: set<Recipient>, s: Sys, d: Delivery)
    requires EventsOk(ws, s) && d in s.inFlight
    ensures EventOk(s, d.event) && d.to in ws
  {
  }

  lemma OnlyThreadMonitorMoves(ws: set<Recipient>, s: Sys, step: Step, n: NodeId)
    requires Enabled(ws, s, step) && MonitorOf(Do(ws, s, step), n) != MonitorOf(s, n)
    ensures Node(n) == ThreadOf(step) && IsMonitorStep(step)
    ensures step.MonitorPut? ==> MonitorOf(Do(ws, s, step), n) == Waits
  {
    hide GenerateGnbUeIDString, FanOut;
  }

  lemma MovedMonitor(ws: set<Recipient>, s: Sys, step: Step, n: NodeId)
    requires Inv(ws, s) && Enabled(ws, s, step)
    requires MonitorOf(Do(ws, s, step), n) != MonitorOf(s, n)
    ensures MonitorOk(ws, Do(ws, s, step), n, MonitorOf(Do(ws, s, step), n))
  {
    hide Do, Enabled, Inv, MonitorOf, IndOk, RefOk, GenerateGnbUeIDString;
    OnlyThreadMonitorMoves(ws, s, step, n);
    match step {
      case Lookup(ind) => LookedUpMonitor(ws, s, ind);
      case MonitorGet(m) => ReadMonitor(ws, s, m);
      case MonitorCompare(m) => ComparedMonitor(ws, s, m);
      case _ =>
    }
  }

  lemma PutKeepsEvents(ws: set<Recipient>, s: Sys, s': Sys, e: Event)
    requires EventsOk(ws, s) && Extends(s, s') && EventOk(s', e)
    requires s'.inFlight == s.inFlight + FanOut(ws, e) && s'.puts == s.puts + [e]
    ensures EventsOk(ws, s')
  {
    forall d | d in s'.inFlight ensures EventOk(s', d.event) && d.to in ws {
      assert d in s.inFlight || d in FanOut(ws, e);
    }
  }

  lemma OtherStepKeepsEvents(ws: set<Recipient>, s: Sys, s': Sys)
    requires EventsOk(ws, s) && Extends(s, s') && s'.inFlight <= s.inFlight && s'.puts == s.puts
    ensures EventsOk(ws, s')
  {
    forall d | d in s'.inFlight ensures EventOk(s', d.event) && d.to in ws {
      assert d in s.inFlight;
    }
  }

  lemma StepKeepsEvents(ws: set<Recipient>, s: Sys, step: Step)
    requires Inv(ws, s) && Enabled(ws, s, step) && Extends(s, Do(ws, s, step))
    ensures EventsOk(ws, Do(ws, s, step))
  {
    hide GenerateGnbUeIDString, FanOut, Extends, EventsOk;
    var s' := Do(ws, s, step);
    match step {
      case PutEntry(r) =>
        var pc := PcOf(s, r);
        assert PcOk(ws, s, r, pc);
        PutKeepsEvents(ws, s, s', EventFor(true, pc.key, StateWritten(r)));
      case MonitorPut(n) =>
        assert MonitorOk(ws, s, n, MonitorOf(s, n));
        var key := KeyOfInd(MonitorOf(s, n).ind);
        PutKeepsEvents(ws, s, s', EventFor(key in s.records, key, StateCreated));
      case _ => OtherStepKeepsEvents(ws, s, s');
    }
  }

  lemma ValueFrame(ws: set<Recipient>, s: Sys, s': Sys)
    requires ValuesOk(ws, s) && Extends(s, s') && |s'.heap| == |s.heap|
    requires forall ref :: 0 <= ref < |s.heap| ==>
               s'.heap[ref].state == s.heap[ref].state || s'.heap[ref].state in {Approved, Done}
    requires forall key :: key in s'.records ==> RefOk(s, key, s'.records[key])
    requires forall c :: c in s'.controls ==> ControlOk(s', c)
    ensures ValuesOk(ws, s')
  {
    forall ref | 0 <= ref < |s'.heap| ensures ValueOk(ws, s', s'.heap[ref]) {
      assert ValueOk(ws, s, s.heap[ref]);
      assert OriginOf(s'.heap[ref]) == OriginOf(s.heap[ref]);
    }
  }

  lemma NewValue(ws: set<Recipient>, s: Sys, n: NodeId)
    requires Inv(ws, s) && Enabled(ws, s, MonitorPut(n)) && Extends(s, Do(ws, s, MonitorPut(n)))
    ensures ValuesOk(ws, Do(ws, s, MonitorPut(n)))
  {
    hide FanOut, GenerateGnbUeIDString;
    assert MonitorOk(ws, s, n, MonitorOf(s, n));
    var ind := MonitorOf(s, n).ind;
    assert OriginOf(FreshValue(ind)) == ind;
    var s' := Do(ws, s, MonitorPut(n));
    forall ref | 0 <= ref < |s'.heap| ensures ValueOk(ws, s', s'.heap[ref]) {
      if ref < |s.heap| {
        assert ValueOk(ws, s, s.heap[ref]) && s'.heap[ref] == s.heap[ref];
      }
    }
    forall key | key in s'.records ensures RefOk(s', key, s'.records[key]) {
      if key != KeyOfInd(ind) {
        assert RefOk(s, key, s.records[key]);
      }
    }
  }

  lemma PutKeepsValues(ws: set<Recipient>, s: Sys, r: Recipient)
    requires Inv(ws, s) && Enabled(ws, s, PutEntry(r)) && Extends(s, Do(ws, s, PutEntry(r)))
    ensures ValuesOk(ws, Do(ws, s, PutEntry(r)))
  {
    hide GenerateGnbUeIDString, FanOut, Extends;
    assert PcOk(ws, s, r, PcOf(s, r));
    ValueFrame(ws, s, Do(ws, s, PutEntry(r)));
  }

  lemma StepKeepsValues(ws: set<Recipient>, s: Sys, step: Step)
    requires Inv(ws, s) && Enabled(ws, s, step) && Extends(s, Do(ws, s, step))
    ensures ValuesOk(ws, Do(ws, s, step))
  {
    hide GenerateGnbUeIDString, FanOut, Extends;
    match step {
      case SendControl(n) => ControlIsLogged(ws, s, n);
      case WriteState(r) => ValueFrame(ws, s, Do(ws, s, step));
      case PutEntry(r) => PutKeepsValues(ws, s, r);
      case MonitorPut(n) => NewValue(ws, s, n);
      case _ => ValueFrame(ws, s, Do(ws, s, step));
    }
  }

  lemma ControlIsLogged(ws: set<Recipient>, s: Sys, n: NodeId)
    requires Inv(ws, s) && Enabled(ws, s, SendControl(n)) && Extends(s, Do(ws, s, SendControl(n)))
    ensures ValuesOk(ws, Do(ws, s, SendControl(n)))
  {
    hide GenerateGnbUeIDString, FanOut, Extends;
    var v := s.heap[PcOf(s, Node(n)).ref];
    assert PcOk(ws, s, Node(n), PcOf(s, Node(n))) && ValueOk(ws, s, v);
    var c := ControlFor(v).(node := n);
    assert ControlOk(s, c);
    ValueFrame(ws, s, Do(ws, s, SendControl(n)));
  }

  lemma StepKeepsInv(ws: set<Recipient>, s: Sys, step: Step)
    requires Inv(ws, s) && Enabled(ws, s, step)
    ensures Inv(ws, Do(ws, s, step))
  {
    StepExtends(ws, s, step);
    StepKeepsEvents(ws, s, step);
    StepKeepsValues(ws, s, step);
    hide Do, Enabled;
    var s' := Do(ws, s, step);
    forall r: Recipient ensures PcOk(ws, s', r, PcOf(s', r)) {
      if PcOf(s', r) == PcOf(s, r) {
        PcFrame(ws, s, s', r, PcOf(s, r));
      } else {
        MovedPc(ws, s, step, r);
      }
    }
    forall n: NodeId ensures MonitorOk(ws, s', n, MonitorOf(s', n)) {
      if MonitorOf(s', n) == MonitorOf(s, n) {
        MonitorFrame(ws, s, s', n, MonitorOf(s, n));
      } else {
        MovedMonitor(ws, s, step, n);
      }
    }
  }

  lemma {:induction false} RunKeepsInv(ws: set<Recipient>, s: Sys, steps: seq<Step>)
    requires Inv(ws, s) && Legal(ws, s, steps)
    ensures Inv(ws, Run(ws, s, steps)) && Extends(s, Run(ws, s, steps))
    decreases |steps|
  {
    hide Do, Enabled, Inv;
    if steps != [] {
      StepKeepsInv(ws, s, steps[0]);
      StepExtends(ws, s, steps[0]);
      RunKeepsInv(ws, Do(ws, s, steps[0]), steps[1..]);
      ExtendsTransitive(s, Do(ws, s, steps[0]), Run(ws, s, steps));
    }
  }

  // ---------- what holds in every run, however the store calls interleave ----------

  /** Every control attempt sent to a node carries the UE ID, target cell and call process ID
      of one single indication received from that same node. */
  lemma ControlProvenance(ws: set<Recipient>, steps: seq<Step>, c: Control)
    requires Controller in ws && Legal(ws, Start, steps) && c in Run(ws, Start, steps).controls
    ensures Indication(c.node, c.rawUeId, c.tgtCellId, c.callProcessId) in LookedUp(steps)
  {
    LogIsInput(ws, Start, steps);
    hide Run, Legal, LookedUp;
    StartInv(ws);
    RunKeepsInv(ws, Start, steps);
    assert ControlOk(Run(ws, Start, steps), c);
  }

  predicate EntrySafe(s: Sys, key: string)
    requires key in s.records
  {
    RefOk(s, key, s.records[key]) && s.heap[s.records[key]].state in {StateCreated, Approved, Done}
  }

  /** The store through every run: entries never disappear, the value under a key is that of
      a UE that renders to it and is never waiting or denied, every event in flight names a
      present entry, an approval is always typed Updated, so no sender filters it out, and no
      handler panics. */
  lemma StoreSafety(ws: set<Recipient>, before: seq<Step>, after: seq<Step>)
    requires Controller in ws && Legal(ws, Start, before) && Legal(ws, Run(ws, Start, before), after)
    ensures Run(ws, Start, before).records.Keys <= Run(ws, Run(ws, Start, before), after).records.Keys
    ensures var s := Run(ws, Start, before);
            && (forall key :: key in s.records ==> EntrySafe(s, key))
            && (forall d :: d in s.inFlight ==> d.event.key in s.records)
            && (forall d :: d in s.inFlight && d.event.state == Approved ==> d.event.eventType == Updated)
            && (forall r :: PcOf(s, r) != Panicked)
  {
    hide Run, Legal;
    StartInv(ws);
    RunKeepsInv(ws, Start, before);
    var s := Run(ws, Start, before);
    RunKeepsInv(ws, s, after);
    forall key | key in s.records ensures EntrySafe(s, key) {
      assert RefOk(s, key, s.records[key]);
      assert ValueOk(ws, s, s.heap[s.records[key]]);
    }
    forall r ensures PcOf(s, r) != Panicked {
      assert PcOk(ws, s, r, PcOf(s, r));
    }
  }
}
