/** Conservation of requests, approvals and control attempts, however the single store calls
    interleave. */
module HandoverCounts {
  import opened UeKey
  import opened HandoverTypes
  import opened Interleaving

  /** How often a state was put for a UE. */
  function PutCount(puts: seq<Event>, key: string, state: MHOState): nat {
    multiset(puts)[Event(key, Created, state)] + multiset(puts)[Event(key, Updated, state)]
  }

  /** The control attempts sent to one node for one UE. */
  function ControlCount(cs: seq<Control>, key: string, n: NodeId): nat {
    if cs == [] then 0 else
      ControlCount(cs[..|cs| - 1], key, n)
      + (if cs[|cs| - 1].node == n && RendersTo(cs[|cs| - 1].rawUeId, key) then 1 else 0)
  }

  lemma ControlCountSnoc(cs: seq<Control>, c: Control, key: string, n: NodeId)
    ensures ControlCount(cs + [c], key, n) ==
            ControlCount(cs, key, n) + (if c.node == n && RendersTo(c.rawUeId, key) then 1 else 0)
  {
    assert (cs + [c])[..|cs|] == cs;
  }

  /** 1 while the controller is between receiving a request of the UE and putting its approval. */
  function Approving(s: Sys, key: string): nat {
    match PcOf(s, Controller)
    case Got(e) => if e.key == key && e.state == StateCreated then 1 else 0
    case Have(k, _) => if k == key then 1 else 0
    case Written(k, _) => if k == key then 1 else 0
    case _ => 0
  }

  /** 1 while a sender is between receiving an approval of the UE and its control attempt. */
  function Sending(s: Sys, key: string, n: NodeId): nat {
    match PcOf(s, Node(n))
    case Got(e) => if e.key == key && e.state == Approved then 1 else 0
    case Have(k, _) => if k == key then 1 else 0
    case _ => 0
  }

  /** Each request put for the UE is in flight to the controller, in its hands, or approved. */
  predicate RequestsBalance(s: Sys, key: string) {
    PutCount(s.puts, key, Approved) + Copies(s.inFlight, key, StateCreated, Controller) + Approving(s, key)
    == PutCount(s.puts, key, StateCreated)
  }

  function ControlsSpent(s: Sys, key: string, n: NodeId): nat {
    ControlCount(s.controls, key, n) + Copies(s.inFlight, key, Approved, Node(n)) + Sending(s, key, n)
  }

  ghost predicate OnlyNode(ws: set<Recipient>, n: NodeId) {
    forall m: NodeId :: Node(m) in ws ==> m == n
  }

  /** The control attempts to one node never outrun the approvals; with one node only, each
      approval is in flight to it, in its hands, or attempted. */
  predicate ControlsBalance(single: bool, s: Sys, key: string, n: NodeId) {
    && ControlsSpent(s, key, n) <= PutCount(s.puts, key, Approved)
    && (single ==> ControlsSpent(s, key, n) == PutCount(s.puts, key, Approved))
  }

  /** An entry is announced as created exactly once, and as such. */
  predicate CreatedOnce(s: Sys, key: string, state: MHOState) {
    multiset(s.puts)[Event(key, Created, state)] == if key in s.records && state == StateCreated then 1 else 0
  }

  predicate Balanced(single: bool, s: Sys, key: string, n: NodeId, state: MHOState) {
    RequestsBalance(s, key) && ControlsBalance(single, s, key, n) && CreatedOnce(s, key, state)
  }

  lemma PutCountSnoc(puts: seq<Event>, e: Event, key: string, state: MHOState)
    requires e.eventType in {Created, Updated}
    ensures PutCount(puts + [e], key, state) == PutCount(puts, key, state)
                                               + (if e.key == key && e.state == state then 1 else 0)
  {
  }

  lemma CopiesFanOut(ws: set<Recipient>, m: multiset<Delivery>, e: Event, key: string, state: MHOState, r: Recipient)
    requires e.eventType in {Created, Updated}
    ensures Copies(m + FanOut(ws, e), key, state, r) == Copies(m, key, state, r)
            + (if e.key == key && e.state == state && r in ws then 1 else 0)
  {
  }

  lemma CopiesTaken(m: multiset<Delivery>, d: Delivery, key: string, state: MHOState, r: Recipient)
    requires d in m && d.event.eventType in {Created, Updated}
    ensures Copies(m - multiset{d}, key, state, r) == Copies(m, key, state, r)
            - (if d.event.key == key && d.event.state == state && d.to == r then 1 else 0)
  {
  }

  // ---------- each step, as a change of the terms of the balances ----------

  /** A step that leaves the store alone may move one handler. */
  predicate OnlyMoves(s: Sys, s': Sys, r: Recipient) {
    && s'.puts == s.puts && s'.inFlight == s.inFlight && s'.records == s.records
    && (r != Controller ==> PcOf(s', Controller) == PcOf(s, Controller))
  }

  ghost predicate OthersStay(s: Sys, s': Sys, r: Recipient) {
    forall q :: q != r ==> PcOf(s', q) == PcOf(s, q)
  }

  lemma TakeBalanced(single: bool, s: Sys, s': Sys, d: Delivery, key: string, n: NodeId, state: MHOState)
    requires Balanced(single, s, key, n, state) && d in s.inFlight && d.event.eventType in {Created, Updated}
    requires s'.puts == s.puts && s'.records == s.records && s'.controls == s.controls
    requires s'.inFlight == s.inFlight - multiset{d}
    requires OthersStay(s, s', d.to) && PcOf(s, d.to) == Idle && PcOf(s', d.to) == Got(d.event)
    ensures Balanced(single, s', key, n, state)
  {
    hide Copies, PutCount, ControlCount;
    CopiesTaken(s.inFlight, d, key, StateCreated, Controller);
    CopiesTaken(s.inFlight, d, key, Approved, Node(n));
  }

  lemma ReceiveBalanced(ws: set<Recipient>, single: bool, s: Sys, d: Delivery, key: string, n: NodeId, state: MHOState)
    requires Inv(ws, s) && Balanced(single, s, key, n, state) && Enabled(ws, s, Receive(d))
    ensures Balanced(single, Do(ws, s, Receive(d)), key, n, state)
  {
    hide Balanced;
    ReceivedIsOk(ws, s, d);
    TakeBalanced(single, s, Do(ws, s, Receive(d)), d, key, n, state);
  }

  /** What reading the entry does: a request is taken up by the controller, an approval by the
      sender of the entry's node, and every other event is dropped. */
  lemma GetFacts(ws: set<Recipient>, s: Sys, r: Recipient)
    requires Inv(ws, s) && Enabled(ws, s, GetEntry(r))
    ensures var s' := Do(ws, s, GetEntry(r));
            && OnlyMoves(s, s', r) && s'.controls == s.controls && OthersStay(s, s', r)
    ensures var e, pc := PcOf(s, r).e, PcOf(Do(ws, s, GetEntry(r)), r);
            && (pc == Idle || (pc.Have? && pc.key == e.key))
            && (r == Controller ==> (pc.Have? <==> e.state == StateCreated))
            && (r.Node? ==> (pc.Have? ==> e.state == Approved))
            && (r.Node? && OnlyNode(ws, r.id) && e.state == Approved ==> pc.Have?)
  {
    hide GenerateGnbUeIDString, FanOut;
    assert PcOk(ws, s, r, PcOf(s, r));
    var e := PcOf(s, r).e;
    assert RefOk(s, e.key, s.records[e.key]) && ValueOk(ws, s, s.heap[s.records[e.key]]);
  }

  lemma ReadBalanced(single: bool, s: Sys, s': Sys, r: Recipient, key: string, n: NodeId, state: MHOState)
    requires Balanced(single, s, key, n, state) && PcOf(s, r).Got?
    requires OnlyMoves(s, s', r) && s'.controls == s.controls && OthersStay(s, s', r)
    requires var e, pc := PcOf(s, r).e, PcOf(s', r);
             && (pc == Idle || (pc.Have? && pc.key == e.key))
             && (r == Controller ==> (pc.Have? <==> e.state == StateCreated))
             && (r.Node? ==> (pc.Have? ==> e.state == Approved))
             && (r == Node(n) && single && e.state == Approved ==> pc.Have?)
    ensures Balanced(single, s', key, n, state)
  {
    hide Copies, PutCount, ControlCount;
  }

  lemma GetBalanced(ws: set<Recipient>, single: bool, s: Sys, r: Recipient, key: string, n: NodeId, state: MHOState)
    requires Inv(ws, s) && Balanced(single, s, key, n, state) && Enabled(ws, s, GetEntry(r))
    requires single ==> OnlyNode(ws, n)
    ensures Balanced(single, Do(ws, s, GetEntry(r)), key, n, state)
  {
    GetFacts(ws, s, r);
    hide Inv, Do, Balanced;
    ReadBalanced(single, s, Do(ws, s, GetEntry(r)), r, key, n, state);
  }

  lemma SendFacts(ws: set<Recipient>, s: Sys, m: NodeId)
    requires Inv(ws, s) && Enabled(ws, s, SendControl(m))
    ensures var s', pc := Do(ws, s, SendControl(m)), PcOf(s, Node(m));
            && OnlyMoves(s, s', Node(m)) && OthersStay(s, s', Node(m))
            && PcOf(s', Node(m)) == Sent(pc.key, pc.ref)
            && RefOk(s, pc.key, pc.ref)
            && s'.controls == s.controls + [ControlFor(s.heap[pc.ref]).(node := m)]
  {
    hide GenerateGnbUeIDString, FanOut;
    assert PcOk(ws, s, Node(m), PcOf(s, Node(m)));
  }

  lemma AttemptBalanced(single: bool, s: Sys, s': Sys, m: NodeId, c: Control, key: string, n: NodeId, state: MHOState)
    requires Balanced(single, s, key, n, state)
    requires OnlyMoves(s, s', Node(m)) && OthersStay(s, s', Node(m)) && s'.controls == s.controls + [c]
    requires PcOf(s, Node(m)).Have? && PcOf(s', Node(m)).Sent? && PcOf(s', Node(m)).key == PcOf(s, Node(m)).key
    requires c.node == m && RendersTo(c.rawUeId, PcOf(s, Node(m)).key)
    ensures Balanced(single, s', key, n, state)
  {
    hide Copies, PutCount, ControlCount, GenerateGnbUeIDString;
    ControlCountSnoc(s.controls, c, key, n);
  }

  lemma SendBalanced(ws: set<Recipient>, single: bool, s: Sys, m: NodeId, key: string, n: NodeId, state: MHOState)
    requires Inv(ws, s) && Balanced(single, s, key, n, state) && Enabled(ws, s, SendControl(m))
    ensures Balanced(single, Do(ws, s, SendControl(m)), key, n, state)
  {
    SendFacts(ws, s, m);
    hide Inv, Do, Balanced, GenerateGnbUeIDString;
    var c := ControlFor(s.heap[PcOf(s, Node(m)).ref]).(node := m);
    AttemptBalanced(single, s, Do(ws, s, SendControl(m)), m, c, key, n, state);
  }

  /** A put emits one event to every watcher, and its handler, if any, is idle again. */
  predicate Emits(ws: set<Recipient>, s: Sys, s': Sys, e: Event) {
    && e.eventType in {Created, Updated} && e.eventType == (if e.key in s.records then Updated else Created)
    && s'.puts == s.puts + [e] && s'.inFlight == s.inFlight + FanOut(ws, e) && s'.controls == s.controls
    && e.key in s'.records
  }

  lemma PutFacts(ws: set<Recipient>, s: Sys, r: Recipient)
    requires Inv(ws, s) && Enabled(ws, s, PutEntry(r))
    ensures var s', pc := Do(ws, s, PutEntry(r)), PcOf(s, r);
            && Emits(ws, s, s', EventFor(true, pc.key, StateWritten(r))) && s'.records.Keys == s.records.Keys
            && OthersStay(s, s', r) && PcOf(s', r) == Idle
  {
    hide GenerateGnbUeIDString, FanOut;
    assert PcOk(ws, s, r, PcOf(s, r));
  }

  lemma EmitBalance(ws: set<Recipient>, s: Sys, s': Sys, e: Event, key: string, n: NodeId)
    requires Emits(ws, s, s', e) && Controller in ws && Node(n) in ws
    ensures PutCount(s'.puts, key, Approved) == PutCount(s.puts, key, Approved)
                                                + (if e.key == key && e.state == Approved then 1 else 0)
    ensures PutCount(s'.puts, key, StateCreated) == PutCount(s.puts, key, StateCreated)
                                                    + (if e.key == key && e.state == StateCreated then 1 else 0)
    ensures Copies(s'.inFlight, key, StateCreated, Controller) == Copies(s.inFlight, key, StateCreated, Controller)
                                                    + (if e.key == key && e.state == StateCreated then 1 else 0)
    ensures Copies(s'.inFlight, key, Approved, Node(n)) == Copies(s.inFlight, key, Approved, Node(n))
                                                    + (if e.key == key && e.state == Approved then 1 else 0)
  {
    hide Copies, PutCount;
    PutCountSnoc(s.puts, e, key, Approved);
    PutCountSnoc(s.puts, e, key, StateCreated);
    CopiesFanOut(ws, s.inFlight, e, key, StateCreated, Controller);
    CopiesFanOut(ws, s.inFlight, e, key, Approved, Node(n));
  }

  lemma EmitCreated(ws: set<Recipient>, s: Sys, s': Sys, e: Event, key: string, state: MHOState)
    requires Emits(ws, s, s', e) && CreatedOnce(s, key, state)
    requires e.key != key ==> (key in s'.records <==> key in s.records)
    requires e.eventType == Created ==> e.state == StateCreated
    ensures CreatedOnce(s', key, state)
  {
    assert multiset(s.puts + [e]) == multiset(s.puts) + multiset{e};
  }

  lemma EmitBalanced(ws: set<Recipient>, single: bool, s: Sys, s': Sys, r: Recipient, e: Event,
                     key: string, n: NodeId, state: MHOState)
    requires Balanced(single, s, key, n, state) && Emits(ws, s, s', e) && Controller in ws && Node(n) in ws
    requires s'.records.Keys == s.records.Keys && PcOf(s, r).Written? && PcOf(s, r).key == e.key
    requires OthersStay(s, s', r) && PcOf(s', r) == Idle && e.state == StateWritten(r)
    ensures Balanced(single, s', key, n, state)
  {
    EmitBalance(ws, s, s', e, key, n);
    EmitCreated(ws, s, s', e, key, state);
    hide Copies, PutCount, ControlCount, FanOut;
  }

  lemma PutBalanced(ws: set<Recipient>, single: bool, s: Sys, r: Recipient, key: string, n: NodeId, state: MHOState)
    requires Inv(ws, s) && Balanced(single, s, key, n, state) && Enabled(ws, s, PutEntry(r)) && Node(n) in ws
    ensures Balanced(single, Do(ws, s, PutEntry(r)), key, n, state)
  {
    hide Do, Balanced, Emits;
    PutFacts(ws, s, r);
    assert Controller in ws && PcOf(s, r).Written?;
    hide Inv, Enabled;
    var e := EventFor(true, PcOf(s, r).key, StateWritten(r));
    EmitBalanced(ws, single, s, Do(ws, s, PutEntry(r)), r, e, key, n, state);
  }

  lemma MonitorPutFacts(ws: set<Recipient>, s: Sys, m: NodeId)
    requires Inv(ws, s) && Enabled(ws, s, MonitorPut(m))
    ensures MonitorOf(s, m).PutNew? && MonitorOf(s, m).ind.rawUeId.GnbUeId?
    ensures var s', k := Do(ws, s, MonitorPut(m)), KeyOfInd(MonitorOf(s, m).ind);
            && Emits(ws, s, s', EventFor(k in s.records, k, StateCreated)) && s'.records.Keys == s.records.Keys + {k}
            && s'.handlers == s.handlers
  {
    hide GenerateGnbUeIDString, FanOut;
    assert MonitorOk(ws, s, m, MonitorOf(s, m));
  }

  lemma CreateBalanced(ws: set<Recipient>, single: bool, s: Sys, s': Sys, e: Event, key: string, n: NodeId, state: MHOState)
    requires Balanced(single, s, key, n, state) && Emits(ws, s, s', e) && Controller in ws && Node(n) in ws
    requires s'.records.Keys == s.records.Keys + {e.key} && s'.handlers == s.handlers && e.state == StateCreated
    ensures Balanced(single, s', key, n, state)
  {
    EmitBalance(ws, s, s', e, key, n);
    EmitCreated(ws, s, s', e, key, state);
    hide Copies, PutCount, ControlCount, FanOut;
  }

  lemma MonitorPutBalanced(ws: set<Recipient>, single: bool, s: Sys, m: NodeId, key: string, n: NodeId, state: MHOState)
    requires Inv(ws, s) && Balanced(single, s, key, n, state) && Enabled(ws, s, MonitorPut(m)) && Node(n) in ws
    ensures Balanced(single, Do(ws, s, MonitorPut(m)), key, n, state)
  {
    MonitorPutFacts(ws, s, m);
    hide Do, Balanced, Emits, GenerateGnbUeIDString;
    var k := KeyOfInd(MonitorOf(s, m).ind);
    CreateBalanced(ws, single, s, Do(ws, s, MonitorPut(m)), EventFor(k in s.records, k, StateCreated), key, n, state);
  }

  lemma QuietStepBalanced(single: bool, s: Sys, s': Sys, key: string, n: NodeId, state: MHOState)
    requires Balanced(single, s, key, n, state)
    requires s'.puts == s.puts && s'.inFlight == s.inFlight && s'.controls == s.controls && s'.records == s.records
    requires Approving(s', key) == Approving(s, key) && Sending(s', key, n) == Sending(s, key, n)
    ensures Balanced(single, s', key, n, state)
  {
  }

  lemma StepBalanced(ws: set<Recipient>, single: bool, s: Sys, step: Step, key: string, n: NodeId, state: MHOState)
    requires Inv(ws, s) && Balanced(single, s, key, n, state) && Enabled(ws, s, step)
    requires Node(n) in ws && (single ==> OnlyNode(ws, n))
    ensures Balanced(single, Do(ws, s, step), key, n, state)
  {
    hide Inv, Balanced, GenerateGnbUeIDString, FanOut;
    match step {
      case Receive(d) => ReceiveBalanced(ws, single, s, d, key, n, state);
      case GetEntry(r) => GetBalanced(ws, single, s, r, key, n, state);
      case SendControl(m) => SendBalanced(ws, single, s, m, key, n, state);
      case PutEntry(r) => PutBalanced(ws, single, s, r, key, n, state);
      case MonitorPut(m) => MonitorPutBalanced(ws, single, s, m, key, n, state);
      case _ => QuietStepBalanced(single, s, Do(ws, s, step), key, n, state);
    }
  }

  lemma {:induction false} RunBalanced(ws: set<Recipient>, single: bool, s: Sys, steps: seq<Step>, key: string, n: NodeId,
                                       state: MHOState)
    requires Inv(ws, s) && Balanced(single, s, key, n, state) && Legal(ws, s, steps)
    requires Node(n) in ws && (single ==> OnlyNode(ws, n))
    ensures Balanced(single, Run(ws, s, steps), key, n, state)
    decreases |steps|
  {
    hide Do, Enabled, Inv, Balanced;
    if steps != [] {
      StepKeepsInv(ws, s, steps[0]);
      StepBalanced(ws, single, s, steps[0], key, n, state);
      RunBalanced(ws, single, Do(ws, s, steps[0]), steps[1..], key, n, state);
    }
  }

  /** In every reachable state: requests are conserved up to approval, control attempts to a
      node never exceed approvals and with a single node account for all of them, and each
      entry has been announced as created exactly once. */
  lemma Conservation(ws: set<Recipient>, steps: seq<Step>, key: string, n: NodeId, state: MHOState)
    requires Controller in ws && Node(n) in ws && Legal(ws, Start, steps)
    ensures RequestsBalance(Run(ws, Start, steps), key)
    ensures ControlsBalance(ws == {Controller, Node(n)}, Run(ws, Start, steps), key, n)
    ensures CreatedOnce(Run(ws, Start, steps), key, state)
  {
    StartInv(ws);
    RunBalanced(ws, ws == {Controller, Node(n)}, Start, steps, key, n, state);
  }
}
