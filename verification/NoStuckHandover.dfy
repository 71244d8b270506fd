/** No handover is ever stuck, however the single store calls interleave: an entry that waits
    for a handler always has that handler's work in flight or under way. */
module NoStuckHandover {
  import opened UeKey
  import opened HandoverTypes
  import opened Interleaving

  /** The controller has a request for the UE ahead of it or in hand. */
  predicate Requested(s: Sys, key: string) {
    || Delivery(Event(key, Created, StateCreated), Controller) in s.inFlight
    || Delivery(Event(key, Updated, StateCreated), Controller) in s.inFlight
    || match PcOf(s, Controller)
       case Got(e) => e.key == key && e.state == StateCreated
       case Have(k, _) => k == key
       case Written(k, _) => k == key
       case _ => false
  }

  /** An approval of this value reaches its own sender, or is about to be put. */
  predicate Owed(s: Sys, key: string, ref: Ref)
    requires ref < |s.heap|
  {
    || Delivery(Event(key, Updated, Approved), Node(s.heap[ref].e2NodeId)) in s.inFlight
    || PcOf(s, Controller) == Written(key, ref)
  }

  /** ... or that sender has taken an approval and will re-read the entry, or holds the value. */
  predicate OnItsWay(s: Sys, key: string, ref: Ref)
    requires ref < |s.heap|
  {
    Owed(s, key, ref) ||
    match PcOf(s, Node(s.heap[ref].e2NodeId))
    case Got(e) => e.key == key && e.state == Approved
    case Have(k, r) => k == key && r == ref
    case Sent(k, r) => k == key && r == ref
    case _ => false
  }

  predicate EntryMoves(s: Sys, key: string) {
    key in s.records && s.records[key] < |s.heap| ==>
      match s.heap[s.records[key]].state
      case StateCreated => Requested(s, key)
      case Approved => OnItsWay(s, key, s.records[key])
      case _ => true
  }

  /** A sender about to put back a value that was approved again meanwhile. */
  predicate SenderMoves(s: Sys, n: NodeId) {
    match PcOf(s, Node(n))
    case Written(key, ref) => ref < |s.heap| && s.heap[ref].state == Approved ==> Owed(s, key, ref)
    case _ => true
  }

  ghost predicate Moves(s: Sys) {
    && (forall key: string :: EntryMoves(s, key))
    && (forall n: NodeId :: SenderMoves(s, n))
  }

  // ---------- one kind of step at a time ----------

  lemma ReceiveMoves(ws: set<Recipient>, s: Sys, d: Delivery)
    requires Inv(ws, s) && Moves(s) && Enabled(ws, s, Receive(d))
    ensures Moves(Do(ws, s, Receive(d)))
  {
    hide GenerateGnbUeIDString, FanOut, Inv;
    var s' := Do(ws, s, Receive(d));
    forall key: string ensures EntryMoves(s', key) {
      assert EntryMoves(s, key);
    }
    forall n: NodeId ensures SenderMoves(s', n) {
      assert SenderMoves(s, n);
      if PcOf(s, Node(n)).Written? {
        SenderHoldsOwn(ws, s, n);
      }
    }
  }

  lemma SenderHoldsOwn(ws: set<Recipient>, s: Sys, n: NodeId)
    requires Inv(ws, s) && PcOf(s, Node(n)).Written?
    ensures var pc := PcOf(s, Node(n)); pc.ref < |s.heap| && s.heap[pc.ref].e2NodeId == n
  {
    assert PcOk(ws, s, Node(n), PcOf(s, Node(n)));
  }

  lemma GetMoves(ws: set<Recipient>, s: Sys, r: Recipient)
    requires Inv(ws, s) && Moves(s) && Enabled(ws, s, GetEntry(r))
    ensures Moves(Do(ws, s, GetEntry(r)))
  {
    hide GenerateGnbUeIDString, FanOut, Inv;
    var s' := Do(ws, s, GetEntry(r));
    var e := PcOf(s, r).e;
    GotIsOk(ws, s, r);
    forall key: string ensures EntryMoves(s', key) {
      assert EntryMoves(s, key);
    }
    forall n: NodeId ensures SenderMoves(s', n) {
      assert SenderMoves(s, n);
    }
  }

  lemma GotIsOk(ws: set<Recipient>, s: Sys, r: Recipient)
    requires Inv(ws, s) && PcOf(s, r).Got?
    ensures EventOk(s, PcOf(s, r).e)
  {
    assert PcOk(ws, s, r, PcOf(s, r));
  }

  lemma HeldIsOk(ws: set<Recipient>, s: Sys, r: Recipient)
    requires Inv(ws, s) && (PcOf(s, r).Have? || PcOf(s, r).Sent? || PcOf(s, r).Written?)
    ensures HoldsOk(s, r, PcOf(s, r).key, PcOf(s, r).ref) && PcOf(s, r).ref < |s.heap| && r in ws
    ensures PcOf(s, r).Written? ==> s.heap[PcOf(s, r).ref].state in {Approved, Done}
  {
    assert PcOk(ws, s, r, PcOf(s, r));
    assert ValueOk(ws, s, s.heap[PcOf(s, r).ref]);
  }

  lemma SendMoves(ws: set<Recipient>, s: Sys, n: NodeId)
    requires Inv(ws, s) && Moves(s) && Enabled(ws, s, SendControl(n))
    ensures Moves(Do(ws, s, SendControl(n)))
  {
    hide GenerateGnbUeIDString, FanOut, Inv;
    var s' := Do(ws, s, SendControl(n));
    forall key: string ensures EntryMoves(s', key) {
      assert EntryMoves(s, key);
    }
    forall m: NodeId ensures SenderMoves(s', m) {
      assert SenderMoves(s, m);
    }
  }

  /** A value has one key only. */
  lemma OneKey(s: Sys, k1: string, k2: string, ref: Ref)
    requires RefOk(s, k1, ref) && RefOk(s, k2, ref)
    ensures k1 == k2
  {
  }

  lemma WriteMoves(ws: set<Recipient>, s: Sys, r: Recipient)
    requires Inv(ws, s) && Moves(s) && Enabled(ws, s, WriteState(r))
    ensures Moves(Do(ws, s, WriteState(r)))
  {
    hide GenerateGnbUeIDString, FanOut, Inv, RefOk;
    var s' := Do(ws, s, WriteState(r));
    var pc := PcOf(s, r);
    HeldIsOk(ws, s, r);
    forall key: string ensures EntryMoves(s', key) {
      assert EntryMoves(s, key);
      if key in s.records && s.records[key] == pc.ref {
        RecordIsOk(ws, s, key);
        OneKey(s, key, pc.key, pc.ref);
      }
    }
    forall n: NodeId ensures SenderMoves(s', n) {
      assert SenderMoves(s, n);
      if PcOf(s, Node(n)).Written? && PcOf(s, Node(n)).ref == pc.ref {
        HeldIsOk(ws, s, Node(n));
        OneKey(s, PcOf(s, Node(n)).key, pc.key, pc.ref);
      }
    }
  }

  lemma RecordIsOk(ws: set<Recipient>, s: Sys, key: string)
    requires Inv(ws, s) && key in s.records
    ensures RefOk(s, key, s.records[key]) && s.records[key] < |s.heap|
    ensures Node(s.heap[s.records[key]].e2NodeId) in ws
  {
    assert RefOk(s, key, s.records[key]);
    assert ValueOk(ws, s, s.heap[s.records[key]]);
  }

  lemma PutMoves(ws: set<Recipient>, s: Sys, r: Recipient)
    requires Inv(ws, s) && Moves(s) && Enabled(ws, s, PutEntry(r))
    ensures Moves(Do(ws, s, PutEntry(r)))
  {
    hide GenerateGnbUeIDString, Inv, RefOk;
    var s' := Do(ws, s, PutEntry(r));
    var pc := PcOf(s, r);
    HeldIsOk(ws, s, r);
    ValueNode(ws, s, pc.ref);
    var e := EventFor(true, pc.key, StateWritten(r));
    assert Delivery(e, Node(s.heap[pc.ref].e2NodeId)) in FanOut(ws, e);
    forall key: string ensures EntryMoves(s', key) {
      assert EntryMoves(s, key);
      if r.Node? {
        assert SenderMoves(s, r.id);
      }
    }
    forall n: NodeId ensures SenderMoves(s', n) {
      assert SenderMoves(s, n);
    }
  }

  lemma ValueNode(ws: set<Recipient>, s: Sys, ref: Ref)
    requires Inv(ws, s) && ref < |s.heap|
    ensures Node(s.heap[ref].e2NodeId) in ws
  {
    assert ValueOk(ws, s, s.heap[ref]);
  }

  lemma MonitorPutMoves(ws: set<Recipient>, s: Sys, n: NodeId)
    requires Inv(ws, s) && Moves(s) && Enabled(ws, s, MonitorPut(n))
    ensures Moves(Do(ws, s, MonitorPut(n)))
  {
    hide GenerateGnbUeIDString, RefOk, EventsOk, ValuesOk;
    var s' := Do(ws, s, MonitorPut(n));
    assert MonitorOk(ws, s, n, MonitorOf(s, n));
    var k := KeyOfInd(MonitorOf(s, n).ind);
    var e := EventFor(k in s.records, k, StateCreated);
    assert Delivery(e, Controller) in FanOut(ws, e);
    forall key: string ensures EntryMoves(s', key) {
      assert EntryMoves(s, key);
      if key in s.records && key != k {
        RecordIsOk(ws, s, key);
      }
    }
    forall m: NodeId ensures SenderMoves(s', m) {
      assert SenderMoves(s, m);
      if PcOf(s, Node(m)).Written? {
        HeldIsOk(ws, s, Node(m));
      }
    }
  }

  /** Looking up, reading and comparing touch neither the store nor the handlers. */
  lemma MonitorReadMoves(s: Sys, s': Sys)
    requires Moves(s) && s' == s.(monitors := s'.monitors, log := s'.log)
    ensures Moves(s')
  {
    forall key: string ensures EntryMoves(s', key) {
      assert EntryMoves(s, key);
    }
    forall n: NodeId ensures SenderMoves(s', n) {
      assert SenderMoves(s, n);
    }
  }

  lemma StepKeepsMoves(ws: set<Recipient>, s: Sys, step: Step)
    requires Inv(ws, s) && Moves(s) && Enabled(ws, s, step)
    ensures Moves(Do(ws, s, step))
  {
    hide GenerateGnbUeIDString, FanOut, Inv, Moves;
    match step {
      case Receive(d) => ReceiveMoves(ws, s, d);
      case GetEntry(r) => GetMoves(ws, s, r);
      case SendControl(n) => SendMoves(ws, s, n);
      case WriteState(r) => WriteMoves(ws, s, r);
      case PutEntry(r) => PutMoves(ws, s, r);
      case MonitorPut(n) => MonitorPutMoves(ws, s, n);
      case _ => MonitorReadMoves(s, Do(ws, s, step));
    }
  }

  lemma {:induction false} RunKeepsMoves(ws: set<Recipient>, s: Sys, steps: seq<Step>)
    requires Inv(ws, s) && Moves(s) && Legal(ws, s, steps)
    ensures Moves(Run(ws, s, steps))
    decreases |steps|
  {
    hide Do, Enabled, Inv, Moves;
    if steps != [] {
      StepKeepsInv(ws, s, steps[0]);
      StepKeepsMoves(ws, s, steps[0]);
      RunKeepsMoves(ws, Do(ws, s, steps[0]), steps[1..]);
    }
  }

  // ---------- the theorems ----------

  /** In every reachable state an entry in StateCreated has its request on the way to the
      controller or in its hands, and an entry in Approved has its approval on the way to the
      sender of the entry's own node or in its hands. */
  lemma NoHandoverIsStuck(ws: set<Recipient>, steps: seq<Step>, key: string)
    requires Controller in ws && Legal(ws, Start, steps)
    ensures EntryMoves(Run(ws, Start, steps), key)
    ensures key in Run(ws, Start, steps).records ==>
              Run(ws, Start, steps).records[key] < |Run(ws, Start, steps).heap|
  {
    StartInv(ws);
    RunKeepsMoves(ws, Start, steps);
    RunKeepsInv(ws, Start, steps);
    hide Run, Legal, EntryMoves;
    if key in Run(ws, Start, steps).records {
      RecordIsOk(ws, Run(ws, Start, steps), key);
    }
  }

  lemma QuietEntryIsDone(ws: set<Recipient>, s: Sys, key: string)
    requires Inv(ws, s) && EntryMoves(s, key) && Quiescent(s) && key in s.records
    ensures s.records[key] < |s.heap| && s.heap[s.records[key]].state == Done
  {
    RecordIsOk(ws, s, key);
    assert ValueOk(ws, s, s.heap[s.records[key]]);
    assert PcOf(s, Controller) == Idle && PcOf(s, Node(s.heap[s.records[key]].e2NodeId)) == Idle;
  }

  /** So whenever the system comes to rest, every handover has been carried out. */
  lemma RestMeansDone(ws: set<Recipient>, steps: seq<Step>, key: string)
    requires Controller in ws && Legal(ws, Start, steps)
    requires Quiescent(Run(ws, Start, steps)) && key in Run(ws, Start, steps).records
    ensures var s := Run(ws, Start, steps);
            s.records[key] < |s.heap| && s.heap[s.records[key]].state == Done
  {
    NoHandoverIsStuck(ws, steps, key);
    StartInv(ws);
    RunKeepsInv(ws, Start, steps);
    hide Run, Legal, EntryMoves, Inv;
    QuietEntryIsDone(ws, Run(ws, Start, steps), key);
  }
}
