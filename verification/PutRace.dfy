/** End-to-end agreement when the single store calls interleave. It can fail: a handler that
    read the entry before a monitor replaced it puts the old value back, or two monitors put
    in the opposite order of their indications. This module proves agreement for runs in which
    neither can happen, and that at each put of a monitor the condition on handlers is exact. */
module PutRace {
  import opened Wrappers
  import opened UeKey
  import opened HandoverTypes
  import opened Interleaving
  import NoStuckHandover
  import Quiescence
  import Handover

  // ---------- the condition ----------

  /** Handler `r` has read the entry of the UE and not yet put it back. */
  predicate Holds(s: Sys, r: Recipient, key: string) {
    match PcOf(s, r)
    case Have(k, _) => k == key
    case Sent(k, _) => k == key
    case Written(k, _) => k == key
    case _ => false
  }

  /** The value that a handler holds. */
  function RefHeld(s: Sys, r: Recipient): Ref {
    match PcOf(s, r)
    case Have(_, ref) => ref
    case Sent(_, ref) => ref
    case Written(_, ref) => ref
    case _ => 0
  }

  ghost predicate NoHolder(s: Sys, key: string) {
    forall r :: !Holds(s, r, key)
  }

  /** The monitor of node `n` is processing an indication of the UE. */
  predicate BusyOn(s: Sys, n: NodeId, key: string) {
    match MonitorOf(s, n)
    case Waits => false
    case Present(ind) => RendersTo(ind.rawUeId, key)
    case Read(ind, _) => RendersTo(ind.rawUeId, key)
    case PutNew(ind) => RendersTo(ind.rawUeId, key)
    case PutOld(k, _) => k == key
  }

  ghost predicate NoMonitor(s: Sys, key: string) {
    forall n: NodeId :: !BusyOn(s, n, key)
  }

  /** Two monitors do not process the same UE at once, and no monitor puts the UE's entry
      while a handler holds it. */
  ghost predicate Disciplined(s: Sys, step: Step, key: string) {
    match step
    case Lookup(ind) => RendersTo(ind.rawUeId, key) ==> NoMonitor(s, key)
    case MonitorPut(n) => BusyOn(s, n, key) ==> NoHolder(s, key)
    case _ => true
  }

  ghost predicate DisciplinedRun(ws: set<Recipient>, s: Sys, steps: seq<Step>, key: string)
    requires Legal(ws, s, steps)
    decreases |steps|
  {
    steps != [] ==>
      Disciplined(s, steps[0], key) && DisciplinedRun(ws, Do(ws, s, steps[0]), steps[1..], key)
  }

  // ---------- agreement ----------

  function LastTarget(s: Sys, key: string): Option<string> {
    match Handover.LastFor(s.log, key)
    case None => None
    case Some(ind) => Some(ind.tgtCellId)
  }

  predicate LastControlIs(s: Sys, key: string, c: Control) {
    var ctl := Handover.ControlsOf(s.controls, key);
    ctl != [] && ctl[|ctl| - 1] == c
  }

  /** The entry has the target of the UE's last indication, it is done, and the UE's last
      control attempt is the entry's. */
  predicate Agrees(s: Sys, key: string) {
    if key !in s.records then LastTarget(s, key).None? else
      && s.records[key] < |s.heap|
      && var v := s.heap[s.records[key]];
         v.state == Done && LastTarget(s, key) == Some(v.tgtCellId) && LastControlIs(s, key, ControlFor(v))
  }

  predicate LastControlNames(s: Sys, key: string, target: string) {
    var ctl := Handover.ControlsOf(s.controls, key);
    ctl != [] && ctl[|ctl| - 1].tgtCellId == target
  }

  /** The documented promise alone: the UE has an entry exactly if it was seen, and then the
      entry is done, and it and the UE's last control attempt name the last target. */
  predicate OnTarget(s: Sys, key: string) {
    if key !in s.records then LastTarget(s, key).None? else
      && s.records[key] < |s.heap|
      && var v := s.heap[s.records[key]];
         v.state == Done && LastTarget(s, key) == Some(v.tgtCellId) && LastControlNames(s, key, v.tgtCellId)
  }

  lemma AgreesOnTarget(s: Sys, key: string)
    requires Agrees(s, key)
    ensures OnTarget(s, key)
  {
  }

  // ---------- the invariant of disciplined runs ----------

  /** Every holder of the UE's entry holds the value that is in the store. */
  ghost predicate Coherent(s: Sys, key: string) {
    forall r :: Holds(s, r, key) ==> key in s.records && RefHeld(s, r) == s.records[key]
  }

  predicate HasTarget(s: Sys, key: string, target: string) {
    key in s.records && s.records[key] < |s.heap| && s.heap[s.records[key]].tgtCellId == target
  }

  /** What a busy monitor knows: its indication is the UE's last, what it read is the entry,
      and a new value is put only for another target. */
  predicate Serves(s: Sys, n: NodeId, key: string) {
    match MonitorOf(s, n)
    case Waits => true
    case Present(ind) => LastTarget(s, key) == Some(ind.tgtCellId)
    case Read(ind, ref) => LastTarget(s, key) == Some(ind.tgtCellId) && key in s.records && ref == s.records[key]
    case PutNew(ind) => LastTarget(s, key) == Some(ind.tgtCellId) && !HasTarget(s, key, ind.tgtCellId)
    case PutOld(_, _) => false
  }

  ghost predicate MonitorsServe(s: Sys, key: string) {
    && (forall n: NodeId, m: NodeId :: BusyOn(s, n, key) && BusyOn(s, m, key) ==> n == m)
    && (forall n: NodeId :: BusyOn(s, n, key) ==> Serves(s, n, key))
    && (NoMonitor(s, key) ==>
          if key in s.records then LastTarget(s, key).Some? && HasTarget(s, key, LastTarget(s, key).value)
          else LastTarget(s, key).None?)
  }

  predicate SentFor(s: Sys, n: NodeId, key: string) {
    match PcOf(s, Node(n))
    case Sent(k, _) => k == key
    case Written(k, _) => k == key
    case _ => false
  }

  /** A done entry, and an entry a sender has sent for, has the UE's last control attempt. */
  ghost predicate ControlsMatch(s: Sys, key: string) {
    key in s.records && s.records[key] < |s.heap| ==>
      var v := s.heap[s.records[key]];
      && (v.state == Done ==> LastControlIs(s, key, ControlFor(v)))
      && (forall n: NodeId :: SentFor(s, n, key) ==> LastControlIs(s, key, ControlFor(v)))
  }

  // ---------- steps that keep the record ----------

  /** Only a monitor's put replaces the UE's record, as long as every holder is coherent. */
  lemma RecordKept(ws: set<Recipient>, s: Sys, step: Step, key: string)
    requires Inv(ws, s) && Coherent(s, key) && Enabled(ws, s, step)
    requires step.MonitorPut? ==> !BusyOn(s, step.n, key)
    ensures var s' := Do(ws, s, step);
            && (key in s'.records <==> key in s.records)
            && (key in s.records ==> s'.records[key] == s.records[key])
  {
    hide GenerateGnbUeIDString, FanOut;
    match step {
      case PutEntry(r) => assert PcOk(ws, s, r, PcOf(s, r)); assert PcOf(s, r).key == key ==> Holds(s, r, key);
      case MonitorPut(n) => assert MonitorOk(ws, s, n, MonitorOf(s, n));
      case _ =>
    }
  }

  /** A handler holds what it held or what it has just read. */
  lemma HoldsStep(ws: set<Recipient>, s: Sys, step: Step, r: Recipient, key: string)
    requires Enabled(ws, s, step) && Holds(Do(ws, s, step), r, key)
    ensures || (Holds(s, r, key) && RefHeld(Do(ws, s, step), r) == RefHeld(s, r))
            || (key in s.records && RefHeld(Do(ws, s, step), r) == s.records[key])
  {
    hide GenerateGnbUeIDString, FanOut;
  }

  lemma CoherentKept(ws: set<Recipient>, s: Sys, step: Step, key: string)
    requires Inv(ws, s) && Coherent(s, key) && Enabled(ws, s, step)
    requires step.MonitorPut? ==> !BusyOn(s, step.n, key)
    ensures Coherent(Do(ws, s, step), key)
  {
    hide Do, Inv, Enabled, BusyOn;
    RecordKept(ws, s, step, key);
    var s' := Do(ws, s, step);
    forall r | Holds(s', r, key) ensures key in s'.records && RefHeld(s', r) == s'.records[key] {
      HoldsStep(ws, s, step, r, key);
    }
  }

  /** The target of the UE's entry is kept, too. */
  lemma TargetKept(ws: set<Recipient>, s: Sys, step: Step, key: string, target: string)
    requires Inv(ws, s) && Coherent(s, key) && Enabled(ws, s, step)
    requires step.MonitorPut? ==> !BusyOn(s, step.n, key)
    ensures HasTarget(Do(ws, s, step), key, target) <==> HasTarget(s, key, target)
  {
    RecordKept(ws, s, step, key);
    StepExtends(ws, s, step);
    hide Do, Enabled, BusyOn, Coherent, RefOk;
    if key in s.records {
      NoStuckHandover.RecordIsOk(ws, s, key);
    }
  }

  lemma LogKept(ws: set<Recipient>, s: Sys, step: Step, key: string)
    requires Enabled(ws, s, step)
    ensures LastTarget(Do(ws, s, step), key) ==
            if step.Lookup? && RendersTo(step.ind.rawUeId, key) then Some(step.ind.tgtCellId) else LastTarget(s, key)
  {
    hide GenerateGnbUeIDString, FanOut;
    if step.Lookup? {
      assert (s.log + [step.ind])[..|s.log|] == s.log;
    }
  }

  // ---------- the monitors ----------

  /** No monitor gets or leaves work for the UE. */
  lemma ServesKept(ws: set<Recipient>, s: Sys, step: Step, key: string)
    requires Inv(ws, s) && Coherent(s, key) && MonitorsServe(s, key) && Enabled(ws, s, step)
    requires forall n: NodeId :: BusyOn(s, n, key) || BusyOn(Do(ws, s, step), n, key) ==>
                                   MonitorOf(Do(ws, s, step), n) == MonitorOf(s, n)
    requires step.Lookup? ==> !RendersTo(step.ind.rawUeId, key)
    requires step.MonitorPut? ==> !BusyOn(s, step.n, key)
    ensures MonitorsServe(Do(ws, s, step), key)
  {
    hide Do, Enabled, Inv, HasTarget, LastTarget, GenerateGnbUeIDString;
    RecordKept(ws, s, step, key);
    LogKept(ws, s, step, key);
    var s' := Do(ws, s, step);
    forall target: string ensures HasTarget(s', key, target) <==> HasTarget(s, key, target) {
      TargetKept(ws, s, step, key, target);
    }
    forall n: NodeId ensures BusyOn(s', n, key) <==> BusyOn(s, n, key) {
    }
    forall n: NodeId | BusyOn(s', n, key) ensures Serves(s', n, key) {
      assert Serves(s, n, key);
    }
  }

  /** The monitor `n` has the UE to itself and now knows what it needs to. */
  lemma OneServes(s: Sys, n: NodeId, key: string)
    requires forall m: NodeId :: BusyOn(s, m, key) ==> m == n
    requires BusyOn(s, n, key) && Serves(s, n, key)
    ensures MonitorsServe(s, key)
  {
  }

  lemma LookupServes(ws: set<Recipient>, s: Sys, ind: Indication, key: string)
    requires Inv(ws, s) && Coherent(s, key) && MonitorsServe(s, key) && Enabled(ws, s, Lookup(ind))
    requires RendersTo(ind.rawUeId, key) && NoMonitor(s, key)
    ensures MonitorsServe(Do(ws, s, Lookup(ind)), key)
  {
    LogKept(ws, s, Lookup(ind), key);
    hide GenerateGnbUeIDString, FanOut, Inv, LastTarget;
    var s' := Do(ws, s, Lookup(ind));
    assert LastTarget(s', key) == Some(ind.tgtCellId);
    forall m: NodeId | BusyOn(s', m, key) ensures m == ind.node {
      assert !BusyOn(s, m, key);
    }
    OneServes(s', ind.node, key);
  }

  lemma GetServes(ws: set<Recipient>, s: Sys, n: NodeId, key: string)
    requires Inv(ws, s) && Coherent(s, key) && MonitorsServe(s, key) && Enabled(ws, s, MonitorGet(n))
    requires BusyOn(s, n, key)
    ensures MonitorsServe(Do(ws, s, MonitorGet(n)), key)
  {
    assert MonitorOk(ws, s, n, MonitorOf(s, n));
    LogKept(ws, s, MonitorGet(n), key);
    hide GenerateGnbUeIDString, FanOut, Inv, LastTarget;
    var s' := Do(ws, s, MonitorGet(n));
    assert Serves(s, n, key);
    forall m: NodeId | BusyOn(s', m, key) ensures m == n {
      assert BusyOn(s, m, key);
    }
    OneServes(s', n, key);
  }

  lemma CompareServes(ws: set<Recipient>, s: Sys, n: NodeId, key: string)
    requires Inv(ws, s) && Coherent(s, key) && MonitorsServe(s, key) && Enabled(ws, s, MonitorCompare(n))
    requires BusyOn(s, n, key)
    ensures MonitorsServe(Do(ws, s, MonitorCompare(n)), key)
  {
    hide LastTarget, GenerateGnbUeIDString, HasTarget, EventsOk;
    assert Serves(s, n, key);
    NoStuckHandover.RecordIsOk(ws, s, key);
    NotDenied(ws, s, s.records[key]);
    LogKept(ws, s, MonitorCompare(n), key);
    CompareFacts(ws, s, n, key);
    ComparedServes(s, Do(ws, s, MonitorCompare(n)), n, key);
  }

  lemma NotDenied(ws: set<Recipient>, s: Sys, ref: Ref)
    requires Inv(ws, s) && ref < |s.heap|
    ensures s.heap[ref].state != Denied
  {
    assert ValueOk(ws, s, s.heap[ref]);
  }

  lemma ComparedServes(s: Sys, s': Sys, n: NodeId, key: string)
    requires MonitorsServe(s, key) && BusyOn(s, n, key) && MonitorOf(s, n).Read?
    requires key in s.records && s.records[key] < |s.heap|
    requires LastTarget(s', key) == LastTarget(s, key) && s'.records == s.records && s'.heap == s.heap
    requires forall m: NodeId :: m != n ==> MonitorOf(s', m) == MonitorOf(s, m)
    requires MonitorOf(s', n) == if s.heap[s.records[key]].tgtCellId != MonitorOf(s, n).ind.tgtCellId
                                 then PutNew(MonitorOf(s, n).ind) else Waits
    ensures MonitorsServe(s', key)
  {
    hide LastTarget, GenerateGnbUeIDString;
    assert Serves(s, n, key);
    forall m: NodeId | BusyOn(s', m, key) ensures m == n {
      assert BusyOn(s, m, key);
    }
    if BusyOn(s', n, key) {
      OneServes(s', n, key);
    }
  }

  lemma CompareFacts(ws: set<Recipient>, s: Sys, n: NodeId, key: string)
    requires Enabled(ws, s, MonitorCompare(n)) && BusyOn(s, n, key)
    requires key in s.records && s.records[key] < |s.heap| && s.heap[s.records[key]].state != Denied
    requires MonitorOf(s, n).Read? && MonitorOf(s, n).ref == s.records[key]
    ensures var s', ind := Do(ws, s, MonitorCompare(n)), MonitorOf(s, n).ind;
            && s'.records == s.records && s'.heap == s.heap
            && (forall m: NodeId :: m != n ==> MonitorOf(s', m) == MonitorOf(s, m))
            && MonitorOf(s', n) == if s.heap[s.records[key]].tgtCellId != ind.tgtCellId then PutNew(ind) else Waits
  {
    hide GenerateGnbUeIDString, FanOut;
  }

  /** Every step other than a put of the UE's monitor. */
  lemma StepServes(ws: set<Recipient>, s: Sys, step: Step, key: string)
    requires Inv(ws, s) && Coherent(s, key) && MonitorsServe(s, key) && Enabled(ws, s, step)
    requires Disciplined(s, step, key) && (step.MonitorPut? ==> !BusyOn(s, step.n, key))
    ensures MonitorsServe(Do(ws, s, step), key)
  {
    hide Inv, MonitorsServe, Coherent, GenerateGnbUeIDString, FanOut;
    if step.Lookup? && RendersTo(step.ind.rawUeId, key) {
      LookupServes(ws, s, step.ind, key);
    } else if step.MonitorGet? && BusyOn(s, step.n, key) {
      GetServes(ws, s, step.n, key);
    } else if step.MonitorCompare? && BusyOn(s, step.n, key) {
      CompareServes(ws, s, step.n, key);
    } else {
      OtherBusy(ws, s, step, key);
      ServesKept(ws, s, step, key);
    }
  }

  lemma OtherBusy(ws: set<Recipient>, s: Sys, step: Step, key: string)
    requires Enabled(ws, s, step)
    requires step.Lookup? ==> !RendersTo(step.ind.rawUeId, key)
    requires step.MonitorGet? || step.MonitorCompare? || step.MonitorPut? ==> !BusyOn(s, step.n, key)
    ensures forall n: NodeId :: BusyOn(s, n, key) || BusyOn(Do(ws, s, step), n, key) ==>
                                  MonitorOf(Do(ws, s, step), n) == MonitorOf(s, n)
  {
    hide GenerateGnbUeIDString, FanOut;
  }

  // ---------- the control attempts ----------

  /** A control attempt for the UE is the one its entry asks for. */
  lemma SendIsForEntry(ws: set<Recipient>, s: Sys, n: NodeId, key: string)
    requires Inv(ws, s) && Coherent(s, key) && Enabled(ws, s, SendControl(n)) && PcOf(s, Node(n)).key == key
    ensures key in s.records && s.records[key] < |s.heap|
    ensures LastControlIs(Do(ws, s, SendControl(n)), key, ControlFor(s.heap[s.records[key]]))
  {
    hide GenerateGnbUeIDString, FanOut;
    assert Holds(s, Node(n), key);
    assert PcOk(ws, s, Node(n), PcOf(s, Node(n)));
    Handover.ControlsSnoc(s.controls, ControlFor(s.heap[s.records[key]]), key);
  }

  lemma OtherStepControls(ws: set<Recipient>, s: Sys, step: Step, key: string, c: Control)
    requires Inv(ws, s) && Enabled(ws, s, step)
    requires step.SendControl? ==> PcOf(s, Node(step.n)).key != key
    ensures LastControlIs(Do(ws, s, step), key, c) <==> LastControlIs(s, key, c)
  {
    hide GenerateGnbUeIDString, FanOut, EventsOk, ValuesOk;
    if step.SendControl? {
      var pc := PcOf(s, Node(step.n));
      assert PcOk(ws, s, Node(step.n), pc);
      Handover.ControlsSnoc(s.controls, ControlFor(s.heap[pc.ref]).(node := step.n), key);
    }
  }

  /** A value of the UE becomes done only through a sender that has sent for the UE. */
  lemma DoneMeansSent(ws: set<Recipient>, s: Sys, step: Step, ref: Ref, key: string)
    requires Inv(ws, s) && Enabled(ws, s, step) && RefOk(s, key, ref)
    requires s.heap[ref].state != Done && |Do(ws, s, step).heap| >= |s.heap|
    requires Do(ws, s, step).heap[ref].state == Done
    ensures exists n: NodeId :: SentFor(s, n, key)
  {
    hide GenerateGnbUeIDString, FanOut;
    assert step.WriteState? && step.r.Node?;
    assert PcOk(ws, s, step.r, PcOf(s, step.r));
    assert SentFor(s, step.r.id, key);
  }

  lemma SentForStep(ws: set<Recipient>, s: Sys, step: Step, n: NodeId, key: string)
    requires Enabled(ws, s, step) && SentFor(Do(ws, s, step), n, key)
    requires step.SendControl? ==> PcOf(s, Node(step.n)).key != key
    ensures SentFor(s, n, key)
  {
    hide GenerateGnbUeIDString, FanOut;
  }

  lemma ControlsKept(ws: set<Recipient>, s: Sys, step: Step, key: string)
    requires Inv(ws, s) && Coherent(s, key) && ControlsMatch(s, key) && Enabled(ws, s, step)
    requires step.MonitorPut? ==> !BusyOn(s, step.n, key)
    ensures ControlsMatch(Do(ws, s, step), key)
  {
    RecordKept(ws, s, step, key);
    StepExtends(ws, s, step);
    hide Do, Enabled, Coherent, LastControlIs, SentFor, RefOk, BusyOn;
    var s' := Do(ws, s, step);
    if key in s.records {
      NoStuckHandover.RecordIsOk(ws, s, key);
      var c := ControlFor(s.heap[s.records[key]]);
      assert ControlFor(s'.heap[s'.records[key]]) == c;
      if step.SendControl? && PcOf(s, Node(step.n)).key == key {
        SendIsForEntry(ws, s, step.n, key);
      } else {
        OtherStepControls(ws, s, step, key, c);
        if s'.heap[s.records[key]].state == Done && s.heap[s.records[key]].state != Done {
          DoneMeansSent(ws, s, step, s.records[key], key);
        }
        forall n: NodeId | SentFor(s', n, key) ensures LastControlIs(s', key, c) {
          SentForStep(ws, s, step, n, key);
        }
      }
    }
  }

  // ---------- disciplined runs agree ----------

  ghost predicate Serial(s: Sys, key: string) {
    Coherent(s, key) && MonitorsServe(s, key) && ControlsMatch(s, key)
  }

  /** What the put of a monitor leaves behind. */
  lemma PutFacts(ws: set<Recipient>, s: Sys, n: NodeId, key: string)
    requires Inv(ws, s) && MonitorsServe(s, key) && BusyOn(s, n, key) && Enabled(ws, s, MonitorPut(n))
    ensures MonitorOf(s, n).PutNew? && LastTarget(s, key) == Some(MonitorOf(s, n).ind.tgtCellId)
    ensures var s', ind := Do(ws, s, MonitorPut(n)), MonitorOf(s, n).ind;
            && s'.handlers == s.handlers && s'.controls == s.controls && s'.log == s.log
            && s'.heap == s.heap + [FreshValue(ind)]
            && key in s'.records && s'.records[key] == |s.heap|
    ensures forall m: NodeId :: BusyOn(Do(ws, s, MonitorPut(n)), m, key) ==> BusyOn(s, m, key) && m != n
    ensures NoMonitor(Do(ws, s, MonitorPut(n)), key)
  {
    hide GenerateGnbUeIDString, FanOut, LastTarget;
    assert MonitorOk(ws, s, n, MonitorOf(s, n)) && Serves(s, n, key);
  }

  lemma QuietPutSerial(ws: set<Recipient>, s: Sys, n: NodeId, key: string)
    requires Inv(ws, s) && Serial(s, key) && BusyOn(s, n, key) && Enabled(ws, s, MonitorPut(n))
    requires NoHolder(s, key)
    ensures Serial(Do(ws, s, MonitorPut(n)), key)
  {
    PutFacts(ws, s, n, key);
    hide Do, Enabled, Inv, BusyOn;
    var s' := Do(ws, s, MonitorPut(n));
    forall r ensures !Holds(s', r, key) {
      assert !Holds(s, r, key);
    }
    forall m: NodeId ensures !SentFor(s', m, key) {
      assert !Holds(s, Node(m), key);
    }
    assert Coherent(s', key);
    assert LastTarget(s', key) == LastTarget(s, key);
  }

  lemma StepKeepsSerial(ws: set<Recipient>, s: Sys, step: Step, key: string)
    requires Inv(ws, s) && Serial(s, key) && Enabled(ws, s, step) && Disciplined(s, step, key)
    ensures Serial(Do(ws, s, step), key)
  {
    hide Do, Enabled, Inv, BusyOn, Coherent, MonitorsServe, ControlsMatch;
    if step.MonitorPut? && BusyOn(s, step.n, key) {
      QuietPutSerial(ws, s, step.n, key);
    } else {
      CoherentKept(ws, s, step, key);
      StepServes(ws, s, step, key);
      ControlsKept(ws, s, step, key);
    }
  }

  lemma {:induction false} RunKeepsSerial(ws: set<Recipient>, s: Sys, steps: seq<Step>, key: string)
    requires Inv(ws, s) && Serial(s, key) && Legal(ws, s, steps) && DisciplinedRun(ws, s, steps, key)
    ensures Serial(Run(ws, s, steps), key)
    decreases |steps|
  {
    hide Do, Enabled, Inv, Serial;
    if steps != [] {
      StepKeepsInv(ws, s, steps[0]);
      StepKeepsSerial(ws, s, steps[0], key);
      RunKeepsSerial(ws, Do(ws, s, steps[0]), steps[1..], key);
    }
  }

  lemma RestAgrees(ws: set<Recipient>, s: Sys, key: string)
    requires Inv(ws, s) && NoStuckHandover.EntryMoves(s, key) && Serial(s, key) && Quiescent(s)
    ensures Agrees(s, key)
  {
    hide NoStuckHandover.EntryMoves, LastControlIs;
    forall n: NodeId ensures !BusyOn(s, n, key) {
      assert MonitorOf(s, n) == Waits;
    }
    if key in s.records {
      NoStuckHandover.QuietEntryIsDone(ws, s, key);
    }
  }

  lemma StartSerial(key: string)
    ensures Serial(Start, key) && NoStuckHandover.Moves(Start)
  {
  }

  /** Whatever else interleaves: in every run in which the UE is never in two monitors at
      once and no monitor's put overtakes a handler holding the entry, whenever the system
      is at rest the entry, the last control attempt and the last indication agree. */
  lemma DisciplinedRunAgrees(ws: set<Recipient>, steps: seq<Step>, key: string)
    requires Controller in ws && Legal(ws, Start, steps) && DisciplinedRun(ws, Start, steps, key)
    requires Quiescent(Run(ws, Start, steps))
    ensures Agrees(Run(ws, Start, steps), key)
  {
    StartInv(ws);
    StartSerial(key);
    hide Legal, Run, Inv, Serial, Quiescent, Agrees, DisciplinedRun;
    RunKeepsInv(ws, Start, steps);
    RunKeepsSerial(ws, Start, steps, key);
    NoStuckHandover.NoHandoverIsStuck(ws, steps, key);
    RestAgrees(ws, Run(ws, Start, steps), key);
  }

  // ---------- the condition is exact ----------

  /** Every way the system can come to rest from here without new indications agrees. */
  ghost predicate AlwaysAgrees(ws: set<Recipient>, s: Sys, key: string) {
    forall steps: seq<Step> ::
      Legal(ws, s, steps) && Quiescence.Internal(steps) && Quiescent(Run(ws, s, steps)) ==>
        Agrees(Run(ws, s, steps), key)
  }

  ghost predicate AlwaysOnTarget(ws: set<Recipient>, s: Sys, key: string) {
    forall steps: seq<Step> ::
      Legal(ws, s, steps) && Quiescence.Internal(steps) && Quiescent(Run(ws, s, steps)) ==>
        OnTarget(Run(ws, s, steps), key)
  }

  lemma AlwaysAgreesOnTarget(ws: set<Recipient>, s: Sys, key: string)
    requires AlwaysAgrees(ws, s, key)
    ensures AlwaysOnTarget(ws, s, key)
  {
    hide Legal, Run, Quiescent, Agrees, OnTarget;
    forall steps: seq<Step> | Legal(ws, s, steps) && Quiescence.Internal(steps) && Quiescent(Run(ws, s, steps))
      ensures OnTarget(Run(ws, s, steps), key)
    {
      AgreesOnTarget(Run(ws, s, steps), key);
    }
  }

  lemma NoMonitorKept(ws: set<Recipient>, s: Sys, step: Step, key: string)
    requires NoMonitor(s, key) && Enabled(ws, s, step) && !step.Lookup?
    ensures NoMonitor(Do(ws, s, step), key)
  {
    hide GenerateGnbUeIDString, FanOut;
    forall n: NodeId ensures !BusyOn(Do(ws, s, step), n, key) {
      assert !BusyOn(s, n, key);
    }
  }

  lemma {:induction false} InternalRunSerial(ws: set<Recipient>, s: Sys, steps: seq<Step>, key: string)
    requires Inv(ws, s) && Serial(s, key) && NoMonitor(s, key)
    requires Legal(ws, s, steps) && Quiescence.Internal(steps)
    ensures Serial(Run(ws, s, steps), key)
    decreases |steps|
  {
    hide Do, Enabled, Inv, Serial, BusyOn;
    if steps != [] {
      StepKeepsInv(ws, s, steps[0]);
      StepKeepsSerial(ws, s, steps[0], key);
      NoMonitorKept(ws, s, steps[0], key);
      InternalRunSerial(ws, Do(ws, s, steps[0]), steps[1..], key);
    }
  }

  /** A stored value has the target; targets never change. */
  predicate Names(s: Sys, ref: Ref, target: string) {
    ref < |s.heap| && s.heap[ref].tgtCellId == target
  }

  /** No handler holds a value with the target. */
  ghost predicate NoneHolds(s: Sys, key: string, target: string) {
    forall r :: Holds(s, r, key) ==> !Names(s, RefHeld(s, r), target)
  }

  /** The entry has a target other than the last indication's, and neither a monitor nor a
      handler will mend it. */
  ghost predicate Lost(s: Sys, key: string, target: string) {
    && NoneHolds(s, key, target) && NoMonitor(s, key)
    && LastTarget(s, key) == Some(target) && key in s.records && !HasTarget(s, key, target)
  }

  /** A record that a step changes is now one that a handler held. */
  lemma RecordStep(ws: set<Recipient>, s: Sys, step: Step, key: string)
    requires Inv(ws, s) && Enabled(ws, s, step) && key in s.records
    requires step.MonitorPut? ==> !BusyOn(s, step.n, key)
    ensures key in Do(ws, s, step).records
    ensures var ref := Do(ws, s, step).records[key];
            ref == s.records[key] || (step.PutEntry? && Holds(s, step.r, key) && ref == RefHeld(s, step.r))
  {
    hide GenerateGnbUeIDString, FanOut;
    match step {
      case PutEntry(r) => assert PcOk(ws, s, r, PcOf(s, r));
      case MonitorPut(n) => assert MonitorOk(ws, s, n, MonitorOf(s, n));
      case _ =>
    }
  }

  lemma NamesKept(ws: set<Recipient>, s: Sys, step: Step, ref: Ref, target: string)
    requires Enabled(ws, s, step) && ref < |s.heap|
    ensures Names(Do(ws, s, step), ref, target) <==> Names(s, ref, target)
  {
    StepExtends(ws, s, step);
    hide Do, Enabled;
  }

  lemma LostStep(ws: set<Recipient>, s: Sys, step: Step, key: string, target: string)
    requires Inv(ws, s) && Lost(s, key, target) && Enabled(ws, s, step) && !step.Lookup?
    ensures Lost(Do(ws, s, step), key, target)
  {
    hide Do, Enabled, Inv, BusyOn, LastTarget, Holds, RefOk;
    var s' := Do(ws, s, step);
    NoMonitorKept(ws, s, step, key);
    RecordStep(ws, s, step, key);
    LogKept(ws, s, step, key);
    NoStuckHandover.RecordIsOk(ws, s, key);
    NamesKept(ws, s, step, s.records[key], target);
    forall r | Holds(s', r, key) ensures !Names(s', RefHeld(s', r), target) {
      HoldsStep(ws, s, step, r, key);
      if Holds(s, r, key) {
        HolderRef(ws, s, r, key);
        NamesKept(ws, s, step, RefHeld(s, r), target);
      }
    }
    if step.PutEntry? && Holds(s, step.r, key) {
      HolderRef(ws, s, step.r, key);
      NamesKept(ws, s, step, RefHeld(s, step.r), target);
    }
  }

  lemma HolderRef(ws: set<Recipient>, s: Sys, r: Recipient, key: string)
    requires Inv(ws, s) && Holds(s, r, key)
    ensures RefHeld(s, r) < |s.heap| && PcOf(s, r).key == key && r in ws
  {
    hide HoldsOk;
    NoStuckHandover.HeldIsOk(ws, s, r);
  }

  lemma {:induction false} LostForGood(ws: set<Recipient>, s: Sys, steps: seq<Step>, key: string, target: string)
    requires Inv(ws, s) && Lost(s, key, target) && Legal(ws, s, steps) && Quiescence.Internal(steps)
    ensures Lost(Run(ws, s, steps), key, target)
    decreases |steps|
  {
    hide Do, Enabled, Inv, Lost;
    if steps != [] {
      StepKeepsInv(ws, s, steps[0]);
      LostStep(ws, s, steps[0], key, target);
      LostForGood(ws, Do(ws, s, steps[0]), steps[1..], key, target);
    }
  }

  lemma LostDisagrees(ws: set<Recipient>, s: Sys, key: string, target: string)
    requires Inv(ws, s) && Lost(s, key, target)
    ensures !AlwaysOnTarget(ws, s, key)
  {
    hide Do, Enabled, Inv, BusyOn, LastControlNames;
    var steps := Quiescence.ComesToRest(ws, s);
    LostForGood(ws, s, steps, key, target);
    assert !OnTarget(Run(ws, s, steps), key);
  }

  /** No monitor is busy, and handler `r` and every other holder hold values without the last
      target. */
  ghost predicate Overtaken(s: Sys, r: Recipient, key: string, target: string) {
    && Holds(s, r, key) && NoneHolds(s, key, target)
    && NoMonitor(s, key) && LastTarget(s, key) == Some(target) && key in s.records
  }

  lemma HeldKept(ws: set<Recipient>, s: Sys, step: Step, key: string, target: string)
    requires Inv(ws, s) && Enabled(ws, s, step) && (step.SendControl? || step.WriteState? || step.PutEntry?)
    requires NoneHolds(s, key, target)
    ensures NoneHolds(Do(ws, s, step), key, target)
  {
    hide Do, Enabled, Inv, Holds, Names;
    var s' := Do(ws, s, step);
    forall r | Holds(s', r, key) ensures !Names(s', RefHeld(s', r), target) {
      StageHolds(ws, s, step, r, key);
      HolderRef(ws, s, r, key);
      NamesKept(ws, s, step, RefHeld(s, r), target);
    }
  }

  /** Sending, writing and putting give no handler anything new to hold. */
  lemma StageHolds(ws: set<Recipient>, s: Sys, step: Step, r: Recipient, key: string)
    requires Enabled(ws, s, step) && (step.SendControl? || step.WriteState? || step.PutEntry?)
    requires Holds(Do(ws, s, step), r, key)
    ensures Holds(s, r, key) && RefHeld(Do(ws, s, step), r) == RefHeld(s, r)
  {
    hide GenerateGnbUeIDString, FanOut;
  }

  lemma OvertakenStep(ws: set<Recipient>, s: Sys, step: Step, r: Recipient, key: string, target: string)
    requires Inv(ws, s) && Overtaken(s, r, key, target) && Enabled(ws, s, step)
    requires step.SendControl? || step.WriteState?
    requires Holds(Do(ws, s, step), r, key)
    ensures Overtaken(Do(ws, s, step), r, key, target)
  {
    hide Do, Enabled, Inv, BusyOn, LastTarget, Holds;
    NoMonitorKept(ws, s, step, key);
    LogKept(ws, s, step, key);
    RecordStep(ws, s, step, key);
    HeldKept(ws, s, step, key, target);
  }

  lemma OvertakenPut(ws: set<Recipient>, s: Sys, r: Recipient, key: string, target: string)
    requires Inv(ws, s) && Overtaken(s, r, key, target) && Enabled(ws, s, PutEntry(r))
    ensures Lost(Do(ws, s, PutEntry(r)), key, target)
  {
    HolderRef(ws, s, r, key);
    var s' := Do(ws, s, PutEntry(r));
    assert s'.records[key] == RefHeld(s, r) && s'.heap == s.heap;
    hide Do, Enabled, Inv, BusyOn, LastTarget, Holds;
    NoMonitorKept(ws, s, PutEntry(r), key);
    LogKept(ws, s, PutEntry(r), key);
    HeldKept(ws, s, PutEntry(r), key, target);
  }

  /** If the system can miss the target after a step, it can before. */
  lemma BeforeStep(ws: set<Recipient>, s: Sys, step: Step, key: string)
    requires Enabled(ws, s, step) && !step.Lookup? && !AlwaysOnTarget(ws, Do(ws, s, step), key)
    ensures !AlwaysOnTarget(ws, s, key)
  {
    hide Do, Enabled, OnTarget, Quiescent;
    var t := Do(ws, s, step);
    var rest: seq<Step> :| Legal(ws, t, rest) && Quiescence.Internal(rest) && Quiescent(Run(ws, t, rest))
                           && !OnTarget(Run(ws, t, rest), key);
    var steps := [step] + rest;
    assert steps[0] == step && steps[1..] == rest;
    assert Legal(ws, s, steps) && Run(ws, s, steps) == Run(ws, t, rest) && Quiescence.Internal(steps);
  }

  /** The next step of a handler that holds the entry. */
  function NextStage(s: Sys, r: Recipient): Step {
    match PcOf(s, r)
    case Written(_, _) => PutEntry(r)
    case Have(_, _) => if r.Node? then SendControl(r.id) else WriteState(r)
    case _ => WriteState(r)
  }

  function StepsLeft(s: Sys, r: Recipient): nat {
    match PcOf(s, r)
    case Have(_, _) => 3
    case Sent(_, _) => 2
    case Written(_, _) => 1
    case _ => 0
  }

  lemma StageSteps(ws: set<Recipient>, s: Sys, r: Recipient, key: string)
    requires Inv(ws, s) && Holds(s, r, key)
    ensures var step := NextStage(s, r);
            && Enabled(ws, s, step) && StepsLeft(Do(ws, s, step), r) < StepsLeft(s, r)
            && (step == PutEntry(r) || step.SendControl? || step.WriteState?)
            && (step == PutEntry(r) || Holds(Do(ws, s, step), r, key))
  {
    hide GenerateGnbUeIDString, FanOut;
    assert PcOk(ws, s, r, PcOf(s, r));
  }

  lemma OvertakenPutLoses(ws: set<Recipient>, s: Sys, r: Recipient, key: string, target: string)
    requires Inv(ws, s) && Overtaken(s, r, key, target) && Enabled(ws, s, PutEntry(r))
    ensures !AlwaysOnTarget(ws, s, key)
  {
    hide Do, Enabled, Inv, AlwaysOnTarget, Lost, Overtaken;
    StepKeepsInv(ws, s, PutEntry(r));
    OvertakenPut(ws, s, r, key, target);
    LostDisagrees(ws, Do(ws, s, PutEntry(r)), key, target);
    BeforeStep(ws, s, PutEntry(r), key);
  }

  /** If an overtaken handler goes on first, the new target is lost for good. */
  lemma {:induction false} OvertakenLoses(ws: set<Recipient>, s: Sys, r: Recipient, key: string, target: string)
    requires Inv(ws, s) && Overtaken(s, r, key, target)
    ensures !AlwaysOnTarget(ws, s, key)
    decreases StepsLeft(s, r)
  {
    assert Holds(s, r, key);
    hide Do, Enabled, Inv, AlwaysOnTarget, Overtaken, NextStage, StepsLeft, Holds, PcOf;
    StageSteps(ws, s, r, key);
    var step := NextStage(s, r);
    if step == PutEntry(r) {
      OvertakenPutLoses(ws, s, r, key, target);
    } else {
      StepKeepsInv(ws, s, step);
      OvertakenStep(ws, s, step, r, key, target);
      OvertakenLoses(ws, Do(ws, s, step), r, key, target);
      BeforeStep(ws, s, step, key);
    }
  }

  lemma PutOvertakes(ws: set<Recipient>, s: Sys, n: NodeId, r: Recipient, key: string)
    requires Inv(ws, s) && Serial(s, key) && BusyOn(s, n, key) && Enabled(ws, s, MonitorPut(n)) && Holds(s, r, key)
    ensures Overtaken(Do(ws, s, MonitorPut(n)), r, key, MonitorOf(s, n).ind.tgtCellId)
  {
    PutFacts(ws, s, n, key);
    HolderRef(ws, s, r, key);
    hide Do, Enabled, Inv, BusyOn, RefOk;
    var s', target := Do(ws, s, MonitorPut(n)), MonitorOf(s, n).ind.tgtCellId;
    assert RefHeld(s, r) == s.records[key];
    assert Serves(s, n, key);
    forall q | Holds(s', q, key) ensures !Names(s', RefHeld(s', q), target) {
      assert Holds(s, q, key);
    }
    assert LastTarget(s', key) == LastTarget(s, key);
  }

  lemma QuietPutAgrees(ws: set<Recipient>, s: Sys, n: NodeId, key: string)
    requires Inv(ws, s) && NoStuckHandover.Moves(s) && Serial(s, key)
    requires BusyOn(s, n, key) && Enabled(ws, s, MonitorPut(n)) && NoHolder(s, key)
    ensures AlwaysAgrees(ws, Do(ws, s, MonitorPut(n)), key)
  {
    hide Do, Enabled, Inv, BusyOn, NoStuckHandover.Moves, NoHolder, Coherent, ControlsMatch, Agrees, Quiescent, Legal, Run;
    PutFacts(ws, s, n, key);
    QuietPutSerial(ws, s, n, key);
    hide MonitorsServe, Serial;
    StepKeepsInv(ws, s, MonitorPut(n));
    NoStuckHandover.StepKeepsMoves(ws, s, MonitorPut(n));
    var t := Do(ws, s, MonitorPut(n));
    forall steps | Legal(ws, t, steps) && Quiescence.Internal(steps) && Quiescent(Run(ws, t, steps))
      ensures Agrees(Run(ws, t, steps), key)
    {
      InternalRunSerial(ws, t, steps, key);
      RunKeepsInv(ws, t, steps);
      NoStuckHandover.RunKeepsMoves(ws, t, steps);
      MovesEntry(Run(ws, t, steps), key);
      RestAgrees(ws, Run(ws, t, steps), key);
    }
  }

  lemma MovesEntry(s: Sys, key: string)
    requires NoStuckHandover.Moves(s)
    ensures NoStuckHandover.EntryMoves(s, key)
  {
  }

  /** After any disciplined run, consider the put with which a monitor creates or replaces a
      UE's entry. Every way of coming to rest after it agrees exactly if no handler holds
      the entry at that moment. */
  lemma PutRaceExact(ws: set<Recipient>, steps: seq<Step>, n: NodeId, key: string)
    requires Controller in ws && Legal(ws, Start, steps) && DisciplinedRun(ws, Start, steps, key)
    requires var s := Run(ws, Start, steps); BusyOn(s, n, key) && Enabled(ws, s, MonitorPut(n))
    ensures var s := Run(ws, Start, steps);
            && (AlwaysAgrees(ws, Do(ws, s, MonitorPut(n)), key) <==> NoHolder(s, key))
            && (AlwaysOnTarget(ws, Do(ws, s, MonitorPut(n)), key) <==> NoHolder(s, key))
  {
    StartInv(ws);
    StartSerial(key);
    hide Legal, Run, Do, Enabled, Inv, Serial, DisciplinedRun, AlwaysAgrees, AlwaysOnTarget, BusyOn, NoStuckHandover.Moves;
    var s := Run(ws, Start, steps);
    RunKeepsInv(ws, Start, steps);
    RunKeepsSerial(ws, Start, steps, key);
    NoStuckHandover.RunKeepsMoves(ws, Start, steps);
    var t := Do(ws, s, MonitorPut(n));
    if NoHolder(s, key) {
      QuietPutAgrees(ws, s, n, key);
      AlwaysAgreesOnTarget(ws, t, key);
    } else {
      var r :| Holds(s, r, key);
      PutOvertakes(ws, s, n, r, key);
      StepKeepsInv(ws, s, MonitorPut(n));
      OvertakenLoses(ws, t, r, key, MonitorOf(s, n).ind.tgtCellId);
      if AlwaysAgrees(ws, t, key) {
        AlwaysAgreesOnTarget(ws, t, key);
      }
    }
  }
}
