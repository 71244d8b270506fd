/** When the target of a UE's last indication can be lost: some handler holds an older value, or
    will, or another monitor has yet to put an older target. */
module TargetLost {
  import opened Wrappers
  import opened UeKey
  import opened HandoverTypes
  import opened Interleaving
  import opened PutRace
  import NoStuckHandover
  import Quiescence

  // ---------- the condition ----------

  /** A monitor that found the target it was about to set leaves the entry alone. */
  predicate WontPut(s: Sys, n: NodeId) {
    match MonitorOf(s, n)
    case Read(ind, ref) => Names(s, ref, ind.tgtCellId)
    case _ => false
  }

  predicate Targets(s: Sys, n: NodeId, target: string) {
    match MonitorOf(s, n)
    case Present(ind) => ind.tgtCellId == target
    case Read(ind, _) => ind.tgtCellId == target
    case PutNew(ind) => ind.tgtCellId == target
    case _ => false
  }

  /** A monitor that may yet put another target for the UE. */
  predicate Rival(s: Sys, n: NodeId, key: string, target: string) {
    BusyOn(s, n, key) && !Targets(s, n, target) && !WontPut(s, n)
  }

  ghost predicate NoRival(s: Sys, key: string, target: string) {
    forall n: NodeId :: !Rival(s, n, key, target)
  }

  /** An event that makes its watcher act on the UE's present entry. */
  predicate Acting(s: Sys, key: string, r: Recipient, e: Event) {
    && e.key == key && key in s.records && s.records[key] < |s.heap|
    && Reads(r, e) && Acts(r, e, s.heap[s.records[key]])
  }

  predicate Took(s: Sys, key: string, r: Recipient) {
    PcOf(s, r).Got? && Acting(s, key, r, PcOf(s, r).e)
  }

  /** A handler holds the UE's entry, or some event in flight or in hand will make one hold it. */
  ghost predicate Contended(s: Sys, key: string) {
    || !NoHolder(s, key)
    || (exists r :: Took(s, key, r))
    || (exists d :: d in s.inFlight && Acting(s, key, d.to, d.event))
  }

  // ---------- one step of a monitor ----------

  /** The next step of a busy monitor. */
  function MonitorStep(s: Sys, n: NodeId): Step {
    match MonitorOf(s, n)
    case Present(_) => MonitorGet(n)
    case Read(_, _) => MonitorCompare(n)
    case _ => MonitorPut(n)
  }

  function MonitorLeft(s: Sys, n: NodeId): nat {
    match MonitorOf(s, n)
    case Waits => 0
    case Present(_) => 3
    case Read(_, _) => 2
    case _ => 1
  }

  /** What that step does to the store and to the monitor. */
  predicate Moved(s: Sys, s': Sys, n: NodeId, key: string) {
    match MonitorOf(s, n)
    case Present(ind) =>
      && s'.heap == s.heap && s'.records == s.records
      && key in s.records && MonitorOf(s', n) == Read(ind, s.records[key])
    case Read(ind, _) =>
      && s'.heap == s.heap && s'.records == s.records
      && MonitorOf(s', n) == if WontPut(s, n) then Waits else PutNew(ind)
    case PutNew(ind) =>
      && s'.heap == s.heap + [FreshValue(ind)] && s'.records == s.records[key := |s.heap|]
      && MonitorOf(s', n) == Waits
    case _ => false
  }

  /** ... and to nothing else. */
  ghost predicate MovesOnly(s: Sys, s': Sys, n: NodeId, key: string) {
    && Moved(s, s', n, key) && MonitorLeft(s', n) < MonitorLeft(s, n)
    && s'.handlers == s.handlers && s'.controls == s.controls && s'.log == s.log
    && (forall m: NodeId :: m != n ==> MonitorOf(s', m) == MonitorOf(s, m))
  }

  lemma MonitorMoves(ws: set<Recipient>, s: Sys, n: NodeId, key: string)
    requires Inv(ws, s) && BusyOn(s, n, key)
    ensures Enabled(ws, s, MonitorStep(s, n)) && !MonitorStep(s, n).Lookup?
    ensures MovesOnly(s, Do(ws, s, MonitorStep(s, n)), n, key) && Inv(ws, Do(ws, s, MonitorStep(s, n)))
  {
    hide GenerateGnbUeIDString, FanOut, EventsOk;
    assert MonitorOk(ws, s, n, MonitorOf(s, n));
    if MonitorOf(s, n).Read? {
      assert ValueOk(ws, s, s.heap[MonitorOf(s, n).ref]);
    }
    MonitorStepFacts(ws, s, n, key);
    StepKeepsInv(ws, s, MonitorStep(s, n));
  }

  lemma MonitorStepFacts(ws: set<Recipient>, s: Sys, n: NodeId, key: string)
    requires MonitorOk(ws, s, n, MonitorOf(s, n)) && BusyOn(s, n, key)
    requires MonitorOf(s, n).Read? ==> s.heap[MonitorOf(s, n).ref].state != Denied
    ensures Enabled(ws, s, MonitorStep(s, n)) && MovesOnly(s, Do(ws, s, MonitorStep(s, n)), n, key)
  {
    hide GenerateGnbUeIDString, FanOut;
  }

  /** The monitor step that was taken for a busy monitor is its next one. */
  lemma OnlyMonitorStep(ws: set<Recipient>, s: Sys, step: Step, key: string)
    requires Inv(ws, s) && Enabled(ws, s, step) && IsMonitorStep(step) && !step.Lookup? && BusyOn(s, step.n, key)
    ensures step == MonitorStep(s, step.n)
  {
    hide GenerateGnbUeIDString;
    assert MonitorOk(ws, s, step.n, MonitorOf(s, step.n));
  }

  /** No monitor but these two is busy with the UE. */
  ghost predicate OnlyBusy(s: Sys, key: string, m: NodeId, n: NodeId) {
    forall q: NodeId :: BusyOn(s, q, key) ==> q == m || q == n
  }

  lemma OnlyBusyKept(s: Sys, s': Sys, key: string, m: NodeId, n: NodeId, moved: NodeId)
    requires OnlyBusy(s, key, m, n) && (moved == m || moved == n) && MovesOnly(s, s', moved, key)
    ensures OnlyBusy(s', key, m, n)
  {
    forall q: NodeId | BusyOn(s', q, key) ensures q == m || q == n {
      if q != moved {
        assert BusyOn(s, q, key);
      }
    }
  }

  lemma SameHandlers(s: Sys, s': Sys, key: string, target: string, moved: NodeId)
    requires MovesOnly(s, s', moved, key)
    requires NoneHolds(s, key, target) && forall r :: Holds(s, r, key) ==> RefHeld(s, r) < |s.heap|
    ensures NoneHolds(s', key, target)
    ensures forall r :: Holds(s', r, key) <==> Holds(s, r, key)
    ensures LastTarget(s', key) == LastTarget(s, key)
    ensures key in s.records ==> key in s'.records
  {
    forall r ensures Holds(s', r, key) <==> Holds(s, r, key) {
    }
    forall r | Holds(s', r, key) ensures !Names(s', RefHeld(s', r), target) {
      assert Holds(s, r, key);
    }
  }

  lemma HeldRefs(ws: set<Recipient>, s: Sys, key: string)
    requires Inv(ws, s)
    ensures forall r :: Holds(s, r, key) ==> RefHeld(s, r) < |s.heap|
  {
    hide Inv, Holds, RefHeld;
    forall r | Holds(s, r, key) ensures RefHeld(s, r) < |s.heap| {
      HolderRef(ws, s, r, key);
    }
  }

  lemma RecordRefs(ws: set<Recipient>, s: Sys)
    requires Inv(ws, s)
    ensures forall k :: k in s.records ==> s.records[k] < |s.heap|
  {
    hide GenerateGnbUeIDString;
    forall k | k in s.records ensures s.records[k] < |s.heap| {
      assert RefOk(s, k, s.records[k]);
    }
  }

  lemma ReadRef(ws: set<Recipient>, s: Sys, n: NodeId)
    requires Inv(ws, s)
    ensures MonitorOf(s, n).Read? ==> MonitorOf(s, n).ref < |s.heap|
  {
    hide GenerateGnbUeIDString;
    assert MonitorOk(ws, s, n, MonitorOf(s, n));
  }

  // ---------- losing the target ----------

  /** A handler that holds a value without the last target loses it, whatever the monitors do. */
  lemma {:induction false} StaleLoses(ws: set<Recipient>, s: Sys, r: Recipient, key: string, target: string,
                                      m: NodeId, n: NodeId)
    requires Inv(ws, s) && Holds(s, r, key) && NoneHolds(s, key, target) && OnlyBusy(s, key, m, n)
    requires LastTarget(s, key) == Some(target) && key in s.records
    ensures !AlwaysOnTarget(ws, s, key)
    decreases MonitorLeft(s, m) + MonitorLeft(s, n)
  {
    if BusyOn(s, m, key) || BusyOn(s, n, key) {
      hide Do, Enabled, Inv, BusyOn, AlwaysOnTarget, Holds, RefHeld, Moved, MonitorStep, MonitorLeft, LastTarget;
      var q := if BusyOn(s, m, key) then m else n;
      MonitorMoves(ws, s, q, key);
      var s' := Do(ws, s, MonitorStep(s, q));
      OnlyBusyKept(s, s', key, m, n, q);
      HeldRefs(ws, s, key);
      SameHandlers(s, s', key, target, q);
      LeftShrinks(s, s', key, m, n, q);
      StaleLoses(ws, s', r, key, target, m, n);
      BeforeStep(ws, s, MonitorStep(s, q), key);
    } else {
      hide Holds, BusyOn, Inv;
      assert NoMonitor(s, key);
      OvertakenLoses(ws, s, r, key, target);
    }
  }

  lemma LeftShrinks(s: Sys, s': Sys, key: string, m: NodeId, n: NodeId, moved: NodeId)
    requires (moved == m || moved == n) && MovesOnly(s, s', moved, key)
    ensures MonitorLeft(s', m) + MonitorLeft(s', n) < MonitorLeft(s, m) + MonitorLeft(s, n)
  {
  }

  lemma RivalStep(s: Sys, s': Sys, key: string, target: string, n: NodeId)
    requires MovesOnly(s, s', n, key) && Rival(s, n, key, target) && HasTarget(s, key, target)
    requires MonitorOf(s, n).Read? ==> MonitorOf(s, n).ref < |s.heap|
    ensures if MonitorStep(s, n).MonitorPut? then !BusyOn(s', n, key) && key in s'.records && !HasTarget(s', key, target)
            else Rival(s', n, key, target) && HasTarget(s', key, target)
  {
    hide GenerateGnbUeIDString;
  }

  /** The last indication's monitor is through and its target is set; a rival monitor goes on. */
  lemma {:induction false} RivalGoesOn(ws: set<Recipient>, s: Sys, key: string, target: string, n: NodeId)
    requires Inv(ws, s) && NoHolder(s, key) && OnlyBusy(s, key, n, n) && Rival(s, n, key, target)
    requires LastTarget(s, key) == Some(target) && HasTarget(s, key, target)
    ensures !AlwaysOnTarget(ws, s, key)
    decreases MonitorLeft(s, n)
  {
    assert BusyOn(s, n, key);
    hide Do, Enabled, Inv, BusyOn, AlwaysOnTarget, Holds, RefHeld, Moved, MonitorStep, MonitorLeft, LastTarget, Rival;
    MonitorMoves(ws, s, n, key);
    var step := MonitorStep(s, n);
    var s' := Do(ws, s, step);
    OnlyBusyKept(s, s', key, n, n, n);
    SameHandlers(s, s', key, target, n);
    ReadRef(ws, s, n);
    RivalStep(s, s', key, target, n);
    if step.MonitorPut? {
      assert NoMonitor(s', key);
      LostDisagrees(ws, s', key, target);
    } else {
      RivalGoesOn(ws, s', key, target, n);
    }
    BeforeStep(ws, s, step, key);
  }

  /** Where the last indication's monitor stands: its target is set or it is about to set it. */
  predicate SetsTarget(s: Sys, m: NodeId, key: string, target: string) {
    if BusyOn(s, m, key) then Targets(s, m, target) && (WontPut(s, m) ==> HasTarget(s, key, target))
    else HasTarget(s, key, target)
  }

  lemma RivalStays(s: Sys, s': Sys, key: string, target: string, m: NodeId, n: NodeId)
    requires MovesOnly(s, s', m, key) && m != n && BusyOn(s, m, key) && SetsTarget(s, m, key, target)
    requires Rival(s, n, key, target)
    requires MonitorOf(s, n).Read? ==> MonitorOf(s, n).ref < |s.heap|
    requires forall k :: k in s.records ==> s.records[k] < |s.heap|
    ensures Rival(s', n, key, target) && SetsTarget(s', m, key, target)
  {
    hide GenerateGnbUeIDString;
  }

  /** Let the last indication's monitor finish first; then its rival sets another target. */
  lemma {:induction false} RivalLoses(ws: set<Recipient>, s: Sys, key: string, target: string, m: NodeId, n: NodeId)
    requires Inv(ws, s) && NoHolder(s, key) && OnlyBusy(s, key, m, n) && Rival(s, n, key, target) && m != n
    requires LastTarget(s, key) == Some(target) && SetsTarget(s, m, key, target)
    ensures !AlwaysOnTarget(ws, s, key)
    decreases MonitorLeft(s, m)
  {
    if BusyOn(s, m, key) {
      hide Do, Enabled, Inv, BusyOn, AlwaysOnTarget, Holds, RefHeld, Moved, MonitorStep, MonitorLeft, LastTarget, Rival,
           SetsTarget;
      MonitorMoves(ws, s, m, key);
      var s' := Do(ws, s, MonitorStep(s, m));
      ReadRef(ws, s, n);
      RecordRefs(ws, s);
      RivalStays(s, s', key, target, m, n);
      OnlyBusyKept(s, s', key, m, n, m);
      SameHandlers(s, s', key, target, m);
      RivalLoses(ws, s', key, target, m, n);
      BeforeStep(ws, s, MonitorStep(s, m), key);
    } else {
      RivalGoesOn(ws, s, key, target, n);
    }
  }

  // ---------- driving the handlers ----------

  /** What a step of a handler leaves alone while all holders hold the entry itself. */
  ghost predicate StoreStays(s: Sys, s': Sys, key: string) {
    && s'.monitors == s.monitors && LastTarget(s', key) == LastTarget(s, key)
    && |s'.heap| == |s.heap|
    && (forall ref :: 0 <= ref < |s.heap| ==> s'.heap[ref] == s.heap[ref].(state := s'.heap[ref].state))
    && (key in s'.records <==> key in s.records)
    && (key in s.records ==> s'.records[key] == s.records[key])
  }

  lemma HandlerStays(ws: set<Recipient>, s: Sys, step: Step, key: string)
    requires Inv(ws, s) && Coherent(s, key) && Enabled(ws, s, step) && !IsMonitorStep(step)
    ensures var s' := Do(ws, s, step); StoreStays(s, s', key) && Coherent(s', key) && Inv(ws, s')
    ensures Quiescence.Rank(ws, Do(ws, s, step)) < Quiescence.Rank(ws, s)
  {
    RecordKept(ws, s, step, key);
    CoherentKept(ws, s, step, key);
    LogKept(ws, s, step, key);
    StepExtends(ws, s, step);
    StepKeepsInv(ws, s, step);
    Quiescence.StepRank(ws, s, step);
    SameHeapLength(ws, s, step);
    hide Do, Enabled, Inv, Coherent, LastTarget, Quiescence.Rank;
  }

  lemma SameHeapLength(ws: set<Recipient>, s: Sys, step: Step)
    requires Enabled(ws, s, step) && !IsMonitorStep(step)
    ensures |Do(ws, s, step).heap| == |s.heap| && Do(ws, s, step).monitors == s.monitors
  {
    hide GenerateGnbUeIDString, FanOut;
  }

  lemma StaysFacts(s: Sys, s': Sys, key: string, target: string, m: NodeId, n: NodeId)
    requires StoreStays(s, s', key)
    ensures OnlyBusy(s, key, m, n) ==> OnlyBusy(s', key, m, n)
    ensures HasTarget(s', key, target) <==> HasTarget(s, key, target)
    ensures forall r, e :: Acting(s', key, r, e) <==> Acting(s, key, r, e)
    ensures Rival(s', n, key, target) <==> Rival(s, n, key, target)
    ensures SetsTarget(s', m, key, target) <==> SetsTarget(s, m, key, target)
  {
    hide GenerateGnbUeIDString;
    if OnlyBusy(s, key, m, n) {
      forall q: NodeId | BusyOn(s', q, key) ensures q == m || q == n {
        assert BusyOn(s, q, key);
      }
    }
  }

  lemma HolderLoses(ws: set<Recipient>, s: Sys, r: Recipient, key: string, target: string, m: NodeId, n: NodeId)
    requires Inv(ws, s) && Coherent(s, key) && Holds(s, r, key) && OnlyBusy(s, key, m, n)
    requires LastTarget(s, key) == Some(target) && !HasTarget(s, key, target)
    ensures !AlwaysOnTarget(ws, s, key)
  {
    hide Inv, Holds, BusyOn, RefHeld, AlwaysOnTarget, LastTarget, OnlyBusy;
    HeldRefs(ws, s, key);
    StaleLoses(ws, s, r, key, target, m, n);
  }

  lemma TookHolds(ws: set<Recipient>, s: Sys, key: string, r: Recipient)
    requires Took(s, key, r)
    ensures Enabled(ws, s, GetEntry(r)) && Holds(Do(ws, s, GetEntry(r)), r, key)
  {
    hide GenerateGnbUeIDString;
  }

  lemma TookLoses(ws: set<Recipient>, s: Sys, r: Recipient, key: string, target: string, m: NodeId, n: NodeId)
    requires Inv(ws, s) && Coherent(s, key) && Took(s, key, r) && OnlyBusy(s, key, m, n)
    requires LastTarget(s, key) == Some(target) && !HasTarget(s, key, target)
    ensures !AlwaysOnTarget(ws, s, key)
  {
    hide Do, Enabled, Inv, Coherent, Holds, AlwaysOnTarget, OnlyBusy, HasTarget, Took, Quiescence.Rank, Rival, SetsTarget;
    TookHolds(ws, s, key, r);
    var s' := Do(ws, s, GetEntry(r));
    HandlerStays(ws, s, GetEntry(r), key);
    StaysFacts(s, s', key, target, m, n);
    HolderLoses(ws, s', r, key, target, m, n);
    BeforeStep(ws, s, GetEntry(r), key);
  }

  /** The next step of a handler. */
  function HandlerStep(s: Sys, d: Delivery): Step {
    match PcOf(s, d.to)
    case Idle => Receive(d)
    case Got(_) => GetEntry(d.to)
    case _ => NextStage(s, d.to)
  }

  lemma HandlerSteps(ws: set<Recipient>, s: Sys, key: string, d: Delivery)
    requires Inv(ws, s) && d in s.inFlight && Acting(s, key, d.to, d.event)
    ensures Enabled(ws, s, HandlerStep(s, d)) && !IsMonitorStep(HandlerStep(s, d))
    ensures if PcOf(s, d.to).Idle? then PcOf(Do(ws, s, HandlerStep(s, d)), d.to) == Got(d.event)
            else d in Do(ws, s, HandlerStep(s, d)).inFlight
  {
    hide GenerateGnbUeIDString, FanOut, EventsOk, ValuesOk;
    assert PcOk(ws, s, d.to, PcOf(s, d.to));
    if PcOf(s, d.to).Got? {
      GotRecord(ws, s, d.to);
    }
  }

  lemma GotRecord(ws: set<Recipient>, s: Sys, r: Recipient)
    requires Inv(ws, s) && PcOf(s, r).Got?
    ensures Enabled(ws, s, GetEntry(r))
  {
    hide GenerateGnbUeIDString;
    RecordRefs(ws, s);
  }

  /** An acting event in flight can be delivered in time to make its handler hold the entry. */
  lemma {:induction false} PendingLoses(ws: set<Recipient>, s: Sys, d: Delivery, key: string, target: string,
                                        m: NodeId, n: NodeId)
    requires Inv(ws, s) && Coherent(s, key) && d in s.inFlight && Acting(s, key, d.to, d.event)
    requires OnlyBusy(s, key, m, n) && LastTarget(s, key) == Some(target) && !HasTarget(s, key, target)
    ensures !AlwaysOnTarget(ws, s, key)
    decreases Quiescence.Rank(ws, s)
  {
    hide Do, Enabled, Inv, Coherent, AlwaysOnTarget, OnlyBusy, HasTarget, Quiescence.Rank, Rival, SetsTarget, Acting,
         HandlerStep, Quiescence.Potential, LastTarget;
    HandlerSteps(ws, s, key, d);
    var step := HandlerStep(s, d);
    var s' := Do(ws, s, step);
    HandlerStays(ws, s, step, key);
    StaysFacts(s, s', key, target, m, n);
    if PcOf(s, d.to).Idle? {
      TookLoses(ws, s', d.to, key, target, m, n);
    } else {
      PendingLoses(ws, s', d, key, target, m, n);
    }
    BeforeStep(ws, s, step, key);
  }

  lemma ContendedLoses(ws: set<Recipient>, s: Sys, key: string, target: string, m: NodeId, n: NodeId)
    requires Inv(ws, s) && Coherent(s, key) && Contended(s, key) && OnlyBusy(s, key, m, n)
    requires LastTarget(s, key) == Some(target) && !HasTarget(s, key, target)
    ensures !AlwaysOnTarget(ws, s, key)
  {
    hide Inv, Coherent, AlwaysOnTarget, OnlyBusy, HasTarget, LastTarget, Acting, Took, Holds;
    if !NoHolder(s, key) {
      var r :| Holds(s, r, key);
      HolderLoses(ws, s, r, key, target, m, n);
    } else if r :| Took(s, key, r) {
      TookLoses(ws, s, r, key, target, m, n);
    } else {
      var d :| d in s.inFlight && Acting(s, key, d.to, d.event);
      PendingLoses(ws, s, d, key, target, m, n);
    }
  }

  /** When the entry has the target already, let its holders put it back first. */
  lemma {:induction false} ReleasedRivalLoses(ws: set<Recipient>, s: Sys, key: string, target: string,
                                              m: NodeId, n: NodeId)
    requires Inv(ws, s) && Coherent(s, key) && OnlyBusy(s, key, m, n) && Rival(s, n, key, target) && m != n
    requires LastTarget(s, key) == Some(target) && SetsTarget(s, m, key, target)
    requires NoHolder(s, key) || HasTarget(s, key, target)
    ensures !AlwaysOnTarget(ws, s, key)
    decreases Quiescence.Rank(ws, s)
  {
    hide Do, Enabled, Inv, Coherent, Holds, AlwaysOnTarget, OnlyBusy, HasTarget, Quiescence.Rank, Rival, SetsTarget,
         NextStage, StepsLeft, LastTarget;
    if NoHolder(s, key) {
      RivalLoses(ws, s, key, target, m, n);
    } else {
      var r :| Holds(s, r, key);
      StageSteps(ws, s, r, key);
      var step := NextStage(s, r);
      var s' := Do(ws, s, step);
      HandlerStays(ws, s, step, key);
      StaysFacts(s, s', key, target, m, n);
      ReleasedRivalLoses(ws, s', key, target, m, n);
      BeforeStep(ws, s, step, key);
    }
  }
}
