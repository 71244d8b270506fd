/** When the target of a UE's last indication is sure to be met, although several monitors may
    be busy with the UE: all that can still be put for it has that target. */
module TargetMet {
  import opened Wrappers
  import opened UeKey
  import opened HandoverTypes
  import opened Interleaving
  import opened PutRace
  import opened TargetLost
  import NoStuckHandover
  import Quiescence
  import Handover

  // ---------- once the target is set ----------

  /** No control attempt has been made for what is in the store or held. */
  ghost predicate Unsent(s: Sys, key: string) {
    && (key in s.records && s.records[key] < |s.heap| ==> s.heap[s.records[key]].state != Done)
    && (forall r :: Holds(s, r, key) ==> RefHeld(s, r) < |s.heap| && s.heap[RefHeld(s, r)].state != Done)
    && (forall n: NodeId :: !SentFor(s, n, key))
  }

  /** The entry and every held value have the target, and nothing else can still be put. */
  ghost predicate AllNamed(s: Sys, key: string, target: string) {
    && LastTarget(s, key) == Some(target) && HasTarget(s, key, target) && NoRival(s, key, target)
    && (forall r :: Holds(s, r, key) ==> Names(s, RefHeld(s, r), target))
  }

  ghost predicate OneTarget(s: Sys, key: string, target: string) {
    AllNamed(s, key, target) && (LastControlNames(s, key, target) || Unsent(s, key))
  }

  lemma NotRivalMoved(s: Sys, s': Sys, n: NodeId, key: string, target: string)
    requires !Rival(s, n, key, target) && MovesOnly(s, s', n, key) && BusyOn(s, n, key)
    ensures !Rival(s', n, key, target)
  {
    hide GenerateGnbUeIDString;
  }

  /** A monitor other than the one that takes the step is where it was. */
  lemma MonitorStays(ws: set<Recipient>, s: Sys, step: Step, n: NodeId, key: string)
    requires Inv(ws, s) && Enabled(ws, s, step) && !step.Lookup? && BusyOn(Do(ws, s, step), n, key)
    ensures BusyOn(s, n, key)
    ensures MonitorOf(Do(ws, s, step), n) == MonitorOf(s, n) || step == MonitorStep(s, n)
  {
    hide Do, Enabled, Inv, MonitorOf, MonitorStep, GenerateGnbUeIDString;
    if MonitorOf(Do(ws, s, step), n) != MonitorOf(s, n) {
      OnlyThreadMonitorMoves(ws, s, step, n);
      ItsOwnStep(step, n);
      BusyBefore(ws, s, step, key);
      OnlyMonitorStep(ws, s, step, key);
    } else {
      SameBusy(s, Do(ws, s, step), n, key);
    }
  }

  lemma SameBusy(s: Sys, s': Sys, n: NodeId, key: string)
    requires MonitorOf(s', n) == MonitorOf(s, n)
    ensures BusyOn(s', n, key) <==> BusyOn(s, n, key)
  {
    hide GenerateGnbUeIDString;
  }

  lemma BusyBefore(ws: set<Recipient>, s: Sys, step: Step, key: string)
    requires Enabled(ws, s, step) && IsMonitorStep(step) && !step.Lookup? && BusyOn(Do(ws, s, step), step.n, key)
    ensures BusyOn(s, step.n, key)
  {
    hide GenerateGnbUeIDString, FanOut;
  }

  lemma ItsOwnStep(step: Step, n: NodeId)
    requires IsMonitorStep(step) && !step.Lookup? && ThreadOf(step) == Node(n)
    ensures step.n == n
  {
  }

  lemma NoRivalKept(ws: set<Recipient>, s: Sys, step: Step, key: string, target: string)
    requires Inv(ws, s) && NoRival(s, key, target) && Enabled(ws, s, step) && !step.Lookup?
    ensures NoRival(Do(ws, s, step), key, target)
  {
    hide Do, Enabled, Inv, BusyOn, Moved, MonitorStep, MonitorLeft;
    var s' := Do(ws, s, step);
    forall n: NodeId ensures !Rival(s', n, key, target) {
      if BusyOn(s', n, key) {
        MonitorStays(ws, s, step, n, key);
        assert !Rival(s, n, key, target);
        if MonitorOf(s', n) == MonitorOf(s, n) {
          ReadRef(ws, s, n);
          if MonitorOf(s, n).Read? {
            NamesKept(ws, s, step, MonitorOf(s, n).ref, MonitorOf(s, n).ind.tgtCellId);
          }
        } else {
          MonitorMoves(ws, s, n, key);
          NotRivalMoved(s, s', n, key, target);
        }
      }
    }
  }

  lemma HeldNamed(ws: set<Recipient>, s: Sys, step: Step, key: string, target: string)
    requires Inv(ws, s) && AllNamed(s, key, target) && Enabled(ws, s, step)
    ensures forall r :: Holds(Do(ws, s, step), r, key) ==> Names(Do(ws, s, step), RefHeld(Do(ws, s, step), r), target)
  {
    hide Do, Enabled, Inv, Holds, RefHeld, BusyOn, LastTarget;
    var s' := Do(ws, s, step);
    forall r | Holds(s', r, key) ensures Names(s', RefHeld(s', r), target) {
      HoldsStep(ws, s, step, r, key);
      NamesKept(ws, s, step, RefHeld(s', r), target);
    }
  }

  /** The put of a monitor that is no rival sets the target. */
  lemma PutSets(ws: set<Recipient>, s: Sys, n: NodeId, key: string, target: string)
    requires Inv(ws, s) && BusyOn(s, n, key) && !Rival(s, n, key, target) && Enabled(ws, s, MonitorPut(n))
    ensures var s' := Do(ws, s, MonitorPut(n));
            && HasTarget(s', key, target) && s'.records[key] == |s.heap| && |s'.heap| == |s.heap| + 1
            && s'.heap[|s.heap|].state == StateCreated && s'.handlers == s.handlers
  {
    OnlyMonitorStep(ws, s, MonitorPut(n), key);
    MonitorMoves(ws, s, n, key);
    hide Do, Enabled, Inv, GenerateGnbUeIDString;
  }

  lemma NamedStep(ws: set<Recipient>, s: Sys, step: Step, key: string, target: string)
    requires Inv(ws, s) && AllNamed(s, key, target) && Enabled(ws, s, step) && !step.Lookup?
    ensures AllNamed(Do(ws, s, step), key, target)
  {
    hide Do, Enabled, Inv, Holds, RefHeld, BusyOn, LastTarget, Rival;
    NoRivalKept(ws, s, step, key, target);
    HeldNamed(ws, s, step, key, target);
    LogKept(ws, s, step, key);
    if step.MonitorPut? && BusyOn(s, step.n, key) {
      PutSets(ws, s, step.n, key, target);
    } else {
      RecordStep(ws, s, step, key);
      NamesKept(ws, s, step, Do(ws, s, step).records[key], target);
    }
  }

  // ---------- the control attempts ----------

  predicate SendsFor(s: Sys, step: Step, key: string) {
    step.SendControl? && match PcOf(s, Node(step.n)) case Have(k, _) => k == key case _ => false
  }

  lemma ControlsStay(ws: set<Recipient>, s: Sys, step: Step, key: string)
    requires Inv(ws, s) && Enabled(ws, s, step) && !SendsFor(s, step, key)
    ensures Handover.ControlsOf(Do(ws, s, step).controls, key) == Handover.ControlsOf(s.controls, key)
  {
    hide GenerateGnbUeIDString, FanOut, EventsOk, ValuesOk;
    if step.SendControl? {
      var pc := PcOf(s, Node(step.n));
      assert PcOk(ws, s, Node(step.n), pc);
      Handover.ControlsSnoc(s.controls, ControlFor(s.heap[pc.ref]).(node := step.n), key);
    }
  }

  /** Every control attempt for the UE is now for its target. */
  lemma SendNames(ws: set<Recipient>, s: Sys, step: Step, key: string, target: string)
    requires Inv(ws, s) && Enabled(ws, s, step) && SendsFor(s, step, key)
    requires forall r :: Holds(s, r, key) ==> Names(s, RefHeld(s, r), target)
    ensures LastControlNames(Do(ws, s, step), key, target)
  {
    hide GenerateGnbUeIDString, FanOut, EventsOk, ValuesOk;
    var pc := PcOf(s, Node(step.n));
    assert PcOk(ws, s, Node(step.n), pc) && Holds(s, Node(step.n), key);
    Handover.ControlsSnoc(s.controls, ControlFor(s.heap[pc.ref]).(node := step.n), key);
  }

  lemma NotDoneKept(ws: set<Recipient>, s: Sys, step: Step, ref: Ref, key: string)
    requires Inv(ws, s) && Enabled(ws, s, step) && RefOk(s, key, ref) && s.heap[ref].state != Done
    requires forall n: NodeId :: !SentFor(s, n, key)
    ensures ref < |Do(ws, s, step).heap| && Do(ws, s, step).heap[ref].state != Done
  {
    StepExtends(ws, s, step);
    hide Do, Enabled, Inv, SentFor, GenerateGnbUeIDString;
    if Do(ws, s, step).heap[ref].state == Done {
      DoneMeansSent(ws, s, step, ref, key);
    }
  }

  lemma HeldIsOfKey(ws: set<Recipient>, s: Sys, r: Recipient, key: string)
    requires Inv(ws, s) && Holds(s, r, key)
    ensures RefOk(s, key, RefHeld(s, r))
  {
    NoStuckHandover.HeldIsOk(ws, s, r);
  }

  lemma NotSentKept(ws: set<Recipient>, s: Sys, step: Step, key: string)
    requires Enabled(ws, s, step) && !SendsFor(s, step, key)
    requires forall n: NodeId :: !SentFor(s, n, key)
    ensures forall n: NodeId :: !SentFor(Do(ws, s, step), n, key)
  {
    hide Do, SentFor;
    forall n: NodeId ensures !SentFor(Do(ws, s, step), n, key) {
      if SentFor(Do(ws, s, step), n, key) {
        SentForStep(ws, s, step, n, key);
      }
    }
  }

  lemma UnsentStep(ws: set<Recipient>, s: Sys, step: Step, key: string, target: string)
    requires Inv(ws, s) && AllNamed(s, key, target) && Unsent(s, key)
    requires Enabled(ws, s, step) && !step.Lookup? && !SendsFor(s, step, key)
    ensures Unsent(Do(ws, s, step), key)
  {
    NotSentKept(ws, s, step, key);
    hide Do, Enabled, Inv, Holds, RefHeld, BusyOn, LastTarget, Rival, SentFor, SendsFor, GenerateGnbUeIDString, RefOk;
    var s' := Do(ws, s, step);
    NoStuckHandover.RecordIsOk(ws, s, key);
    NotDoneKept(ws, s, step, s.records[key], key);
    forall r | Holds(s', r, key) ensures RefHeld(s', r) < |s'.heap| && s'.heap[RefHeld(s', r)].state != Done {
      HoldsStep(ws, s, step, r, key);
      if Holds(s, r, key) && RefHeld(s', r) == RefHeld(s, r) {
        HeldIsOfKey(ws, s, r, key);
        NotDoneKept(ws, s, step, RefHeld(s, r), key);
      }
    }
    if step.MonitorPut? && BusyOn(s, step.n, key) {
      PutSets(ws, s, step.n, key, target);
    } else {
      RecordStep(ws, s, step, key);
      if s'.records[key] != s.records[key] {
        HeldIsOfKey(ws, s, step.r, key);
        NotDoneKept(ws, s, step, RefHeld(s, step.r), key);
      }
    }
  }

  lemma OneTargetStep(ws: set<Recipient>, s: Sys, step: Step, key: string, target: string)
    requires Inv(ws, s) && OneTarget(s, key, target) && Enabled(ws, s, step) && !step.Lookup?
    ensures OneTarget(Do(ws, s, step), key, target)
  {
    NamedStep(ws, s, step, key, target);
    assert forall r :: Holds(s, r, key) ==> Names(s, RefHeld(s, r), target);
    hide Do, Enabled, Inv, AllNamed, Unsent, SendsFor, Holds, RefHeld;
    if SendsFor(s, step, key) {
      SendNames(ws, s, step, key, target);
    } else {
      ControlsStay(ws, s, step, key);
      if !LastControlNames(s, key, target) {
        UnsentStep(ws, s, step, key, target);
      }
    }
  }

  // ---------- until the target is set ----------

  /** A monitor that will set the target. */
  predicate Setting(s: Sys, n: NodeId, key: string, target: string) {
    BusyOn(s, n, key) && Targets(s, n, target) && !WontPut(s, n)
  }

  /** Some monitor will set the target, no monitor any other, and no handler is in the way. */
  ghost predicate Poised(s: Sys, key: string, target: string) {
    && LastTarget(s, key) == Some(target) && !HasTarget(s, key, target)
    && NoRival(s, key, target) && !Contended(s, key)
    && exists n: NodeId :: Setting(s, n, key, target)
  }

  /** A handler holds the entry after a step only if it held it or read it on an acting event. */
  lemma HoldsFrom(ws: set<Recipient>, s: Sys, step: Step, r: Recipient, key: string)
    requires Inv(ws, s) && Enabled(ws, s, step) && Holds(Do(ws, s, step), r, key)
    ensures Holds(s, r, key) || Took(s, key, r)
  {
    hide GenerateGnbUeIDString, FanOut;
  }

  lemma GotFrom(ws: set<Recipient>, s: Sys, step: Step, r: Recipient)
    requires Enabled(ws, s, step) && PcOf(Do(ws, s, step), r).Got?
    ensures PcOf(Do(ws, s, step), r) == PcOf(s, r)
            || (step.Receive? && step.d.to == r && step.d in s.inFlight && PcOf(Do(ws, s, step), r).e == step.d.event)
  {
    hide GenerateGnbUeIDString, FanOut;
  }

  lemma FlightFrom(ws: set<Recipient>, s: Sys, step: Step, d: Delivery, key: string)
    requires Inv(ws, s) && Enabled(ws, s, step) && NoHolder(s, key) && d in Do(ws, s, step).inFlight && d.event.key == key
    requires step.MonitorPut? ==> !BusyOn(s, step.n, key)
    ensures d in s.inFlight
  {
    PutIsForeign(ws, s, step, key);
    FlightGrows(ws, s, step, d);
    hide Do, Enabled, Inv, BusyOn, Holds, PutKey;
  }

  /** The key of the entry that a step puts. */
  function PutKey(s: Sys, step: Step): Option<string> {
    match step
    case PutEntry(r) => (match PcOf(s, r) case Written(k, _) => Some(k) case _ => None)
    case MonitorPut(n) =>
      (match MonitorOf(s, n)
       case PutNew(ind) => if ind.rawUeId.GnbUeId? then Some(KeyOfInd(ind)) else None
       case PutOld(k, _) => Some(k)
       case _ => None)
    case _ => None
  }

  lemma PutIsForeign(ws: set<Recipient>, s: Sys, step: Step, key: string)
    requires Enabled(ws, s, step) && NoHolder(s, key) && (step.MonitorPut? ==> !BusyOn(s, step.n, key))
    ensures PutKey(s, step) != Some(key)
  {
    hide GenerateGnbUeIDString;
    if step.PutEntry? {
      assert !Holds(s, step.r, key);
    }
  }

  lemma FlightGrows(ws: set<Recipient>, s: Sys, step: Step, d: Delivery)
    requires Enabled(ws, s, step) && d in Do(ws, s, step).inFlight
    ensures d in s.inFlight || PutKey(s, step) == Some(d.event.key)
  {
    hide GenerateGnbUeIDString, FanOut;
  }

  /** An event acts on the entry as before, as long as the entry is the same value. */
  lemma ActingFrom(s: Sys, s': Sys, key: string, r: Recipient, e: Event)
    requires Extends(s, s') && (key in s'.records <==> key in s.records)
    requires key in s.records ==> s.records[key] < |s.heap| && s'.records[key] == s.records[key]
    ensures Acting(s', key, r, e) <==> Acting(s, key, r, e)
  {
  }

  lemma UncontendedStep(ws: set<Recipient>, s: Sys, step: Step, key: string)
    requires Inv(ws, s) && !Contended(s, key) && Enabled(ws, s, step)
    requires step.MonitorPut? ==> !BusyOn(s, step.n, key)
    ensures !Contended(Do(ws, s, step), key)
  {
    SameEvents(ws, s, step, key);
    hide Do, Enabled, Inv, Holds, BusyOn, Acting, Took;
    var s' := Do(ws, s, step);
    forall r ensures !Holds(s', r, key) {
      if Holds(s', r, key) {
        HoldsFrom(ws, s, step, r, key);
      }
    }
    forall r ensures !Took(s', key, r) {
      if Took(s', key, r) {
        TookFrom(ws, s, step, r, key);
      }
    }
    forall d | d in s'.inFlight ensures !Acting(s', key, d.to, d.event) {
      if Acting(s', key, d.to, d.event) {
        ActingKey(s', key, d.to, d.event);
        FlightFrom(ws, s, step, d, key);
      }
    }
  }

  lemma SameEvents(ws: set<Recipient>, s: Sys, step: Step, key: string)
    requires Inv(ws, s) && NoHolder(s, key) && Enabled(ws, s, step)
    requires step.MonitorPut? ==> !BusyOn(s, step.n, key)
    ensures forall r, e :: Acting(Do(ws, s, step), key, r, e) <==> Acting(s, key, r, e)
  {
    assert Coherent(s, key);
    RecordKept(ws, s, step, key);
    StepExtends(ws, s, step);
    RecordRefs(ws, s);
    hide Do, Enabled, Inv, Holds, BusyOn, Acting, GenerateGnbUeIDString, Extends;
    forall r, e ensures Acting(Do(ws, s, step), key, r, e) <==> Acting(s, key, r, e) {
      ActingFrom(s, Do(ws, s, step), key, r, e);
    }
  }

  /** An acting event in hand was in hand before or has just been received. */
  lemma TookFrom(ws: set<Recipient>, s: Sys, step: Step, r: Recipient, key: string)
    requires Enabled(ws, s, step) && Took(Do(ws, s, step), key, r)
    requires forall q, e :: Acting(Do(ws, s, step), key, q, e) <==> Acting(s, key, q, e)
    ensures Took(s, key, r) || exists d :: d in s.inFlight && Acting(s, key, d.to, d.event)
  {
    GotFrom(ws, s, step, r);
    hide Do, Enabled, Acting;
  }

  lemma ActingKey(s: Sys, key: string, r: Recipient, e: Event)
    requires Acting(s, key, r, e)
    ensures e.key == key
  {
  }

  lemma SettingMoved(s: Sys, s': Sys, n: NodeId, key: string, target: string)
    requires Setting(s, n, key, target) && MovesOnly(s, s', n, key) && !HasTarget(s, key, target)
    requires key in s.records ==> s.records[key] < |s.heap|
    requires !MonitorStep(s, n).MonitorPut?
    ensures Setting(s', n, key, target)
  {
    hide GenerateGnbUeIDString;
  }

  lemma SettingStep(ws: set<Recipient>, s: Sys, step: Step, n: NodeId, key: string, target: string)
    requires Inv(ws, s) && Setting(s, n, key, target) && !HasTarget(s, key, target)
    requires Enabled(ws, s, step) && !step.Lookup? && (step.MonitorPut? ==> !BusyOn(s, step.n, key))
    ensures Setting(Do(ws, s, step), n, key, target)
  {
    assert BusyOn(s, n, key);
    hide Do, Enabled, Inv, Moved, MonitorLeft, GenerateGnbUeIDString;
    var s' := Do(ws, s, step);
    if MonitorOf(s', n) == MonitorOf(s, n) {
      ReadRef(ws, s, n);
      if MonitorOf(s, n).Read? {
        NamesKept(ws, s, step, MonitorOf(s, n).ref, MonitorOf(s, n).ind.tgtCellId);
      }
    } else {
      OnlyThreadMonitorMoves(ws, s, step, n);
      ItsOwnStep(step, n);
      OnlyMonitorStep(ws, s, step, key);
      MonitorMoves(ws, s, n, key);
      RecordRefs(ws, s);
      SettingMoved(s, s', n, key, target);
    }
  }

  /** The put that sets the target, with no handler in the way. */
  lemma PoisedPut(ws: set<Recipient>, s: Sys, n: NodeId, key: string, target: string)
    requires Inv(ws, s) && Poised(s, key, target) && Enabled(ws, s, MonitorPut(n)) && BusyOn(s, n, key)
    ensures OneTarget(Do(ws, s, MonitorPut(n)), key, target)
  {
    hide Do, Enabled, Inv, BusyOn, LastTarget, Rival, LastControlNames, Acting, Took;
    var s' := Do(ws, s, MonitorPut(n));
    NoRivalKept(ws, s, MonitorPut(n), key, target);
    LogKept(ws, s, MonitorPut(n), key);
    PutSets(ws, s, n, key, target);
    assert NoHolder(s, key);
    forall r ensures !Holds(s', r, key) {
      assert !Holds(s, r, key);
    }
    forall m: NodeId ensures !SentFor(s', m, key) {
      assert !Holds(s', Node(m), key);
    }
  }

  lemma PoisedStep(ws: set<Recipient>, s: Sys, step: Step, key: string, target: string)
    requires Inv(ws, s) && Poised(s, key, target) && Enabled(ws, s, step) && !step.Lookup?
    ensures Poised(Do(ws, s, step), key, target) || OneTarget(Do(ws, s, step), key, target)
  {
    hide Do, Enabled, Inv, BusyOn, LastTarget, HasTarget, NoRival, OneTarget, Setting, Holds;
    if step.MonitorPut? && BusyOn(s, step.n, key) {
      PoisedPut(ws, s, step.n, key, target);
    } else {
      var n: NodeId :| Setting(s, n, key, target);
      NoRivalKept(ws, s, step, key, target);
      LogKept(ws, s, step, key);
      assert Coherent(s, key);
      TargetKept(ws, s, step, key, target);
      UncontendedStep(ws, s, step, key);
      SettingStep(ws, s, step, n, key, target);
    }
  }

  // ---------- every way to rest ----------

  ghost predicate OnCourse(s: Sys, key: string, target: string) {
    Poised(s, key, target) || OneTarget(s, key, target)
  }

  lemma {:induction false} StaysOnCourse(ws: set<Recipient>, s: Sys, steps: seq<Step>, key: string, target: string)
    requires Inv(ws, s) && NoStuckHandover.Moves(s) && OnCourse(s, key, target)
    requires Legal(ws, s, steps) && Quiescence.Internal(steps)
    ensures var t := Run(ws, s, steps); Inv(ws, t) && NoStuckHandover.Moves(t) && OnCourse(t, key, target)
    decreases |steps|
  {
    hide Do, Enabled, Inv, Poised, OneTarget, NoStuckHandover.Moves;
    if steps != [] {
      StepKeepsInv(ws, s, steps[0]);
      NoStuckHandover.StepKeepsMoves(ws, s, steps[0]);
      if Poised(s, key, target) {
        PoisedStep(ws, s, steps[0], key, target);
      } else {
        OneTargetStep(ws, s, steps[0], key, target);
      }
      StaysOnCourse(ws, Do(ws, s, steps[0]), steps[1..], key, target);
    }
  }

  lemma RestOnTarget(ws: set<Recipient>, s: Sys, key: string, target: string)
    requires Inv(ws, s) && NoStuckHandover.EntryMoves(s, key) && OnCourse(s, key, target) && Quiescent(s)
    ensures OnTarget(s, key)
  {
    hide NoStuckHandover.EntryMoves, LastTarget, Inv, Contended, NoRival, LastControlNames;
    forall n: NodeId ensures !BusyOn(s, n, key) {
      assert MonitorOf(s, n) == Waits;
    }
    assert !Poised(s, key, target) by {
      hide BusyOn;
    }
    NoStuckHandover.QuietEntryIsDone(ws, s, key);
  }

  lemma CourseIsMet(ws: set<Recipient>, s: Sys, key: string, target: string)
    requires Inv(ws, s) && NoStuckHandover.Moves(s) && OnCourse(s, key, target)
    ensures AlwaysOnTarget(ws, s, key)
  {
    hide Legal, Run, Inv, NoStuckHandover.Moves, OnCourse, Quiescent, OnTarget;
    forall steps | Legal(ws, s, steps) && Quiescence.Internal(steps) && Quiescent(Run(ws, s, steps))
      ensures OnTarget(Run(ws, s, steps), key)
    {
      StaysOnCourse(ws, s, steps, key, target);
      MovesEntry(Run(ws, s, steps), key);
      RestOnTarget(ws, Run(ws, s, steps), key, target);
    }
  }
}
