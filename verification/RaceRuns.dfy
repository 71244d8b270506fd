/** Runs in which interleaved store calls lose the target of a UE's last indication, one for
    each way that this can happen. */
module RaceRuns {
  import opened Wrappers
  import opened UeKey
  import opened HandoverTypes
  import opened Interleaving
  import opened PutRace
  import NoStuckHandover
  import Quiescence
  import Handover

  // ---------- coming to rest ----------

  /** With no monitor busy with the UE and every holder holding the entry itself, the entry keeps
      its target on the way to rest, and its own control attempt is the UE's last. */
  ghost predicate Settling(ws: set<Recipient>, s: Sys, key: string, target: string) {
    && Inv(ws, s) && NoStuckHandover.Moves(s) && NoMonitor(s, key)
    && Coherent(s, key) && ControlsMatch(s, key) && HasTarget(s, key, target)
  }

  lemma SettlingStep(ws: set<Recipient>, s: Sys, step: Step, key: string, target: string)
    requires Settling(ws, s, key, target) && Enabled(ws, s, step) && !step.Lookup?
    ensures Settling(ws, Do(ws, s, step), key, target) && Do(ws, s, step).log == s.log
  {
    assert step.MonitorPut? ==> !BusyOn(s, step.n, key);
    hide Enabled, Inv, NoStuckHandover.Moves, NoMonitor, Coherent, ControlsMatch, HasTarget, FanOut, GenerateGnbUeIDString;
    assert Do(ws, s, step).log == s.log;
    hide Do;
    StepKeepsInv(ws, s, step);
    NoStuckHandover.StepKeepsMoves(ws, s, step);
    NoMonitorKept(ws, s, step, key);
    CoherentKept(ws, s, step, key);
    ControlsKept(ws, s, step, key);
    TargetKept(ws, s, step, key, target);
  }

  lemma {:induction false} SettlingRun(ws: set<Recipient>, s: Sys, steps: seq<Step>, key: string, target: string)
    requires Settling(ws, s, key, target) && Legal(ws, s, steps) && Quiescence.Internal(steps)
    ensures Settling(ws, Run(ws, s, steps), key, target) && Run(ws, s, steps).log == s.log
    decreases |steps|
  {
    hide Do, Enabled, Settling;
    if steps != [] {
      SettlingStep(ws, s, steps[0], key, target);
      SettlingRun(ws, Do(ws, s, steps[0]), steps[1..], key, target);
    }
  }

  /** The system is at rest, the UE was last indicated for `wanted`, but its done entry and its
      last control attempt name `got`. */
  ghost predicate LostTo(s: Sys, key: string, wanted: string, got: string) {
    && Quiescent(s) && LastTarget(s, key) == Some(wanted)
    && HasTarget(s, key, got) && s.heap[s.records[key]].state == Done
    && LastControlIs(s, key, ControlFor(s.heap[s.records[key]])) && LastControlNames(s, key, got)
  }

  lemma SettlesLost(ws: set<Recipient>, s: Sys, key: string, wanted: string, got: string) returns (steps: seq<Step>)
    requires Settling(ws, s, key, got) && LastTarget(s, key) == Some(wanted)
    ensures Legal(ws, s, steps) && Run(ws, s, steps).log == s.log && LostTo(Run(ws, s, steps), key, wanted, got)
  {
    hide Inv, NoStuckHandover.Moves, BusyOn, Coherent, Legal, Run;
    steps := Quiescence.ComesToRest(ws, s);
    SettlingRun(ws, s, steps, key, got);
    var t := Run(ws, s, steps);
    MovesEntry(t, key);
    hide NoStuckHandover.EntryMoves, Quiescent;
    NoStuckHandover.QuietEntryIsDone(ws, t, key);
  }

  // ---------- a put overtakes a handler ----------

  /** The first indication of a UE, up to the controller having read the new entry. */
  lemma ControllerReads(ws: set<Recipient>, n: NodeId, u: UeidGnb, a: string) returns (steps: seq<Step>, s: Sys)
    requires Controller in ws && Node(n) in ws
    ensures Legal(ws, Start, steps) && s == Run(ws, Start, steps)
    ensures var key, v := GenerateGnbUeIDString(u), FreshValue(Indication(n, GnbUeId(u), a, []));
            && s.heap == [v] && s.records == map[key := 0] && s.log == [Indication(n, GnbUeId(u), a, [])]
            && s.handlers == map[Controller := Have(key, 0)] && s.monitors == map[n := Waits]
  {
    hide GenerateGnbUeIDString, FanOut;
    var key := GenerateGnbUeIDString(u);
    var ind := Indication(n, GnbUeId(u), a, []);
    var e := Event(key, Created, StateCreated);
    var s1 := Do(ws, Start, Lookup(ind));
    var s2 := Do(ws, s1, MonitorPut(n));
    assert s2.inFlight[Delivery(e, Controller)] == 1;
    var s3 := Do(ws, s2, Receive(Delivery(e, Controller)));
    s := Do(ws, s3, GetEntry(Controller));
    Prepend(ws, s3, GetEntry(Controller), []);
    Prepend(ws, s2, Receive(Delivery(e, Controller)), [GetEntry(Controller)]);
    Prepend(ws, s1, MonitorPut(n), [Receive(Delivery(e, Controller))] + [GetEntry(Controller)]);
    steps := [Lookup(ind)] + ([MonitorPut(n)] + ([Receive(Delivery(e, Controller))] + [GetEntry(Controller)]));
    Prepend(ws, Start, Lookup(ind), [MonitorPut(n)] + ([Receive(Delivery(e, Controller))] + [GetEntry(Controller)]));
    assert [GetEntry(Controller)] + [] == [GetEntry(Controller)];
  }

  /** The second indication, for another target, up to the decision to replace the entry. */
  lemma MonitorDecides(ws: set<Recipient>, n: NodeId, ind: Indication, s: Sys) returns (steps: seq<Step>, t: Sys)
    requires Node(n) in ws && ind.node == n && ind.rawUeId.GnbUeId? && |s.heap| == 1
    requires s.heap[0].tgtCellId != ind.tgtCellId && s.records == map[KeyOfInd(ind) := 0] && s.monitors == map[n := Waits]
    ensures Legal(ws, s, steps) && t == Run(ws, s, steps)
    ensures t == s.(log := s.log + [ind], monitors := t.monitors)
    ensures MonitorOf(t, n) == PutNew(ind) && forall m: NodeId :: m != n ==> MonitorOf(t, m) == Waits
  {
    hide GenerateGnbUeIDString, FanOut;
    var s1 := Do(ws, s, Lookup(ind));
    var s2 := Do(ws, s1, MonitorGet(n));
    t := Do(ws, s2, MonitorCompare(n));
    Prepend(ws, s2, MonitorCompare(n), []);
    Prepend(ws, s1, MonitorGet(n), [MonitorCompare(n)] + []);
    steps := [Lookup(ind)] + ([MonitorGet(n)] + ([MonitorCompare(n)] + []));
    Prepend(ws, s, Lookup(ind), [MonitorGet(n)] + ([MonitorCompare(n)] + []));
  }

  /** Its put overtakes the controller, which then puts the old value back. */
  lemma MonitorOvertakes(ws: set<Recipient>, n: NodeId, ind: Indication, key: string, t: Sys)
      returns (steps: seq<Step>, v: Sys)
    requires Controller in ws && ind.node == n && RendersTo(ind.rawUeId, key) && |t.heap| == 1 && t.records == map[key := 0]
    requires t.handlers == map[Controller := Have(key, 0)]
    requires MonitorOf(t, n) == PutNew(ind) && forall m: NodeId :: m != n ==> MonitorOf(t, m) == Waits
    ensures Legal(ws, t, steps) && v == Run(ws, t, steps) && v.log == t.log
    ensures NoMonitor(v, key) && Coherent(v, key) && ControlsMatch(v, key) && HasTarget(v, key, t.heap[0].tgtCellId)
  {
    hide GenerateGnbUeIDString, FanOut;
    var u := Do(ws, t, MonitorPut(n));
    var w := Do(ws, u, WriteState(Controller));
    v := Do(ws, w, PutEntry(Controller));
    Prepend(ws, w, PutEntry(Controller), []);
    Prepend(ws, u, WriteState(Controller), [PutEntry(Controller)] + []);
    steps := [MonitorPut(n)] + ([WriteState(Controller)] + ([PutEntry(Controller)] + []));
    Prepend(ws, t, MonitorPut(n), [WriteState(Controller)] + ([PutEntry(Controller)] + []));
    assert forall r :: PcOf(v, r) == Idle;
    forall m: NodeId ensures MonitorOf(v, m) == Waits {
      assert m != n ==> MonitorOf(t, m) == Waits;
    }
  }

  /** Two indications of one UE for different targets at one node are enough, with any watchers:
      the controller reads the entry, the monitor replaces it, and the controller puts it back.
      The system comes to rest with the first target. */
  lemma AgreementCanFail(ws: set<Recipient>, n: NodeId, u: UeidGnb, a: string, b: string) returns (steps: seq<Step>)
    requires Controller in ws && Node(n) in ws && a != b
    ensures Legal(ws, Start, steps)
    ensures var s := Run(ws, Start, steps);
            && s.log == [Indication(n, GnbUeId(u), a, []), Indication(n, GnbUeId(u), b, [])]
            && LostTo(s, GenerateGnbUeIDString(u), b, a) && !OnTarget(s, GenerateGnbUeIDString(u))
  {
    var key := GenerateGnbUeIDString(u);
    hide Do, Enabled, Inv, Legal, Run, OnTarget, Quiescent, GenerateGnbUeIDString, NoStuckHandover.Moves, Coherent,
         ControlsMatch, NoMonitor;
    var first, s := ControllerReads(ws, n, u, a);
    var ind := Indication(n, GnbUeId(u), b, []);
    var second, t := MonitorDecides(ws, n, ind, s);
    var third, v := MonitorOvertakes(ws, n, ind, key, t);
    RunConcat(ws, s, second, third);
    RunConcat(ws, Start, first, second + third);
    steps := LoseFrom(ws, first + (second + third), v, key, b, a);
  }

  /** After a run that has left the entry with the wrong target, let the system come to rest. */
  lemma LoseFrom(ws: set<Recipient>, before: seq<Step>, v: Sys, key: string, wanted: string, got: string)
      returns (steps: seq<Step>)
    requires Controller in ws && Legal(ws, Start, before) && v == Run(ws, Start, before) && wanted != got
    requires NoMonitor(v, key) && Coherent(v, key) && ControlsMatch(v, key) && HasTarget(v, key, got)
    requires LastTarget(v, key) == Some(wanted)
    ensures Legal(ws, Start, steps) && Run(ws, Start, steps).log == v.log
    ensures LostTo(Run(ws, Start, steps), key, wanted, got) && !OnTarget(Run(ws, Start, steps), key)
  {
    StartInv(ws);
    StartSerial(key);
    hide Do, Enabled, Inv, Legal, Run, NoStuckHandover.Moves, NoMonitor, Coherent, ControlsMatch, Quiescent;
    RunKeepsInv(ws, Start, before);
    NoStuckHandover.RunKeepsMoves(ws, Start, before);
    var rest := SettlesLost(ws, v, key, wanted, got);
    RunConcat(ws, Start, before, rest);
    steps := before + rest;
  }

  // ---------- two monitors put in the opposite order ----------

  lemma OpposedPuts(ws: set<Recipient>, n: NodeId, m: NodeId, u: UeidGnb, a: string, b: string)
      returns (steps: seq<Step>, v: Sys)
    requires Node(n) in ws && Node(m) in ws && n != m
    ensures Legal(ws, Start, steps) && v == Run(ws, Start, steps)
    ensures var key := GenerateGnbUeIDString(u);
            && v.log == [Indication(n, GnbUeId(u), a, []), Indication(m, GnbUeId(u), b, [])]
            && NoMonitor(v, key) && Coherent(v, key) && ControlsMatch(v, key) && HasTarget(v, key, a)
  {
    hide GenerateGnbUeIDString, FanOut;
    var ia, ib := Indication(n, GnbUeId(u), a, []), Indication(m, GnbUeId(u), b, []);
    var s1 := Do(ws, Start, Lookup(ia));
    var s2 := Do(ws, s1, Lookup(ib));
    var s3 := Do(ws, s2, MonitorPut(m));
    v := Do(ws, s3, MonitorPut(n));
    Prepend(ws, s3, MonitorPut(n), []);
    Prepend(ws, s2, MonitorPut(m), [MonitorPut(n)] + []);
    Prepend(ws, s1, Lookup(ib), [MonitorPut(m)] + ([MonitorPut(n)] + []));
    steps := [Lookup(ia)] + ([Lookup(ib)] + ([MonitorPut(m)] + ([MonitorPut(n)] + [])));
    Prepend(ws, Start, Lookup(ia), [Lookup(ib)] + ([MonitorPut(m)] + ([MonitorPut(n)] + [])));
    assert forall r :: PcOf(v, r) == Idle;
    assert forall q: NodeId :: MonitorOf(v, q) == Waits;
  }

  /** Nor is a handler needed: two nodes indicate one new UE for different targets, both monitors
      find no entry, and they put in the opposite order. */
  lemma OpposedPutsCanFail(ws: set<Recipient>, n: NodeId, m: NodeId, u: UeidGnb, a: string, b: string)
      returns (steps: seq<Step>)
    requires Controller in ws && Node(n) in ws && Node(m) in ws && n != m && a != b
    ensures Legal(ws, Start, steps)
    ensures var s := Run(ws, Start, steps);
            && s.log == [Indication(n, GnbUeId(u), a, []), Indication(m, GnbUeId(u), b, [])]
            && LostTo(s, GenerateGnbUeIDString(u), b, a) && !OnTarget(s, GenerateGnbUeIDString(u))
  {
    hide Do, Enabled, Inv, Legal, Run, OnTarget, Quiescent, GenerateGnbUeIDString, Coherent, ControlsMatch, NoMonitor;
    var before, v := OpposedPuts(ws, n, m, u, a, b);
    steps := LoseFrom(ws, before, v, GenerateGnbUeIDString(u), b, a);
  }
}
