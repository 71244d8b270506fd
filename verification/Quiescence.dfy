/** The protocol always comes to rest: a weighted count of the pending work bounds the event
    deliveries, and every step but a new indication uses some of it up. */
module Quiescence {
  import opened UeKey
  import opened HandoverTypes
  import opened Interleaving

  // ---------- sums over finite collections ----------

  ghost function Sum(rs: set<Recipient>, f: Recipient -> nat): nat {
    if rs == {} then 0 else var r :| r in rs; f(r) + Sum(rs - {r}, f)
  }

  lemma {:induction false} SumTake(rs: set<Recipient>, f: Recipient -> nat, r: Recipient)
    requires r in rs
    ensures Sum(rs, f) == f(r) + Sum(rs - {r}, f)
    decreases rs
  {
    var q :| q in rs && Sum(rs, f) == f(q) + Sum(rs - {q}, f);
    if q != r {
      SumTake(rs - {q}, f, r);
      SumTake(rs - {r}, f, q);
      assert rs - {q} - {r} == rs - {r} - {q};
    }
  }

  lemma {:induction false} SumSame(rs: set<Recipient>, f: Recipient -> nat, g: Recipient -> nat)
    requires forall r :: r in rs ==> f(r) == g(r)
    ensures Sum(rs, f) == Sum(rs, g)
    decreases rs
  {
    if rs != {} {
      var r :| r in rs;
      SumTake(rs, f, r);
      SumTake(rs, g, r);
      SumSame(rs - {r}, f, g);
    }
  }

  /** Changing one summand changes the sum by as much. */
  lemma SumChange(rs: set<Recipient>, f: Recipient -> nat, g: Recipient -> nat, r: Recipient)
    requires r in rs && forall q :: q != r ==> f(q) == g(q)
    ensures Sum(rs, g) + f(r) == Sum(rs, f) + g(r)
  {
    SumTake(rs, f, r);
    SumTake(rs, g, r);
    SumSame(rs - {r}, f, g);
  }

  // ---------- the weight of pending work ----------

  /** The deliveries that one delivery can still lead to, itself included, when there are
      `w` watchers: a request is one, the `w` of an approval, and the `w` of each of the
      `w - 1` controls; an approval at a sender is one and the `w` of its done event. */
  function Weight(w: nat, d: Delivery): (n: nat)
    ensures n >= 1
  {
    match d.to
    case Controller => if d.event.state == StateCreated || d.event.state == Denied then w * w + 1 else 1
    case Node(_) => if d.event.state == Approved then w + 1 else 1
  }

  /** What a handler under way has still to put, and a monitor under way. */
  function Debt(w: nat, s: Sys, r: Recipient): nat {
    (match PcOf(s, r)
     case Got(e) => Weight(w, Delivery(e, r)) - 1
     case Have(_, _) => if r.Controller? then w * w else w
     case Sent(_, _) => if r.Controller? then w * w else w
     case Written(_, _) => if r.Controller? then w * w else w
     case _ => 0)
    + (if r.Node? && MonitorOf(s, r.id) != Waits then w * (w + 1) else 0)
  }

  function Debts(w: nat, s: Sys): Recipient -> nat {
    r => Debt(w, s, r)
  }

  ghost function Total(w: nat, m: multiset<Delivery>): nat
    decreases |m|
  {
    if m == multiset{} then 0 else var d :| d in m; Weight(w, d) + Total(w, m - multiset{d})
  }

  ghost function Potential(ws: set<Recipient>, s: Sys): nat {
    Total(|ws|, s.inFlight) + Sum(ws, Debts(|ws|, s))
  }

  lemma {:induction false} TotalTake(w: nat, m: multiset<Delivery>, d: Delivery)
    requires d in m
    ensures Total(w, m) == Weight(w, d) + Total(w, m - multiset{d})
    decreases |m|
  {
    var q :| q in m && Total(w, m) == Weight(w, q) + Total(w, m - multiset{q});
    if q != d {
      TotalTake(w, m - multiset{q}, d);
      TotalTake(w, m - multiset{d}, q);
      assert m - multiset{q} - multiset{d} == m - multiset{d} - multiset{q};
    }
  }

  lemma {:induction false} TotalAdd(w: nat, a: multiset<Delivery>, b: multiset<Delivery>)
    ensures Total(w, a + b) == Total(w, a) + Total(w, b)
    decreases |b|
  {
    if b == multiset{} {
      assert a + b == a;
    } else {
      var d :| d in b;
      TotalTake(w, b, d);
      TotalTake(w, a + b, d);
      TotalAdd(w, a, b - multiset{d});
      assert a + b - multiset{d} == a + (b - multiset{d});
    }
  }

  function NodeWeight(w: nat, e: Event): nat {
    if e.state == Approved then w + 1 else 1
  }

  lemma FanOutTake(rs: set<Recipient>, e: Event, r: Recipient)
    requires r in rs
    ensures Delivery(e, r) in FanOut(rs, e)
    ensures FanOut(rs, e) - multiset{Delivery(e, r)} == FanOut(rs - {r}, e)
  {
  }

  lemma {:induction false} TotalFanOutNodes(w: nat, rs: set<Recipient>, e: Event)
    requires Controller !in rs
    ensures Total(w, FanOut(rs, e)) == |rs| * NodeWeight(w, e)
    decreases rs
  {
    if rs == {} {
      assert FanOut(rs, e) == multiset{};
    } else {
      var r :| r in rs;
      TotalFanOutNodes(w, rs - {r}, e);
      FanOutTake(rs, e, r);
      hide FanOut;
      TotalTake(w, FanOut(rs, e), Delivery(e, r));
      assert |rs| * NodeWeight(w, e) == (|rs| - 1) * NodeWeight(w, e) + NodeWeight(w, e);
    }
  }

  /** What one put is worth. */
  lemma TotalFanOut(ws: set<Recipient>, e: Event)
    requires Controller in ws
    ensures Total(|ws|, FanOut(ws, e)) ==
            Weight(|ws|, Delivery(e, Controller)) + (|ws| - 1) * NodeWeight(|ws|, e)
  {
    var nodes := ws - {Controller};
    hide FanOut;
    FanOutTake(ws, e, Controller);
    TotalFanOutNodes(|ws|, nodes, e);
    TotalTake(|ws|, FanOut(ws, e), Delivery(e, Controller));
  }

  lemma PutWorth(ws: set<Recipient>, e: Event)
    requires Controller in ws
    ensures e.state == StateCreated || e.state == Denied ==> Total(|ws|, FanOut(ws, e)) == |ws| * (|ws| + 1)
    ensures e.state == Approved ==> Total(|ws|, FanOut(ws, e)) == |ws| * |ws|
    ensures e.state == Done ==> Total(|ws|, FanOut(ws, e)) == |ws|
  {
    TotalFanOut(ws, e);
    var w := |ws|;
    assert (w - 1) * (w + 1) + 1 == w * w;
  }

  // ---------- each step's effect on the potential ----------

  /** A step of one thread: no other thread's debt changes. */
  ghost predicate OnlyThread(ws: set<Recipient>, s: Sys, s': Sys, r: Recipient) {
    forall q :: q != r ==> Debt(|ws|, s', q) == Debt(|ws|, s, q)
  }

  lemma ThreadDebt(ws: set<Recipient>, s: Sys, s': Sys, r: Recipient)
    requires r in ws && OnlyThread(ws, s, s', r)
    ensures Sum(ws, Debts(|ws|, s')) + Debt(|ws|, s, r) == Sum(ws, Debts(|ws|, s)) + Debt(|ws|, s', r)
  {
    SumChange(ws, Debts(|ws|, s), Debts(|ws|, s'), r);
  }

  lemma ReceivePotential(ws: set<Recipient>, s: Sys, d: Delivery)
    requires Inv(ws, s) && Enabled(ws, s, Receive(d))
    ensures Potential(ws, Do(ws, s, Receive(d))) == Potential(ws, s) - 1
  {
    hide GenerateGnbUeIDString, FanOut, Total, Sum, OnlyThread, Debt;
    StepThread(ws, s, Receive(d));
    ReceiveDebt(ws, s, d);
    ThreadDebt(ws, s, Do(ws, s, Receive(d)), d.to);
    TotalTake(|ws|, s.inFlight, d);
    hide Inv;
  }

  lemma ReceiveDebt(ws: set<Recipient>, s: Sys, d: Delivery)
    requires Enabled(ws, s, Receive(d))
    ensures Debt(|ws|, Do(ws, s, Receive(d)), d.to) == Debt(|ws|, s, d.to) + Weight(|ws|, d) - 1
  {
    hide GenerateGnbUeIDString, FanOut;
  }

  /** A thread that puts nothing never gains debt. */
  lemma WorkPotential(ws: set<Recipient>, s: Sys, s': Sys, r: Recipient)
    requires r in ws && OnlyThread(ws, s, s', r) && s'.inFlight == s.inFlight
    requires Debt(|ws|, s', r) <= Debt(|ws|, s, r)
    ensures Potential(ws, s') <= Potential(ws, s)
  {
    ThreadDebt(ws, s, s', r);
  }

  /** A put turns the thread's debt into deliveries of the same weight. */
  lemma PutPotential(ws: set<Recipient>, s: Sys, s': Sys, r: Recipient, e: Event)
    requires r in ws && OnlyThread(ws, s, s', r) && s'.inFlight == s.inFlight + FanOut(ws, e)
    requires Debt(|ws|, s, r) == Debt(|ws|, s', r) + Total(|ws|, FanOut(ws, e))
    ensures Potential(ws, s') == Potential(ws, s)
  {
    ThreadDebt(ws, s, s', r);
    TotalAdd(|ws|, s.inFlight, FanOut(ws, e));
  }

  lemma StepThread(ws: set<Recipient>, s: Sys, step: Step)
    requires Inv(ws, s) && Enabled(ws, s, step)
    ensures ThreadOf(step) in ws && OnlyThread(ws, s, Do(ws, s, step), ThreadOf(step))
  {
    ThreadWatches(ws, s, step);
    hide Do, Enabled, Inv, Weight;
    var s' := Do(ws, s, step);
    forall q | q != ThreadOf(step) ensures Debt(|ws|, s', q) == Debt(|ws|, s, q) {
      if PcOf(s', q) != PcOf(s, q) {
        OnlyThreadMoves(ws, s, step, q);
      }
      if q.Node? && MonitorOf(s', q.id) != MonitorOf(s, q.id) {
        OnlyThreadMonitorMoves(ws, s, step, q.id);
      }
    }
  }

  lemma ThreadWatches(ws: set<Recipient>, s: Sys, step: Step)
    requires Inv(ws, s) && Enabled(ws, s, step)
    ensures ThreadOf(step) in ws
  {
    hide GenerateGnbUeIDString, FanOut, Do;
    match step {
      case Receive(d) => ReceivedIsOk(ws, s, d);
      case Lookup(ind) =>
      case MonitorGet(n) => assert MonitorOk(ws, s, n, MonitorOf(s, n));
      case MonitorCompare(n) => assert MonitorOk(ws, s, n, MonitorOf(s, n));
      case MonitorPut(n) => assert MonitorOk(ws, s, n, MonitorOf(s, n));
      case _ => assert PcOk(ws, s, ThreadOf(step), PcOf(s, ThreadOf(step)));
    }
  }

  lemma GetDebt(ws: set<Recipient>, s: Sys, r: Recipient)
    requires Inv(ws, s) && Enabled(ws, s, GetEntry(r))
    ensures Debt(|ws|, Do(ws, s, GetEntry(r)), r) <= Debt(|ws|, s, r)
  {
    hide GenerateGnbUeIDString, FanOut;
    assert PcOk(ws, s, r, PcOf(s, r));
  }

  lemma HandlerPutDebt(ws: set<Recipient>, s: Sys, r: Recipient)
    requires Inv(ws, s) && Enabled(ws, s, PutEntry(r))
    ensures var s', e := Do(ws, s, PutEntry(r)), EventFor(true, PcOf(s, r).key, StateWritten(r));
            && s'.inFlight == s.inFlight + FanOut(ws, e)
            && Debt(|ws|, s, r) == Debt(|ws|, s', r) + Total(|ws|, FanOut(ws, e))
  {
    hide GenerateGnbUeIDString, FanOut;
    assert PcOk(ws, s, r, PcOf(s, r));
    PutWorth(ws, EventFor(true, PcOf(s, r).key, StateWritten(r)));
  }

  lemma MonitorPutDebt(ws: set<Recipient>, s: Sys, n: NodeId)
    requires Inv(ws, s) && Enabled(ws, s, MonitorPut(n)) && MonitorOf(s, n).PutNew?
    ensures var k := KeyOfInd(MonitorOf(s, n).ind);
            var s', e := Do(ws, s, MonitorPut(n)), EventFor(k in s.records, k, StateCreated);
            && s'.inFlight == s.inFlight + FanOut(ws, e)
            && Debt(|ws|, s, Node(n)) == Debt(|ws|, s', Node(n)) + Total(|ws|, FanOut(ws, e))
  {
    hide GenerateGnbUeIDString, FanOut;
    var k := KeyOfInd(MonitorOf(s, n).ind);
    PutWorth(ws, EventFor(k in s.records, k, StateCreated));
  }

  /** A delivery uses up one unit, an indication adds at most `w * (w + 1)`, and nothing else
      adds anything. */
  lemma StepPotential(ws: set<Recipient>, s: Sys, step: Step)
    requires Inv(ws, s) && Enabled(ws, s, step)
    ensures var s' := Do(ws, s, step);
            s'.received + Potential(ws, s') <= s.received + Potential(ws, s)
                                               + (|s'.log| - |s.log|) * (|ws| * (|ws| + 1))
    ensures step.Lookup? ==> |Do(ws, s, step).log| == |s.log| + 1
    ensures !step.Lookup? ==> Do(ws, s, step).log == s.log && Potential(ws, Do(ws, s, step)) <= Potential(ws, s)
  {
    hide GenerateGnbUeIDString, FanOut, Potential, Total, Sum, OnlyThread, EventsOk, ValuesOk;
    var s' := Do(ws, s, step);
    StepThread(ws, s, step);
    match step {
      case Receive(d) => ReceivePotential(ws, s, d);
      case GetEntry(r) => GetDebt(ws, s, r); WorkPotential(ws, s, s', r);
      case SendControl(n) => WorkPotential(ws, s, s', Node(n));
      case WriteState(r) => WorkPotential(ws, s, s', r);
      case PutEntry(r) =>
        HandlerPutDebt(ws, s, r);
        PutPotential(ws, s, s', r, EventFor(true, PcOf(s, r).key, StateWritten(r)));
      case Lookup(ind) => LookupPotential(ws, s, ind);
      case MonitorGet(n) => WorkPotential(ws, s, s', Node(n));
      case MonitorCompare(n) => WorkPotential(ws, s, s', Node(n));
      case MonitorPut(n) =>
        assert MonitorOk(ws, s, n, MonitorOf(s, n));
        MonitorPutDebt(ws, s, n);
        var k := KeyOfInd(MonitorOf(s, n).ind);
        PutPotential(ws, s, s', Node(n), EventFor(k in s.records, k, StateCreated));
    }
  }

  lemma LookupDebt(ws: set<Recipient>, s: Sys, ind: Indication)
    requires Enabled(ws, s, Lookup(ind))
    ensures Debt(|ws|, Do(ws, s, Lookup(ind)), Node(ind.node)) <= Debt(|ws|, s, Node(ind.node)) + |ws| * (|ws| + 1)
  {
    hide GenerateGnbUeIDString, FanOut, Weight;
  }

  lemma LookupPotential(ws: set<Recipient>, s: Sys, ind: Indication)
    requires Inv(ws, s) && Enabled(ws, s, Lookup(ind))
    ensures Potential(ws, Do(ws, s, Lookup(ind))) <= Potential(ws, s) + |ws| * (|ws| + 1)
  {
    hide GenerateGnbUeIDString, FanOut, Total, Sum, OnlyThread, Inv, Debt;
    StepThread(ws, s, Lookup(ind));
    LookupDebt(ws, s, ind);
    ThreadDebt(ws, s, Do(ws, s, Lookup(ind)), Node(ind.node));
  }

  lemma {:induction false} RunPotential(ws: set<Recipient>, s: Sys, steps: seq<Step>)
    requires Inv(ws, s) && Legal(ws, s, steps)
    ensures var s' := Run(ws, s, steps);
            s'.received + Potential(ws, s') <= s.received + Potential(ws, s)
                                               + (|s'.log| - |s.log|) * (|ws| * (|ws| + 1))
    decreases |steps|
  {
    hide Do, Enabled, Inv, Potential;
    if steps != [] {
      var t := Do(ws, s, steps[0]);
      StepKeepsInv(ws, s, steps[0]);
      StepPotential(ws, s, steps[0]);
      RunPotential(ws, t, steps[1..]);
      SumOfGains(|t.log| - |s.log|, |Run(ws, s, steps).log| - |t.log|, |ws| * (|ws| + 1));
    }
  }

  lemma SumOfGains(a: int, b: int, c: int)
    ensures a * c + b * c == (a + b) * c
  {
  }

  /** The events that handlers receive in a run. */
  function Receives(steps: seq<Step>): nat {
    if steps == [] then 0 else (if steps[0].Receive? then 1 else 0) + Receives(steps[1..])
  }

  lemma {:induction false} RunCounts(ws: set<Recipient>, s: Sys, steps: seq<Step>)
    requires Legal(ws, s, steps)
    ensures Run(ws, s, steps).received == s.received + Receives(steps)
    decreases |steps|
  {
    if steps != [] {
      RunCounts(ws, Do(ws, s, steps[0]), steps[1..]);
      StepReceives(ws, s, steps[0]);
      hide Do, Enabled;
    }
  }

  lemma StepReceives(ws: set<Recipient>, s: Sys, step: Step)
    requires Enabled(ws, s, step)
    ensures Do(ws, s, step).received == s.received + if step.Receive? then 1 else 0
  {
    hide GenerateGnbUeIDString, FanOut;
  }

  /** With N senders and the controller watching, a run that processes I indications makes at
      most I * (N + 1) * (N + 2) event deliveries, whatever the interleaving. */
  lemma DeliveryBound(ws: set<Recipient>, steps: seq<Step>)
    requires Controller in ws && Legal(ws, Start, steps)
    ensures Receives(steps) <= |LookedUp(steps)| * (|ws| * (|ws| + 1))
    ensures Run(ws, Start, steps).received == Receives(steps) && Run(ws, Start, steps).log == LookedUp(steps)
  {
    StartInv(ws);
    RunPotential(ws, Start, steps);
    StartPotential(ws, ws);
    hide Run, Legal;
    RunCounts(ws, Start, steps);
    LogIsInput(ws, Start, steps);
  }

  lemma {:induction false} StartPotential(ws: set<Recipient>, rs: set<Recipient>)
    ensures Sum(rs, Debts(|ws|, Start)) == 0
    decreases rs
  {
    if rs != {} {
      var r :| r in rs;
      SumTake(rs, Debts(|ws|, Start), r);
      StartPotential(ws, rs - {r});
    }
  }

  // ---------- termination ----------

  /** The store calls a thread still makes for the event or indication in hand. */
  function Remaining(s: Sys, r: Recipient): nat {
    (match PcOf(s, r)
     case Got(_) => 4
     case Have(_, _) => 3
     case Sent(_, _) => 2
     case Written(_, _) => 1
     case _ => 0)
    + (if r.Controller? then 0 else
         match MonitorOf(s, r.id)
         case Present(_) => 3
         case Read(_, _) => 2
         case PutNew(_) => 1
         case PutOld(_, _) => 1
         case Waits => 0)
  }

  function Remainings(s: Sys): Recipient -> nat {
    r => Remaining(s, r)
  }

  ghost function Rank(ws: set<Recipient>, s: Sys): nat {
    5 * Potential(ws, s) + Sum(ws, Remainings(s))
  }

  lemma OthersRemain(ws: set<Recipient>, s: Sys, step: Step, q: Recipient)
    requires Enabled(ws, s, step) && q != ThreadOf(step)
    ensures Remaining(Do(ws, s, step), q) == Remaining(s, q)
  {
    hide Do, Enabled;
    if PcOf(Do(ws, s, step), q) != PcOf(s, q) {
      OnlyThreadMoves(ws, s, step, q);
    }
    if q.Node? && MonitorOf(Do(ws, s, step), q.id) != MonitorOf(s, q.id) {
      OnlyThreadMonitorMoves(ws, s, step, q.id);
    }
  }

  lemma HandlerRemaining(ws: set<Recipient>, s: Sys, step: Step)
    requires Enabled(ws, s, step) && !IsMonitorStep(step)
    ensures Remaining(Do(ws, s, step), ThreadOf(step)) < Remaining(s, ThreadOf(step)) + (if step.Receive? then 5 else 0)
  {
    hide GenerateGnbUeIDString, FanOut;
  }

  lemma MonitorRemaining(ws: set<Recipient>, s: Sys, step: Step)
    requires Enabled(ws, s, step) && IsMonitorStep(step) && !step.Lookup?
    ensures Remaining(Do(ws, s, step), ThreadOf(step)) < Remaining(s, ThreadOf(step))
  {
    hide GenerateGnbUeIDString, FanOut;
  }

  /** Every step but a new indication lowers the rank. */
  lemma StepRank(ws: set<Recipient>, s: Sys, step: Step)
    requires Inv(ws, s) && Enabled(ws, s, step) && !step.Lookup?
    ensures Rank(ws, Do(ws, s, step)) < Rank(ws, s)
  {
    hide Inv, Do, Enabled, Potential, Sum, Remaining, OnlyThread;
    StepPotential(ws, s, step);
    StepThread(ws, s, step);
    if step.Receive? {
      ReceivePotential(ws, s, step.d);
    }
    if IsMonitorStep(step) {
      MonitorRemaining(ws, s, step);
    } else {
      HandlerRemaining(ws, s, step);
    }
    forall q | q != ThreadOf(step) ensures Remaining(Do(ws, s, step), q) == Remaining(s, q) {
      OthersRemain(ws, s, step, q);
    }
    SumChange(ws, Remainings(s), Remainings(Do(ws, s, step)), ThreadOf(step));
  }

  predicate Internal(steps: seq<Step>) {
    forall i :: 0 <= i < |steps| ==> !steps[i].Lookup?
  }

  /** Without new indications every run is finite, with the rank as its bound. */
  lemma {:induction false} InternalRunBound(ws: set<Recipient>, s: Sys, steps: seq<Step>)
    requires Inv(ws, s) && Legal(ws, s, steps) && Internal(steps)
    ensures |steps| + Rank(ws, Run(ws, s, steps)) <= Rank(ws, s)
    decreases |steps|
  {
    hide Do, Enabled, Inv, Rank;
    if steps != [] {
      StepKeepsInv(ws, s, steps[0]);
      StepRank(ws, s, steps[0]);
      InternalRunBound(ws, Do(ws, s, steps[0]), steps[1..]);
    }
  }

  /** A handler that is not idle can take its next step. */
  lemma HandlerCanStep(ws: set<Recipient>, s: Sys, r: Recipient) returns (step: Step)
    requires Inv(ws, s) && PcOf(s, r) != Idle
    ensures Enabled(ws, s, step) && !step.Lookup?
  {
    hide GenerateGnbUeIDString, FanOut;
    var pc := PcOf(s, r);
    assert PcOk(ws, s, r, pc);
    if pc.Got? {
      assert RefOk(s, pc.e.key, s.records[pc.e.key]);
      step := GetEntry(r);
    } else if pc.Written? {
      step := PutEntry(r);
    } else if pc.Have? && r.Node? {
      step := SendControl(r.id);
    } else {
      step := WriteState(r);
    }
  }

  lemma MonitorCanStep(ws: set<Recipient>, s: Sys, n: NodeId) returns (step: Step)
    requires Inv(ws, s) && MonitorOf(s, n) != Waits
    ensures Enabled(ws, s, step) && !step.Lookup?
  {
    hide GenerateGnbUeIDString, FanOut;
    assert MonitorOk(ws, s, n, MonitorOf(s, n));
    match MonitorOf(s, n)
    case Present(_) => step := MonitorGet(n);
    case Read(_, _) => step := MonitorCompare(n);
    case _ => step := MonitorPut(n);
  }

  /** A system that is not at rest can go on without new input. */
  lemma CanStep(ws: set<Recipient>, s: Sys) returns (step: Step)
    requires Inv(ws, s) && !Quiescent(s)
    ensures Enabled(ws, s, step) && !step.Lookup?
  {
    hide Inv, Do;
    if r :| PcOf(s, r) != Idle {
      step := HandlerCanStep(ws, s, r);
    } else if n: NodeId :| MonitorOf(s, n) != Waits {
      step := MonitorCanStep(ws, s, n);
    } else {
      var d :| d in s.inFlight;
      step := Receive(d);
    }
  }

  /** From every reachable state the system comes to rest by its own steps. */
  lemma ComesToRest(ws: set<Recipient>, s: Sys) returns (steps: seq<Step>)
    requires Inv(ws, s)
    ensures Legal(ws, s, steps) && Internal(steps) && Quiescent(Run(ws, s, steps))
    decreases Rank(ws, s)
  {
    hide Do, Enabled, Inv, Rank;
    if Quiescent(s) {
      steps := [];
    } else {
      var step := CanStep(ws, s);
      StepKeepsInv(ws, s, step);
      StepRank(ws, s, step);
      var rest := ComesToRest(ws, Do(ws, s, step));
      steps := [step] + rest;
      assert steps[1..] == rest;
    }
  }
}
