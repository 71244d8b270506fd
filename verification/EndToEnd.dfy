/** The whole path of an indication: from its arrival on a node's subscription channel, through
    the forwarder and the buffered stream to the node's monitor, and through the handover
    protocol to a control attempt. */
module EndToEnd {
  import opened Wrappers
  import opened UeKey
  import opened HandoverTypes
  import opened BufferedStream
  import opened IndicationForwarder
  import Handover

  /** What a decoded indication holds; the monitor that processes it adds its own node. */
  datatype Report = Report(rawUeId: UeId, tgtCellId: string, callProcessId: seq<Byte>)

  function At(n: NodeId, r: Report): Indication {
    Indication(n, r.rawUeId, r.tgtCellId, r.callProcessId)
  }

  function AllAt(n: NodeId, rs: seq<Report>): (inds: seq<Indication>)
    ensures |inds| == |rs|
  {
    if rs == [] then [] else AllAt(n, rs[..|rs| - 1]) + [At(n, rs[|rs| - 1])]
  }

  /** The protocol, and one pipeline for each node. */
  datatype App = App(protocol: Handover.State, pipes: map<NodeId, Pipeline<Report>>)

  /** The monitor of a node takes an indication from its stream and processes it in one step. */
  datatype AppStep = OnPipe(n: NodeId, step: PipeStep<Report>) | OnDelivery(d: Delivery)

  const Begin: App := App(Handover.Init, map[])

  function PipeOf(s: App, n: NodeId): Pipeline<Report> {
    if n in s.pipes then s.pipes[n] else Start()
  }

  predicate IsHandoff(step: PipeStep<Report>) {
    step.Other? && step.step.Handoff?
  }

  predicate AppEnabled(ws: set<Recipient>, s: App, step: AppStep) {
    match step
    case OnPipe(n, inner) => Node(n) in ws && PipeEnabled(PipeOf(s, n), inner)
    case OnDelivery(d) => Handover.Enabled(ws, s.protocol, Handover.Deliver(d))
  }

  function AppDo(ws: set<Recipient>, s: App, step: AppStep): App
    requires AppEnabled(ws, s, step)
  {
    match step
    case OnPipe(n, inner) =>
      var p := PipeOf(s, n);
      App(if IsHandoff(inner) then Handover.Do(ws, s.protocol, Handover.Indicate(At(n, p.stream.drain.ind)))
          else s.protocol,
          s.pipes[n := PipeDo(p, inner)])
    case OnDelivery(d) => s.(protocol := Handover.Do(ws, s.protocol, Handover.Deliver(d)))
  }

  ghost predicate AppLegal(ws: set<Recipient>, s: App, steps: seq<AppStep>)
    decreases steps
  {
    steps == [] || (AppEnabled(ws, s, steps[0]) && AppLegal(ws, AppDo(ws, s, steps[0]), steps[1..]))
  }

  ghost function AppRun(ws: set<Recipient>, s: App, steps: seq<AppStep>): App
    requires AppLegal(ws, s, steps)
    decreases steps
  {
    if steps == [] then s else AppRun(ws, AppDo(ws, s, steps[0]), steps[1..])
  }

  // ---------- what the monitors process is what the streams deliver ----------

  /** The indications of one node in a log. */
  function FromNode(log: seq<Indication>, n: NodeId): seq<Indication> {
    if log == [] then [] else
      var before, ind := FromNode(log[..|log| - 1], n), log[|log| - 1];
      if ind.node == n then before + [ind] else before
  }

  ghost predicate PipeMatches(s: App, n: NodeId) {
    && PipeInv(PipeOf(s, n))
    && FromNode(s.protocol.log, n) == AllAt(n, Inds(PipeOf(s, n).stream.received))
  }

  ghost predicate AppInv(ws: set<Recipient>, s: App) {
    Handover.Inv(ws, s.protocol) && forall n: NodeId :: PipeMatches(s, n)
  }

  lemma BeginInv(ws: set<Recipient>)
    requires Controller in ws
    ensures AppInv(ws, Begin)
  {
    Handover.InitInv(ws);
    hide Handover.Inv;
    forall n: NodeId ensures PipeMatches(Begin, n) {
      var start: Pipeline<Report> := Start();
      assert Inds(start.stream.received) == [];
    }
  }

  lemma LogGrows(log: seq<Indication>, ind: Indication, n: NodeId)
    ensures FromNode(log + [ind], n) == if ind.node == n then FromNode(log, n) + [ind] else FromNode(log, n)
  {
    assert (log + [ind])[..|log|] == log;
  }

  lemma AllAtGrows(n: NodeId, rs: seq<Report>, r: Report)
    ensures AllAt(n, rs + [r]) == AllAt(n, rs) + [At(n, r)]
  {
    assert (rs + [r])[..|rs|] == rs;
  }

  lemma ProtocolLog(ws: set<Recipient>, s: Handover.State, step: Handover.Step)
    requires Handover.Enabled(ws, s, step)
    ensures Handover.Do(ws, s, step).log == if step.Indicate? then s.log + [step.ind] else s.log
  {
    hide GenerateGnbUeIDString, FanOut;
  }

  /** A pipeline hands out what it delivers, and receives nothing otherwise. */
  lemma PipeReceives(p: Pipeline<Report>, step: PipeStep<Report>)
    requires PipeEnabled(p, step)
    ensures Inds(PipeDo(p, step).stream.received) ==
            if IsHandoff(step) then Inds(p.stream.received) + [p.stream.drain.ind] else Inds(p.stream.received)
  {
  }

  lemma PipeStepKeepsMatch(ws: set<Recipient>, s: App, n: NodeId, step: PipeStep<Report>, m: NodeId)
    requires AppEnabled(ws, s, OnPipe(n, step)) && PipeMatches(s, n) && PipeMatches(s, m)
    ensures PipeMatches(AppDo(ws, s, OnPipe(n, step)), m)
  {
    var p := PipeOf(s, n);
    PipeStepKeepsInv(p, step);
    PipeReceives(p, step);
    if IsHandoff(step) {
      var r := p.stream.drain.ind;
      ProtocolLog(ws, s.protocol, Handover.Indicate(At(n, r)));
      LogGrows(s.protocol.log, At(n, r), m);
      AllAtGrows(n, Inds(p.stream.received), r);
    }
    hide PipeDo, Handover.Do, PipeInv, Inds, FromNode, AllAt;
  }

  lemma AppStepKeepsInv(ws: set<Recipient>, s: App, step: AppStep)
    requires AppInv(ws, s) && AppEnabled(ws, s, step)
    ensures AppInv(ws, AppDo(ws, s, step))
  {
    var s' := AppDo(ws, s, step);
    match step {
      case OnPipe(n, inner) =>
        if IsHandoff(inner) {
          Handover.StepKeepsInv(ws, s.protocol, Handover.Indicate(At(n, PipeOf(s, n).stream.drain.ind)));
        }
        hide Handover.Inv, PipeDo, Handover.Do, PipeMatches;
        forall m: NodeId ensures PipeMatches(s', m) {
          PipeStepKeepsMatch(ws, s, n, inner, m);
        }
      case OnDelivery(d) =>
        Handover.StepKeepsInv(ws, s.protocol, Handover.Deliver(d));
        ProtocolLog(ws, s.protocol, Handover.Deliver(d));
        hide Handover.Inv, Handover.Do, PipeInv;
        forall m: NodeId ensures PipeMatches(s', m) {
          assert PipeMatches(s, m);
        }
    }
  }

  lemma {:induction false} AppRunKeepsInv(ws: set<Recipient>, s: App, steps: seq<AppStep>)
    requires AppInv(ws, s) && AppLegal(ws, s, steps)
    ensures AppInv(ws, AppRun(ws, s, steps))
    decreases steps
  {
    hide AppInv, AppDo, AppEnabled;
    if steps != [] {
      AppStepKeepsInv(ws, s, steps[0]);
      AppRunKeepsInv(ws, AppDo(ws, s, steps[0]), steps[1..]);
    }
  }

  // ---------- from the last arrival to the last control attempt ----------

  /** Nothing that arrived is still on its way to the monitor, or was refused. */
  predicate Drained(p: Pipeline<Report>) {
    p.forwarded == |p.arrived| && p.stream.writer.buffer == [] && !p.stream.drain.Offering?
  }

  lemma DrainedIsReceived(p: Pipeline<Report>)
    requires PipeInv(p) && Drained(p)
    ensures Inds(p.stream.received) == p.arrived
  {
    assert p.arrived[..p.forwarded] == p.arrived;
  }

  /** The report at position `i` is the last one of a UE. */
  ghost predicate IsLast(rs: seq<Report>, key: string, i: nat) {
    && i < |rs| && RendersTo(rs[i].rawUeId, key)
    && forall j :: i < j < |rs| ==> !RendersTo(rs[j].rawUeId, key)
  }

  lemma OneLast(rs: seq<Report>, key: string, i: nat, j: nat)
    requires IsLast(rs, key, i)
    ensures i < |rs| && Mentions(rs, key) && (IsLast(rs, key, j) ==> i == j)
  {
  }

  ghost predicate Mentions(rs: seq<Report>, key: string) {
    exists i :: 0 <= i < |rs| && RendersTo(rs[i].rawUeId, key)
  }

  /** Processing keeps the number, the order and every field of a node's reports. */
  lemma {:induction false} AllAtKeeps(n: NodeId, rs: seq<Report>)
    ensures forall k :: 0 <= k < |rs| ==> AllAt(n, rs)[k] == At(n, rs[k])
  {
    if rs != [] {
      AllAtKeeps(n, rs[..|rs| - 1]);
    }
  }

  lemma {:induction false} LastForIsLast(n: NodeId, rs: seq<Report>, key: string)
    ensures match Handover.LastFor(AllAt(n, rs), key)
            case None => !Mentions(rs, key)
            case Some(last) => exists i: nat :: IsLast(rs, key, i) && last == At(n, rs[i])
  {
    hide GenerateGnbUeIDString;
    if rs != [] {
      var before, r := rs[..|rs| - 1], rs[|rs| - 1];
      LastForIsLast(n, before, key);
      assert AllAt(n, rs)[..|before|] == AllAt(n, before);
      if RendersTo(r.rawUeId, key) {
        assert IsLast(rs, key, |rs| - 1);
      } else if Handover.LastFor(AllAt(n, before), key).Some? {
        var i: nat :| IsLast(before, key, i) && Handover.LastFor(AllAt(n, before), key).value == At(n, before[i]);
        assert IsLast(rs, key, i);
      }
    }
  }

  /** In every reachable state, the log entries of a node are, one by one and field by field,
      the reports that its monitor received. */
  lemma ProcessedIsReceived(ws: set<Recipient>, steps: seq<AppStep>, n: NodeId)
    requires Controller in ws && AppLegal(ws, Begin, steps)
    ensures var s := AppRun(ws, Begin, steps);
            var logged, received := FromNode(s.protocol.log, n), PipeOf(s, n).stream.received;
            && |logged| == |received|
            && forall k :: 0 <= k < |logged| ==>
                 && logged[k].node == n
                 && logged[k].rawUeId == received[k].ind.rawUeId
                 && logged[k].tgtCellId == received[k].ind.tgtCellId
                 && logged[k].callProcessId == received[k].ind.callProcessId
  {
    BeginInv(ws);
    AppRunKeepsInv(ws, Begin, steps);
    hide AppRun, AppLegal, Handover.Inv, PipeInv;
    var s := AppRun(ws, Begin, steps);
    assert PipeMatches(s, n);
    AllAtKeeps(n, Inds(PipeOf(s, n).stream.received));
  }

  lemma {:induction false} LastForIsOfItsNode(log: seq<Indication>, key: string, n: NodeId)
    ensures var last, ofNode := Handover.LastFor(log, key), Handover.LastFor(FromNode(log, n), key);
            && (last.Some? && last.value.node == n ==> ofNode == last)
            && (last.None? ==> ofNode.None?)
  {
    hide GenerateGnbUeIDString;
    if log != [] {
      var before, ind := log[..|log| - 1], log[|log| - 1];
      LastForIsOfItsNode(before, key, n);
      var f := FromNode(before, n);
      assert ind.node == n ==> (f + [ind])[..|f|] == f;
    }
  }

  /** The UE's entry is done, and its last control attempt names the target. */
  predicate Carried(s: App, key: string, target: string) {
    var ctl := Handover.ControlsOf(s.protocol.controls, key);
    && key in s.protocol.view.records
    && s.protocol.view.records[key].state == Done && s.protocol.view.records[key].tgtCellId == target
    && ctl != [] && ctl[|ctl| - 1].tgtCellId == target
  }

  /** Everything that arrived at a node is in the log. */
  lemma ArrivedIsLogged(ws: set<Recipient>, s: App, n: NodeId)
    requires AppInv(ws, s) && Drained(PipeOf(s, n))
    ensures FromNode(s.protocol.log, n) == AllAt(n, PipeOf(s, n).arrived)
  {
    assert PipeMatches(s, n);
    DrainedIsReceived(PipeOf(s, n));
  }

  lemma QuietIsCarried(ws: set<Recipient>, s: App, key: string)
    requires AppInv(ws, s) && s.protocol.view.inFlight == multiset{}
    ensures match Handover.LastFor(s.protocol.log, key)
            case None => key !in s.protocol.view.records
            case Some(last) => Carried(s, key, last.tgtCellId)
  {
    assert Handover.EntryOk(ws, s.protocol, key);
    Handover.QuietEntryAgrees(ws, s.protocol, key);
  }

  /** Once everything that arrived has been received and no event is in flight, every UE that
      any node ever reported has been handed over as the last arrived report of it from some
      node asked, and the others have no entry. Arrivals from different nodes are not ordered. */
  lemma LastArrivalIsCarried(ws: set<Recipient>, steps: seq<AppStep>, key: string)
    requires Controller in ws && AppLegal(ws, Begin, steps)
    requires AppRun(ws, Begin, steps).protocol.view.inFlight == multiset{}
    requires forall n: NodeId :: Drained(PipeOf(AppRun(ws, Begin, steps), n))
    ensures var s := AppRun(ws, Begin, steps);
            if forall n: NodeId :: !Mentions(PipeOf(s, n).arrived, key) then key !in s.protocol.view.records
            else exists n: NodeId, i: nat :: IsLast(PipeOf(s, n).arrived, key, i)
                                             && Carried(s, key, PipeOf(s, n).arrived[i].tgtCellId)
  {
    BeginInv(ws);
    AppRunKeepsInv(ws, Begin, steps);
    var s := AppRun(ws, Begin, steps);
    hide AppRun, AppLegal, GenerateGnbUeIDString, AppInv, Drained, Carried;
    QuietIsCarried(ws, s, key);
    match Handover.LastFor(s.protocol.log, key) {
      case None =>
        forall n: NodeId ensures !Mentions(PipeOf(s, n).arrived, key) {
          ArrivedIsLogged(ws, s, n);
          LastForIsOfItsNode(s.protocol.log, key, n);
          LastForIsLast(n, PipeOf(s, n).arrived, key);
        }
      case Some(last) =>
        ArrivedIsLogged(ws, s, last.node);
        LastForIsOfItsNode(s.protocol.log, key, last.node);
        LastForIsLast(last.node, PipeOf(s, last.node).arrived, key);
        var i: nat :| IsLast(PipeOf(s, last.node).arrived, key, i) && last == At(last.node, PipeOf(s, last.node).arrived[i]);
        assert Mentions(PipeOf(s, last.node).arrived, key);
        assert Carried(s, key, PipeOf(s, last.node).arrived[i].tgtCellId);
    }
  }

  /** So for a UE that only one node reports, the last control attempt names the target cell of
      its last arrived report. */
  lemma OneNodeIsCarried(ws: set<Recipient>, steps: seq<AppStep>, key: string, n: NodeId, i: nat)
    requires Controller in ws && AppLegal(ws, Begin, steps)
    requires AppRun(ws, Begin, steps).protocol.view.inFlight == multiset{}
    requires forall m: NodeId :: Drained(PipeOf(AppRun(ws, Begin, steps), m))
    requires forall m: NodeId :: m != n ==> !Mentions(PipeOf(AppRun(ws, Begin, steps), m).arrived, key)
    requires IsLast(PipeOf(AppRun(ws, Begin, steps), n).arrived, key, i)
    ensures var s := AppRun(ws, Begin, steps); Carried(s, key, PipeOf(s, n).arrived[i].tgtCellId)
  {
    LastArrivalIsCarried(ws, steps, key);
    var s := AppRun(ws, Begin, steps);
    hide AppRun, AppLegal, Carried, Drained, IsLast, Mentions, PipeOf, GenerateGnbUeIDString;
    OneLast(PipeOf(s, n).arrived, key, i, i);
    var m: NodeId, j: nat :| IsLast(PipeOf(s, m).arrived, key, j) && Carried(s, key, PipeOf(s, m).arrived[j].tgtCellId);
    OneLast(PipeOf(s, m).arrived, key, j, j);
    OneLast(PipeOf(s, n).arrived, key, i, j);
  }
}
