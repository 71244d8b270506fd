/** From a subscription's channel into its stream: the forwarder that stops for good at the
    first send the stream refuses. */
module IndicationForwarder {
  import opened BufferedStream
  import B = Broker

  /** `sendIndicationOnStream` on the indications that arrived, while nobody else takes the
      stream's lock: it buffers as many as fit, without a gap, and none if there is no stream. */
  method SendIndicationOnStream<T>(broker: B.StreamBroker<T>, id: B.StreamId, arrived: seq<T>)
    returns (forwarded: nat)
    requires broker.Valid()
    modifies if id in broker.streams then {broker.streams[id].writer} else {}
    ensures id !in broker.streams ==> forwarded == 0
    ensures id in broker.streams ==>
              var before, after := old(broker.streams[id].writer.View()), broker.streams[id].writer.View();
              && forwarded <= |arrived| && after.closed == before.closed
              && after.buffer == before.buffer + arrived[..forwarded]
              && (forwarded < |arrived| ==> after.closed || |after.buffer| == BUFFER_MAX_SIZE)
              && (before.closed ==> forwarded == 0)
  {
    var found := broker.GetWriter(id);
    if !found.Found? {
      return 0;
    }
    var writer := found.stream.writer;
    ghost var before := writer.View();
    forwarded := 0;
    for i := 0 to |arrived|
      invariant forwarded == i && writer.View().closed == before.closed
      invariant writer.View().buffer == before.buffer + arrived[..i]
      invariant before.closed ==> i == 0
    {
      var r := writer.Send(arrived[i]);
      if r != Sent {
        return;
      }
      assert arrived[..i + 1] == arrived[..i] + [arrived[i]];
      forwarded := i + 1;
    }
  }

  // ---------- the forwarder beside everything else that uses the stream ----------

  /** `forwarded` counts the indications taken from the channel and accepted by the stream. */
  datatype Pipeline<T> = Pipeline(stream: Stream<T>, arrived: seq<T>, forwarded: nat, stopped: bool)

  /** Nobody but the forwarder sends on the stream. */
  datatype PipeStep<T> = Arrive(ind: T) | Forward | Other(step: Step<T>)

  function Start<T>(): Pipeline<T> {
    Pipeline(Init(), [], 0, false)
  }

  predicate PipeEnabled<T>(p: Pipeline<T>, step: PipeStep<T>) {
    match step
    case Arrive(_) => true
    case Forward => !p.stopped && p.forwarded < |p.arrived|
    case Other(inner) => !inner.Send? && Enabled(p.stream, inner)
  }

  function PipeDo<T>(p: Pipeline<T>, step: PipeStep<T>): Pipeline<T>
    requires PipeEnabled(p, step)
  {
    match step
    case Arrive(ind) => p.(arrived := p.arrived + [ind])
    case Forward =>
      var ind := p.arrived[p.forwarded];
      var after := Do(p.stream, Send(ind));
      if OnSend(p.stream.writer, ind).1 == Sent then p.(stream := after, forwarded := p.forwarded + 1)
      else p.(stream := after, stopped := true)
    case Other(inner) => p.(stream := Do(p.stream, inner))
  }

  ghost predicate PipeLegal<T>(p: Pipeline<T>, steps: seq<PipeStep<T>>)
    decreases steps
  {
    steps == [] || (PipeEnabled(p, steps[0]) && PipeLegal(PipeDo(p, steps[0]), steps[1..]))
  }

  ghost function PipeRun<T>(p: Pipeline<T>, steps: seq<PipeStep<T>>): Pipeline<T>
    requires PipeLegal(p, steps)
    decreases steps
  {
    if steps == [] then p else PipeRun(PipeDo(p, steps[0]), steps[1..])
  }

  ghost predicate PipeInv<T>(p: Pipeline<T>) {
    && Inv(p.stream)
    && p.forwarded <= |p.arrived|
    && p.stream.accepted == p.arrived[..p.forwarded]
  }

  lemma PipeStepKeepsInv<T>(p: Pipeline<T>, step: PipeStep<T>)
    requires PipeInv(p) && PipeEnabled(p, step)
    ensures PipeInv(PipeDo(p, step))
    ensures p.stopped ==> PipeDo(p, step).stopped && PipeDo(p, step).forwarded == p.forwarded
    ensures p.arrived <= PipeDo(p, step).arrived
  {
    match step
    case Arrive(_) =>
    case Forward => StepKeepsInv(p.stream, Send(p.arrived[p.forwarded]));
    case Other(inner) => StepKeepsInv(p.stream, inner);
  }

  lemma {:induction false} PipeRunKeepsInv<T>(p: Pipeline<T>, steps: seq<PipeStep<T>>)
    requires PipeInv(p) && PipeLegal(p, steps)
    ensures var q := PipeRun(p, steps); PipeInv(q) && p.arrived <= q.arrived
    ensures p.stopped ==> PipeRun(p, steps).stopped && PipeRun(p, steps).forwarded == p.forwarded
    decreases steps
  {
    if steps != [] {
      PipeStepKeepsInv(p, steps[0]);
      PipeRunKeepsInv(PipeDo(p, steps[0]), steps[1..]);
    }
  }

  /** What the steps put on the subscription's channel. */
  function Arrivals<T>(steps: seq<PipeStep<T>>): seq<T> {
    if steps == [] then [] else (if steps[0].Arrive? then [steps[0].ind] else []) + Arrivals(steps[1..])
  }

  lemma {:induction false} ArrivedIsArrivals<T>(p: Pipeline<T>, steps: seq<PipeStep<T>>)
    requires PipeLegal(p, steps)
    ensures PipeRun(p, steps).arrived == p.arrived + Arrivals(steps)
    decreases steps
  {
    if steps != [] {
      ArrivedIsArrivals(PipeDo(p, steps[0]), steps[1..]);
    }
  }

  /** Gap-free forwarding: what the readers have received is, in order, a prefix of what has
      arrived; and a forwarder that is still running has lost nothing so far. */
  lemma ReceivedIsPrefixOfArrived<T>(steps: seq<PipeStep<T>>)
    requires PipeLegal(Start(), steps)
    ensures var p := PipeRun(Start(), steps);
            && p.arrived == Arrivals(steps)
            && Inds(p.stream.received) <= p.stream.accepted <= p.arrived && p.forwarded <= |p.arrived|
            && p.arrived == Inds(p.stream.received) + Held(p.stream) + p.stream.writer.buffer + p.arrived[p.forwarded..]
  {
    var start: Pipeline<T> := Start();
    assert Inds(start.stream.received) == [];
    PipeRunKeepsInv(start, steps);
    ArrivedIsArrivals(start, steps);
    var p := PipeRun(start, steps);
    assert p.arrived == p.arrived[..p.forwarded] + p.arrived[p.forwarded..];
  }

  /** The forwarder stops exactly when the stream refuses, closed or full, and then the refused
      indication and all later ones are never received, even if the buffer drains again. */
  lemma RefusalIsFinal<T>(p: Pipeline<T>, more: seq<PipeStep<T>>)
    requires PipeInv(p) && PipeEnabled(p, Forward) && PipeLegal(PipeDo(p, Forward), more)
    ensures var w := p.stream.writer; PipeDo(p, Forward).stopped <==> w.closed || |w.buffer| == BUFFER_MAX_SIZE
    ensures PipeDo(p, Forward).stopped ==>
              var q := PipeRun(PipeDo(p, Forward), more);
              q.stream.accepted == p.stream.accepted && Inds(q.stream.received) <= p.arrived[..p.forwarded]
  {
    PipeStepKeepsInv(p, Forward);
    PipeRunKeepsInv(PipeDo(p, Forward), more);
  }
}
