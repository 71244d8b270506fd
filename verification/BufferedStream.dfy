/** The buffered indication stream: a bounded buffer under a condition variable, a goroutine
    that drains it into an unbuffered channel, and any number of readers of that channel. */
module BufferedStream {
  const BUFFER_MAX_SIZE := 10000

  datatype SendResult = Sent | EOF | Unavailable

  /** What one call of `next` comes to: an item, the end, or waiting for a signal. */
  datatype NextResult<T> = Item(ind: T) | Ended | Waits

  /** What the lock protects; `parked` says that the drain goroutine is in `cond.Wait`. */
  datatype Writer<T> = Writer(buffer: seq<T>, closed: bool, parked: bool)

  function OnSend<T>(w: Writer<T>, ind: T): (Writer<T>, SendResult) {
    if w.closed then (w, EOF)
    else if |w.buffer| == BUFFER_MAX_SIZE then (w, Unavailable)
    else (w.(buffer := w.buffer + [ind], parked := false), Sent)
  }

  function OnNext<T>(w: Writer<T>): (Writer<T>, NextResult<T>) {
    if w.buffer != [] then (w.(buffer := w.buffer[1..]), Item(w.buffer[0]))
    else if w.closed then (w, Ended)
    else (w.(parked := true), Waits)
  }

  /** Closing sets the flag and signals nobody. */
  function OnClose<T>(w: Writer<T>): Writer<T> {
    w.(closed := true)
  }

  class BufferedWriter<T> {
    var buffer: seq<T>
    var closed: bool
    var parked: bool

    ghost function View(): Writer<T>
      reads this
    {
      Writer(buffer, closed, parked)
    }

    constructor ()
      ensures View() == Writer([], false, false)
    {
      buffer, closed, parked := [], false, false;
    }

    method Send(ind: T) returns (r: SendResult)
      modifies this
      ensures (View(), r) == OnSend(old(View()), ind)
      ensures r == if old(closed) then EOF else if |old(buffer)| == 10000 then Unavailable else Sent
      ensures View() == if r == Sent then Writer(old(buffer) + [ind], false, false) else old(View())
    {
      if closed {
        return EOF;
      }
      if |buffer| == BUFFER_MAX_SIZE {
        return Unavailable;
      }
      buffer := buffer + [ind];
      parked := false;
      return Sent;
    }

    method Next() returns (r: NextResult<T>)
      modifies this
      ensures (View(), r) == OnNext(old(View()))
      ensures if old(buffer) != [] then r == Item(old(buffer)[0]) && buffer == old(buffer)[1..]
              else buffer == [] && r == if closed then Ended else Waits
    {
      if |buffer| == 0 {
        if closed {
          return Ended;
        }
        parked := true;
        return Waits;
      }
      r := Item(buffer[0]);
      buffer := buffer[1..];
    }

    method Close()
      modifies this
      ensures View() == OnClose(old(View()))
      ensures closed && buffer == old(buffer) && parked == old(parked)
    {
      closed := true;
    }

    /** `drain` for as long as nobody else takes the lock and a reader is always waiting: it
        passes on the whole buffer in order, then closes the channel or parks. */
    method Drain() returns (sent: seq<T>, channelClosed: bool)
      requires !parked
      modifies this
      ensures sent == old(buffer) && channelClosed == old(closed)
      ensures View() == Writer([], old(closed), !old(closed))
    {
      sent := [];
      while true
        invariant !parked && closed == old(closed)
        invariant sent + buffer == old(buffer)
        decreases |buffer|
      {
        var r := Next();
        match r
        case Item(ind) =>
          sent := sent + [ind];
        case Ended =>
          return sent, true;
        case Waits =>
          return sent, false;
      }
    }
  }

  // ---------- the stream as a system of concurrent steps ----------

  /** Where the drain goroutine stands: at `next`, at `s.ch <- ind`, or past `close(s.ch)`. */
  datatype Drain<T> = AtNext | Offering(ind: T) | Finished

  datatype Receipt<T> = Receipt(reader: nat, ind: T)

  /** The last two fields are logs: the accepted sends, and what each `Recv` returned. */
  datatype Stream<T> = Stream(writer: Writer<T>, drain: Drain<T>, accepted: seq<T>, received: seq<Receipt<T>>)

  datatype Step<T> =
    | Send(ind: T)
    | Close
    | DrainNext
    | Handoff(reader: nat)
    | RecvEOF(reader: nat)
    | RecvCancelled(reader: nat)

  function Init<T>(): Stream<T> {
    Stream(Writer([], false, false), AtNext, [], [])
  }

  predicate Enabled<T>(s: Stream<T>, step: Step<T>) {
    match step
    case DrainNext => s.drain.AtNext? && !s.writer.parked
    case Handoff(_) => s.drain.Offering?
    case RecvEOF(_) => s.drain.Finished?
    case _ => true
  }

  function Do<T>(s: Stream<T>, step: Step<T>): Stream<T>
    requires Enabled(s, step)
  {
    match step
    case Send(ind) =>
      var (w, r) := OnSend(s.writer, ind);
      s.(writer := w, accepted := s.accepted + if r == Sent then [ind] else [])
    case Close => s.(writer := OnClose(s.writer))
    case DrainNext =>
      var (w, r) := OnNext(s.writer);
      s.(writer := w, drain := match r case Item(ind) => Offering(ind) case Ended => Finished case Waits => AtNext)
    case Handoff(reader) => s.(drain := AtNext, received := s.received + [Receipt(reader, s.drain.ind)])
    case RecvEOF(_) => s
    case RecvCancelled(_) => s
  }

  ghost predicate Legal<T>(s: Stream<T>, steps: seq<Step<T>>)
    decreases steps
  {
    steps == [] || (Enabled(s, steps[0]) && Legal(Do(s, steps[0]), steps[1..]))
  }

  ghost function Run<T>(s: Stream<T>, steps: seq<Step<T>>): Stream<T>
    requires Legal(s, steps)
    decreases steps
  {
    if steps == [] then s else Run(Do(s, steps[0]), steps[1..])
  }

  function Inds<T>(received: seq<Receipt<T>>): seq<T> {
    seq(|received|, i requires 0 <= i < |received| => received[i].ind)
  }

  function Held<T>(s: Stream<T>): seq<T> {
    if s.drain.Offering? then [s.drain.ind] else []
  }

  /** Every accepted indication is received, held or buffered, once and in order. */
  ghost predicate Conserved<T>(s: Stream<T>) {
    s.accepted == Inds(s.received) + Held(s) + s.writer.buffer
  }

  ghost predicate Inv<T>(s: Stream<T>) {
    && Conserved(s)
    && |s.writer.buffer| <= BUFFER_MAX_SIZE
    && (s.writer.parked ==> s.drain.AtNext? && s.writer.buffer == [])
    && (s.drain.Finished? ==> s.writer.closed && s.writer.buffer == [])
  }

  lemma SendConserves<T>(s: Stream<T>, ind: T)
    requires Conserved(s)
    ensures Conserved(Do(s, Send(ind)))
  {
    var s' := Do(s, Send(ind));
    var before := Inds(s.received) + Held(s);
    if s'.accepted != s.accepted {
      assert before + s.writer.buffer + [ind] == before + (s.writer.buffer + [ind]);
    }
  }

  lemma DrainConserves<T>(s: Stream<T>)
    requires Inv(s) && Enabled(s, DrainNext)
    ensures Conserved(Do(s, DrainNext))
  {
    var s' := Do(s, DrainNext);
    if s.writer.buffer != [] {
      assert s.writer.buffer == Held(s') + s'.writer.buffer;
    }
  }

  lemma HandoffConserves<T>(s: Stream<T>, reader: nat)
    requires Conserved(s) && Enabled(s, Handoff(reader))
    ensures Conserved(Do(s, Handoff(reader)))
  {
    assert Inds(Do(s, Handoff(reader)).received) == Inds(s.received) + Held(s);
  }

  lemma StepKeepsInv<T>(s: Stream<T>, step: Step<T>)
    requires Inv(s) && Enabled(s, step)
    ensures Inv(Do(s, step))
  {
    match step {
      case Send(ind) => SendConserves(s, ind);
      case DrainNext => DrainConserves(s);
      case Handoff(reader) => HandoffConserves(s, reader);
      case _ =>
    }
    hide Inds;
  }

  /** In every interleaving of senders, closers, the drain goroutine and readers: first in,
      first out with nothing lost or duplicated, a bounded buffer, and no lost wake-up. What
      has been accepted or received stays so. */
  lemma {:induction false} RunKeepsInv<T>(s: Stream<T>, steps: seq<Step<T>>)
    requires Inv(s) && Legal(s, steps)
    ensures Inv(Run(s, steps))
    ensures s.accepted <= Run(s, steps).accepted && s.received <= Run(s, steps).received
    decreases steps
  {
    if steps != [] {
      StepKeepsInv(s, steps[0]);
      RunKeepsInv(Do(s, steps[0]), steps[1..]);
    }
  }

  lemma ReachableInv<T>(steps: seq<Step<T>>)
    requires Legal(Init(), steps)
    ensures Inv(Run(Init(), steps))
  {
    var init: Stream<T> := Init();
    assert Inds(init.received) == [];
    RunKeepsInv(init, steps);
  }

  /** `io.EOF` from `Recv` means that the stream is closed and all it accepted was received. */
  lemma EOFIsTheEnd<T>(steps: seq<Step<T>>, reader: nat)
    requires Legal(Init(), steps) && Enabled(Run(Init(), steps), RecvEOF(reader))
    ensures var s := Run(Init(), steps); s.writer.closed && Inds(s.received) == s.accepted
  {
    ReachableInv(steps);
  }

  /** While an accepted indication is outstanding, the drain goroutine is not asleep: it can
      run, or it offers the oldest outstanding indication to whoever calls `Recv`. */
  lemma OutstandingIsOffered<T>(steps: seq<Step<T>>)
    requires Legal(Init(), steps) && |Run(Init(), steps).received| < |Run(Init(), steps).accepted|
    ensures var s := Run(Init(), steps);
            if s.drain.Offering? then s.drain.ind == s.accepted[|s.received|] else Enabled(s, DrainNext)
  {
    ReachableInv(steps);
    var s := Run(Init(), steps);
    assert |Inds(s.received)| == |s.received|;
  }

  // ---------- graceful close ----------

  predicate IsProgress<T>(step: Step<T>) {
    step.DrainNext? || step.Handoff?
  }

  function ProgressCount<T>(steps: seq<Step<T>>): nat {
    if steps == [] then 0 else (if IsProgress(steps[0]) then 1 else 0) + ProgressCount(steps[1..])
  }

  /** The drain and receive steps a closed stream still needs. */
  function Remaining<T>(s: Stream<T>): nat {
    match s.drain
    case AtNext => 2 * |s.writer.buffer| + 1
    case Offering(_) => 2 * |s.writer.buffer| + 2
    case Finished => 0
  }

  ghost predicate Closing<T>(s: Stream<T>) {
    Inv(s) && s.writer.closed && !s.writer.parked
  }

  lemma ClosingStep<T>(s: Stream<T>, step: Step<T>)
    requires Closing(s) && Enabled(s, step)
    ensures var s' := Do(s, step);
            && Closing(s') && s'.accepted == s.accepted
            && Remaining(s') == Remaining(s) - if IsProgress(step) then 1 else 0
  {
    StepKeepsInv(s, step);
  }

  /** Once closed while the drain goroutine is not parked, the stream needs exactly `Remaining`
      more drain and receive steps, whatever else goes on; one of them is always possible until
      there are none left, and then everything accepted has been received and `Recv` says EOF. */
  lemma {:induction false} ClosesGracefully<T>(s: Stream<T>, steps: seq<Step<T>>)
    requires Closing(s) && Legal(s, steps)
    ensures var t := Run(s, steps);
            && t.accepted == s.accepted
            && Remaining(t) == Remaining(s) - ProgressCount(steps)
            && (forall reader :: Remaining(t) > 0 ==> Enabled(t, DrainNext) || Enabled(t, Handoff(reader)))
            && (Remaining(t) == 0 ==> Inds(t.received) == s.accepted)
            && (forall reader :: Remaining(t) == 0 ==> Enabled(t, RecvEOF(reader)))
    decreases steps
  {
    if steps == [] {
    } else {
      ClosingStep(s, steps[0]);
      ClosesGracefully(Do(s, steps[0]), steps[1..]);
    }
  }

  lemma {:induction false} ReachEOF<T>(s: Stream<T>, reader: nat) returns (steps: seq<Step<T>>)
    requires Closing(s)
    ensures Legal(s, steps) && Run(s, steps).drain.Finished?
    decreases Remaining(s)
  {
    if s.drain.Finished? {
      return [];
    }
    var step: Step<T> := if s.drain.AtNext? then DrainNext else Handoff(reader);
    ClosingStep(s, step);
    var rest := ReachEOF(Do(s, step), reader);
    steps := [step] + rest;
    assert steps[1..] == rest;
  }

  /** A stream closed while its drain goroutine is parked stays as it is for ever. */
  lemma {:induction false} ParkedAndClosedIsStuck<T>(s: Stream<T>, steps: seq<Step<T>>)
    requires s.writer.parked && s.writer.closed && s.drain.AtNext? && Legal(s, steps)
    ensures Run(s, steps) == s
    decreases steps
  {
    if steps != [] {
      assert Do(s, steps[0]) == s by {
        assert s.accepted + [] == s.accepted;
      }
      ParkedAndClosedIsStuck(s, steps[1..]);
    }
  }

  /** `Close` is graceful, in that some reader can still get to EOF, exactly if it does not
      find the drain goroutine parked: `Close` does not signal. Nothing but EOF is missing then. */
  lemma CloseReachesEOFIff<T>(s: Stream<T>)
    requires Inv(s)
    ensures (exists steps :: Legal(Do(s, Close), steps) && Run(Do(s, Close), steps).drain.Finished?)
       <==> !s.writer.parked
    ensures s.writer.parked ==> Inds(s.received) == s.accepted
  {
    StepKeepsInv(s, Close);
    var c := Do(s, Close);
    if s.writer.parked {
      forall steps | Legal(c, steps) ensures !Run(c, steps).drain.Finished? {
        ParkedAndClosedIsStuck(c, steps);
      }
    } else {
      var steps := ReachEOF(c, 0);
    }
  }

  /** The stuck case is reached by any stream that is closed after having been idle. */
  lemma IdleThenClosed<T>(ind: T, reader: nat, more: seq<Step<T>>)
    requires Legal(Do(IdleStream(ind, reader), Close), more)
    ensures var steps := [Send(ind), DrainNext, Handoff(reader), DrainNext];
            Legal(Init(), steps) && Run(Init(), steps) == IdleStream(ind, reader)
    ensures var t := Run(Do(IdleStream(ind, reader), Close), more);
            Inds(t.received) == [ind] && !Enabled(t, RecvEOF(reader)) && !Enabled(t, Handoff(reader))
  {
    var s0: Stream<T> := Init();
    var s1 := Do(s0, Send(ind));
    var s2 := Do(s1, DrainNext);
    var s3 := Do(s2, Handoff(reader));
    var s4 := Do(s3, DrainNext);
    assert s4 == IdleStream(ind, reader);
    var steps := [Send(ind), DrainNext, Handoff(reader), DrainNext];
    assert steps[1..] == [DrainNext, Handoff(reader), DrainNext];
    assert steps[1..][1..] == [Handoff(reader), DrainNext];
    assert steps[1..][1..][1..] == [DrainNext];
    assert steps[1..][1..][1..][1..] == [];
    assert Legal(s3, [DrainNext]) && Run(s3, [DrainNext]) == s4;
    assert Legal(s2, [Handoff(reader), DrainNext]) && Run(s2, [Handoff(reader), DrainNext]) == s4;
    assert Legal(s1, steps[1..]) && Run(s1, steps[1..]) == s4;
    ParkedAndClosedIsStuck(Do(s4, Close), more);
  }

  /** Everything accepted has been received and the drain goroutine waits for a signal. */
  function IdleStream<T>(ind: T, reader: nat): Stream<T> {
    Stream(Writer([], false, true), AtNext, [ind], [Receipt(reader, ind)])
  }
}
