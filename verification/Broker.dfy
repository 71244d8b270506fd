/** The broker: one table of streams by subscription channel, one by stream ID. */
module Broker {
  import BufferedStream

  type ChannelId = string
  type StreamId = nat

  /** A stream as the two tables know it. */
  datatype Ref = Ref(channelId: ChannelId, streamId: StreamId)

  datatype Index = Index(subs: map<ChannelId, Ref>, streams: map<StreamId, Ref>, streamId: StreamId)

  /** The locked half of `OpenReader`: it does not look the channel up again. */
  function OnCreate(x: Index, ch: ChannelId): Index {
    var ref := Ref(ch, x.streamId + 1);
    Index(x.subs[ch := ref], x.streams[ref.streamId := ref], ref.streamId)
  }

  function OnOpen(x: Index, ch: ChannelId): Index {
    if ch in x.subs then x else OnCreate(x, ch)
  }

  function OnClose(x: Index, ch: ChannelId): Index {
    if ch in x.subs then
      Index(x.subs - {x.subs[ch].channelId}, x.streams - {x.subs[ch].streamId}, x.streamId)
    else x
  }

  /** Every channel's stream is filed under its own channel ID and its own stream ID. */
  predicate ChannelsFiled(x: Index) {
    forall ch :: ch in x.subs ==>
      && x.subs[ch].channelId == ch
      && x.subs[ch].streamId in x.streams && x.streams[x.subs[ch].streamId] == x.subs[ch]
  }

  /** A stream that the table of channels knows. */
  predicate Current(x: Index, id: StreamId) {
    id in x.streams && x.streams[id].channelId in x.subs && x.subs[x.streams[id].channelId] == x.streams[id]
  }

  /** The two tables are inverse to each other. */
  predicate Mutual(x: Index) {
    ChannelsFiled(x) && forall id :: id in x.streams ==> Current(x, id)
  }

  predicate IdsIssued(x: Index) {
    forall id :: id in x.streams ==> 0 < id <= x.streamId && x.streams[id].streamId == id
  }

  // ---------- the broker itself ----------

  class OpenStream<T> {
    const ref: Ref
    const writer: BufferedStream.BufferedWriter<T>

    constructor (ref: Ref)
      ensures this.ref == ref && fresh(writer) && writer.View() == BufferedStream.Writer([], false, false)
    {
      this.ref := ref;
      writer := new BufferedStream.BufferedWriter<T>();
    }
  }

  datatype StreamResult<T> = Found(stream: OpenStream<T>) | NotFound | UnsubscribeFailed

  class StreamBroker<T> {
    var subs: map<ChannelId, OpenStream<T>>
    var streams: map<StreamId, OpenStream<T>>
    var streamId: StreamId

    ghost function View(): Index
      reads this
    {
      Index(map ch | ch in subs :: subs[ch].ref, map id | id in streams :: streams[id].ref, streamId)
    }

    /** The tables agree, also on which object each stream is. */
    ghost predicate Valid()
      reads this
    {
      && Mutual(View()) && IdsIssued(View())
      && forall ch :: ch in subs ==> subs[ch].ref.streamId in streams && streams[subs[ch].ref.streamId] == subs[ch]
    }

    constructor ()
      ensures Valid() && View() == Index(map[], map[], 0)
    {
      subs, streams, streamId := map[], map[], 0;
    }

    /** Atomic: nobody closes or opens between the two locks. */
    method OpenReader(ch: ChannelId) returns (stream: OpenStream<T>)
      requires Valid()
      modifies this
      ensures Valid() && View() == OnOpen(old(View()), ch)
      ensures ch in subs && stream == subs[ch]
      ensures stream.ref.streamId in streams && streams[stream.ref.streamId] == stream
      ensures if ch in old(subs) then stream == old(subs[ch])
              else fresh(stream) && fresh(stream.writer) && stream.ref.streamId == old(streamId) + 1
    {
      if ch in subs {
        return subs[ch];
      }
      assert forall id :: id in streams ==> id in View().streams;
      CreateFiles(View(), ch);
      CreateKeepsMutualIff(View(), ch);
      hide Mutual, ChannelsFiled;
      stream := Create(ch);
    }

    /** The half of `OpenReader` under the write lock. */
    method Create(ch: ChannelId) returns (stream: OpenStream<T>)
      modifies this
      ensures View() == OnCreate(old(View()), ch) && streamId == old(streamId) + 1
      ensures fresh(stream) && fresh(stream.writer) && stream.ref == Ref(ch, streamId)
      ensures subs == old(subs)[ch := stream] && streams == old(streams)[streamId := stream]
    {
      streamId := streamId + 1;
      stream := new OpenStream<T>(Ref(ch, streamId));
      subs := subs[ch := stream];
      streams := streams[streamId := stream];
      assert View().subs == OnCreate(old(View()), ch).subs;
      assert View().streams == OnCreate(old(View()), ch).streams;
    }

    method CloseStream(ch: ChannelId, unsubscribed: bool) returns (r: StreamResult<T>)
      requires Valid()
      modifies this`subs, this`streams, if ch in subs then {subs[ch].writer} else {}
      ensures Valid() && View() == if unsubscribed then OnClose(old(View()), ch) else old(View())
      ensures r == if ch !in old(subs) then NotFound
                   else if unsubscribed then Found(old(subs[ch])) else UnsubscribeFailed
      ensures r.UnsubscribeFailed? || r.NotFound? ==>
                subs == old(subs) && streams == old(streams)
      ensures r.Found? ==> r.stream.writer.View() == BufferedStream.OnClose(old(subs[ch].writer.View()))
    {
      if ch !in subs {
        return NotFound;
      }
      var stream := subs[ch];
      if !unsubscribed {
        return UnsubscribeFailed;
      }
      forall other | other in subs && other != ch ensures subs[other].ref.streamId != stream.ref.streamId {
        assert View().subs[other].channelId == other && View().subs[ch].channelId == ch;
      }
      CloseKeepsMutual(View(), ch);
      subs := subs - {stream.ref.channelId};
      streams := streams - {stream.ref.streamId};
      assert View() == OnClose(old(View()), ch);
      stream.writer.Close();
      assert View() == OnClose(old(View()), ch);
      return Found(stream);
    }

    method GetWriter(id: StreamId) returns (r: StreamResult<T>)
      ensures r == if id in streams then Found(streams[id]) else NotFound
    {
      if id !in streams {
        return NotFound;
      }
      return Found(streams[id]);
    }
  }

  lemma CreateFiles(x: Index, ch: ChannelId)
    requires ChannelsFiled(x) && IdsIssued(x)
    ensures ChannelsFiled(OnCreate(x, ch)) && IdsIssued(OnCreate(x, ch))
  {
  }

  /** Creating a stream keeps the tables inverse exactly if its channel has no stream by then. */
  lemma CreateKeepsMutualIff(x: Index, ch: ChannelId)
    requires Mutual(x) && IdsIssued(x)
    ensures Mutual(OnCreate(x, ch)) <==> ch !in x.subs
  {
    var y := OnCreate(x, ch);
    CreateFiles(x, ch);
    if ch in x.subs {
      assert !Current(y, x.subs[ch].streamId);
    } else {
      forall id | id in y.streams ensures Current(y, id) {
        assert id in x.streams ==> Current(x, id);
      }
    }
  }

  lemma CloseKeepsFiled(x: Index, ch: ChannelId)
    requires ChannelsFiled(x) && IdsIssued(x)
    ensures ChannelsFiled(OnClose(x, ch)) && IdsIssued(OnClose(x, ch))
  {
  }

  lemma CloseKeepsMutual(x: Index, ch: ChannelId)
    requires Mutual(x) && IdsIssued(x)
    ensures Mutual(OnClose(x, ch)) && IdsIssued(OnClose(x, ch))
  {
    CloseKeepsFiled(x, ch);
    forall id | id in OnClose(x, ch).streams ensures Current(OnClose(x, ch), id) {
      assert Current(x, id);
    }
  }

  // ---------- concurrent callers: `OpenReader` takes a read lock, then the write lock ----------

  /** `opening` holds the callers that found no stream and wait for the write lock; the last
      three fields are logs. */
  datatype State = State(index: Index, opening: map<nat, ChannelId>,
                         created: seq<Ref>, returned: set<Ref>, closed: set<StreamId>)

  datatype Step =
    | LookUp(caller: nat, ch: ChannelId)
    | Create(caller: nat)
    | CloseStream(ch: ChannelId, unsubscribed: bool)

  const INIT := State(Index(map[], map[], 0), map[], [], {}, {})

  predicate Enabled(s: State, step: Step) {
    match step
    case LookUp(caller, _) => caller !in s.opening
    case Create(caller) => caller in s.opening
    case CloseStream(_, _) => true
  }

  function Do(s: State, step: Step): State
    requires Enabled(s, step)
  {
    match step
    case LookUp(caller, ch) =>
      if ch in s.index.subs then s.(returned := s.returned + {s.index.subs[ch]})
      else s.(opening := s.opening[caller := ch])
    case Create(caller) =>
      var ref := Ref(s.opening[caller], s.index.streamId + 1);
      s.(index := OnCreate(s.index, s.opening[caller]), opening := s.opening - {caller},
         created := s.created + [ref], returned := s.returned + {ref})
    case CloseStream(ch, unsubscribed) =>
      if unsubscribed && ch in s.index.subs
      then s.(index := OnClose(s.index, ch), closed := s.closed + {s.index.subs[ch].streamId})
      else s
  }

  ghost predicate Legal(s: State, steps: seq<Step>)
    decreases steps
  {
    steps == [] || (Enabled(s, steps[0]) && Legal(Do(s, steps[0]), steps[1..]))
  }

  ghost function Run(s: State, steps: seq<Step>): State
    requires Legal(s, steps)
    decreases steps
  {
    if steps == [] then s else Run(Do(s, steps[0]), steps[1..])
  }

  /** The `i`-th stream ever created got the ID `i + 1`, and is open or closed. */
  predicate Accounted(s: State) {
    && |s.created| == s.index.streamId
    && (forall i :: 0 <= i < |s.created| ==> s.created[i].streamId == i + 1)
    && (forall id :: 0 < id <= |s.created| ==> (id in s.index.streams <==> id !in s.closed))
    && (forall id :: id in s.index.streams ==> 0 < id <= |s.created| && s.index.streams[id] == s.created[id - 1])
    && (forall id :: id in s.closed ==> 0 < id <= |s.created|)
  }

  predicate Inv(s: State) {
    && ChannelsFiled(s.index) && IdsIssued(s.index) && Accounted(s)
    && forall ref :: ref in s.returned ==> ref in s.created
  }

  /** Closing a channel without a stream, or whose subscription cannot be ended, changes nothing;
      otherwise exactly the channel's stream is closed and leaves both tables. */
  lemma CloseIsAllOrNothing(s: State, ch: ChannelId, unsubscribed: bool)
    requires Inv(s)
    ensures var t := Do(s, CloseStream(ch, unsubscribed));
            if !unsubscribed || ch !in s.index.subs then t == s else
              var id := s.index.subs[ch].streamId;
              && id !in s.closed && t.closed == s.closed + {id}
              && t.index.subs == s.index.subs - {ch} && t.index.streams == s.index.streams - {id}
              && t.index.streamId == s.index.streamId && t.created == s.created && t.returned == s.returned
  {
  }

  lemma StepKeepsInv(s: State, step: Step)
    requires Inv(s) && Enabled(s, step)
    ensures Inv(Do(s, step))
  {
    match step
    case LookUp(_, ch) =>
      if ch in s.index.subs {
        var ref := s.index.subs[ch];
        assert s.index.streams[ref.streamId] == s.created[ref.streamId - 1];
      }
    case Create(caller) =>
      CreateFiles(s.index, s.opening[caller]);
    case CloseStream(ch, _) =>
      CloseKeepsFiled(s.index, ch);
  }

  lemma {:induction false} RunKeepsInv(s: State, steps: seq<Step>)
    requires Inv(s) && Legal(s, steps)
    ensures Inv(Run(s, steps))
    decreases steps
  {
    if steps != [] {
      StepKeepsInv(s, steps[0]);
      RunKeepsInv(Do(s, steps[0]), steps[1..]);
    }
  }

  lemma ReachableInv(steps: seq<Step>)
    requires Legal(INIT, steps)
    ensures Inv(Run(INIT, steps))
  {
    RunKeepsInv(INIT, steps);
  }

  /** However calls interleave, stream IDs are distinct, and the ID of a reader that was handed
      out finds that reader's own stream for as long as nobody has closed it, and no longer. */
  lemma WriterUntilClosed(steps: seq<Step>, ref: Ref)
    requires Legal(INIT, steps) && ref in Run(INIT, steps).returned
    ensures var s := Run(INIT, steps);
            && (if ref.streamId in s.closed then ref.streamId !in s.index.streams
                else ref.streamId in s.index.streams && s.index.streams[ref.streamId] == ref)
            && (forall other :: other in s.returned && other.streamId == ref.streamId ==> other == ref)
  {
    ReachableInv(steps);
    var s := Run(INIT, steps);
    var i :| 0 <= i < |s.created| && s.created[i] == ref;
    assert ref.streamId == i + 1 && (i + 1 in s.index.streams <==> i + 1 !in s.closed);
    forall other | other in s.returned && other.streamId == ref.streamId ensures other == ref {
      var j :| 0 <= j < |s.created| && s.created[j] == other;
    }
  }

  lemma ClosedGrows(s: State, step: Step)
    requires Enabled(s, step)
    ensures s.closed <= Do(s, step).closed
  {
  }

  /** No stream is ever created under the ID of a closed one. */
  lemma {:induction false} ClosedForGood(s: State, steps: seq<Step>, id: StreamId)
    requires Inv(s) && Legal(s, steps) && id in s.closed
    ensures id in Run(s, steps).closed && id !in Run(s, steps).index.streams
    decreases steps
  {
    if steps == [] {
      assert s.created[id - 1].streamId == id;
    } else {
      StepKeepsInv(s, steps[0]);
      ClosedGrows(s, steps[0]);
      ClosedForGood(Do(s, steps[0]), steps[1..], id);
    }
  }

  // ---------- when the two tables stay inverse ----------

  /** An open stream that no channel leads to any more. */
  predicate Orphan(x: Index, id: StreamId) {
    id in x.streams && !Current(x, id)
  }

  lemma StepKeepsOrphan(s: State, step: Step, id: StreamId)
    requires Inv(s) && Enabled(s, step) && Orphan(s.index, id)
    ensures Orphan(Do(s, step).index, id)
  {
  }

  /** `CloseStream` goes by the channel, so it can never close an orphaned stream. */
  lemma {:induction false} OrphanEscapesCloseStream(s: State, steps: seq<Step>, id: StreamId)
    requires Inv(s) && Legal(s, steps) && Orphan(s.index, id)
    ensures Orphan(Run(s, steps).index, id) && id !in Run(s, steps).closed
    decreases steps
  {
    if steps == [] {
      assert s.created[id - 1].streamId == id;
    } else {
      StepKeepsInv(s, steps[0]);
      StepKeepsOrphan(s, steps[0], id);
      OrphanEscapesCloseStream(Do(s, steps[0]), steps[1..], id);
    }
  }

  /** Whenever a caller gets the write lock, its channel still has no stream. */
  ghost predicate NoOverwrite(s: State, steps: seq<Step>)
    requires Legal(s, steps)
    decreases steps
  {
    steps == [] ||
    (&& (steps[0].Create? ==> s.opening[steps[0].caller] !in s.index.subs)
     && NoOverwrite(Do(s, steps[0]), steps[1..]))
  }

  lemma StepKeepsMutualIff(s: State, step: Step)
    requires Inv(s) && Mutual(s.index) && Enabled(s, step)
    ensures Mutual(Do(s, step).index) <==> (step.Create? ==> s.opening[step.caller] !in s.index.subs)
  {
    match step
    case LookUp(_, _) =>
    case Create(caller) => CreateKeepsMutualIff(s.index, s.opening[caller]);
    case CloseStream(ch, _) => CloseKeepsMutual(s.index, ch);
  }

  /** The tables are inverse after a run exactly if no caller of the run created a stream for
      a channel that had got one since the caller looked: one overwrite is never repaired. */
  lemma {:induction false} MutualIff(s: State, steps: seq<Step>)
    requires Inv(s) && Mutual(s.index) && Legal(s, steps)
    ensures Mutual(Run(s, steps).index) <==> NoOverwrite(s, steps)
    decreases steps
  {
    if steps != [] {
      var s' := Do(s, steps[0]);
      StepKeepsInv(s, steps[0]);
      StepKeepsMutualIff(s, steps[0]);
      if Mutual(s'.index) {
        MutualIff(s', steps[1..]);
      } else {
        var id :| id in s'.index.streams && !Current(s'.index, id);
        OrphanEscapesCloseStream(s', steps[1..], id);
      }
    }
  }

  /** Two callers that both look before either creates leave a stream that no later call of
      `CloseStream` closes. */
  lemma RaceLeavesOrphan(ch: ChannelId, more: seq<Step>)
    requires Legal(Raced(ch), more)
    ensures var race := [LookUp(0, ch), LookUp(1, ch), Create(0), Create(1)];
            Legal(INIT, race) && Run(INIT, race) == Raced(ch) && !NoOverwrite(INIT, race)
    ensures var t := Run(Raced(ch), more); 1 in t.index.streams && 1 !in t.closed && !Mutual(t.index)
  {
    var race := [LookUp(0, ch), LookUp(1, ch), Create(0), Create(1)];
    var s1 := Do(INIT, LookUp(0, ch));
    var s2 := Do(s1, LookUp(1, ch));
    var s3 := Do(s2, Create(0));
    var s4 := Do(s3, Create(1));
    assert race[1..] == [LookUp(1, ch), Create(0), Create(1)];
    assert race[1..][1..] == [Create(0), Create(1)];
    assert race[1..][1..][1..] == [Create(1)];
    assert race[1..][1..][1..][1..] == [];
    assert s4 == Raced(ch);
    assert Legal(s3, [Create(1)]) && Run(s3, [Create(1)]) == s4;
    assert Legal(s2, race[1..][1..]) && Run(s2, race[1..][1..]) == s4;
    assert Legal(s1, race[1..]) && Run(s1, race[1..]) == s4;
    ReachableInv(race);
    assert Orphan(s4.index, 1);
    MutualIff(INIT, race);
    OrphanEscapesCloseStream(s4, more, 1);
  }

  function Raced(ch: ChannelId): State {
    State(Index(map[ch := Ref(ch, 2)], map[1 := Ref(ch, 1), 2 := Ref(ch, 2)], 2),
          map[], [Ref(ch, 1), Ref(ch, 2)], {Ref(ch, 1), Ref(ch, 2)}, {})
  }

  /** A call of `OpenReader` that nobody interrupts is the atomic one. */
  lemma UninterruptedOpen(s: State, caller: nat, ch: ChannelId)
    requires Inv(s) && Mutual(s.index) && caller !in s.opening
    ensures var steps := if ch in s.index.subs then [LookUp(caller, ch)] else [LookUp(caller, ch), Create(caller)];
            && Legal(s, steps) && NoOverwrite(s, steps)
            && Run(s, steps).index == OnOpen(s.index, ch)
            && Mutual(OnOpen(s.index, ch)) && OnOpen(s.index, ch).subs[ch] in Run(s, steps).returned
  {
    var s1 := Do(s, LookUp(caller, ch));
    CreateKeepsMutualIff(s.index, ch);
    if ch !in s.index.subs {
      var steps := [LookUp(caller, ch), Create(caller)];
      assert steps[1..] == [Create(caller)] && steps[1..][1..] == [];
      assert Legal(s1, [Create(caller)]) && NoOverwrite(s1, [Create(caller)]);
      assert [Create(caller)][1..] == [] && Run(s1, [Create(caller)]) == Do(s1, Create(caller));
    } else {
      assert [LookUp(caller, ch)][1..] == [];
    }
  }
}
