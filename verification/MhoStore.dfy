/** The store and its watchers as the objects they are: values shared by reference, records
    replaced under a lock, and one copy of each event set on its way to every watcher. */
module MhoStore {
  import opened UeKey
  import opened HandoverTypes

  /** `*store.MetricValue`. Handlers write `state` in place. */
  class Metric {
    var rawUeId: UeId
    var tgtCellId: string
    var state: MHOState
    var callProcessId: seq<Byte>
    var e2NodeId: NodeId

    constructor (v: MetricValue)
      ensures Value() == v
    {
      rawUeId, tgtCellId, state := v.rawUeId, v.tgtCellId, v.state;
      callProcessId, e2NodeId := v.callProcessId, v.e2NodeId;
    }

    ghost function Value(): MetricValue
      reads this
    {
      MetricValue(rawUeId, tgtCellId, state, callProcessId, e2NodeId)
    }
  }

  datatype Entry = Entry(key: string, value: Metric)

  type Uuid = nat

  /** A registered channel with its own ID. It is first filed under that ID, but need not stay
      so: a removal files it under another. */
  datatype Watcher = Watcher(id: Uuid, ch: Recipient)

  /** No two watchers share a channel. */
  ghost predicate DistinctChannels(m: map<Uuid, Watcher>) {
    forall a, b :: a in m && b in m && m[a].ch == m[b].ch ==> a == b
  }

  function ChannelsOf(m: map<Uuid, Watcher>): set<Recipient> {
    set key | key in m :: m[key].ch
  }

  /** The keys of the watchers whose own ID is another. */
  function Others(m: map<Uuid, Watcher>, id: Uuid): set<Uuid> {
    set key | key in m && m[key].id != id
  }

  /** What the loop of `RemoveWatcher` can leave behind: it files every other watcher under
      the removed ID, so the one visited last survives. */
  ghost predicate IsRemoval(before: map<Uuid, Watcher>, id: Uuid, after: map<Uuid, Watcher>) {
    var others := Others(before, id);
    if others == {} then after == map[]
    else after.Keys == {id} && exists key :: key in others && after[id] == before[key]
  }

  /** Removal keeps the channels of the other watchers exactly if there is at most one other. */
  lemma RemovalKeepsOthersIff(before: map<Uuid, Watcher>, id: Uuid, after: map<Uuid, Watcher>)
    requires DistinctChannels(before) && IsRemoval(before, id, after)
    ensures ChannelsOf(after) == (set key | key in Others(before, id) :: before[key].ch)
       <==> |Others(before, id)| <= 1
  {
    var others := Others(before, id);
    var wanted := set key | key in others :: before[key].ch;
    if others != {} {
      var key :| key in others && after[id] == before[key];
      assert ChannelsOf(after) == {before[key].ch} by {
        assert id in after;
      }
      if |others| <= 1 {
        assert |others - {key}| == 0;
        assert others == {key};
      } else {
        assert |others - {key}| >= 1;
        var second :| second in others - {key};
        assert before[second].ch in wanted && before[second].ch != before[key].ch;
      }
    }
  }

  /** From two or more watchers under their own IDs, removing one leaves one of the others,
      filed under the removed ID; removing that one finds it by its own ID and leaves nothing. */
  lemma TwoRemovalsLeaveNothing(m: map<Uuid, Watcher>, id: Uuid, after: map<Uuid, Watcher>, last: map<Uuid, Watcher>)
    requires (forall key :: key in m ==> m[key].id == key) && id in m && |m| >= 2
    requires IsRemoval(m, id, after)
    ensures id in after && after[id].id != id
    ensures IsRemoval(after, after[id].id, last) ==> last == map[]
  {
    var others := Others(m, id);
    assert others == m.Keys - {id} && |others| == |m| - 1;
    var key :| key in others && after[id] == m[key];
    assert Others(after, after[id].id) == {};
  }

  class Watchers {
    var watchers: map<Uuid, Watcher>
    /** The sends of the spawned goroutines that no watcher has received yet. */
    var inFlight: multiset<Delivery>

    /** Every `Watch` call brings its own channel. */
    ghost predicate Valid()
      reads this
    {
      DistinctChannels(watchers)
    }

    ghost function Recipients(): set<Recipient>
      reads this
    {
      ChannelsOf(watchers)
    }

    constructor ()
      ensures watchers == map[] && inFlight == multiset{}
    {
      watchers := map[];
      inFlight := multiset{};
    }

    method Send(event: Event)
      requires Valid()
      modifies this`inFlight
      ensures inFlight == old(inFlight) + FanOut(Recipients(), event)
    {
      var todo := watchers.Keys;
      ghost var done: set<Recipient> := {};
      while todo != {}
        invariant todo <= watchers.Keys
        invariant forall id :: id in watchers ==> (watchers[id].ch in done <==> id !in todo)
        invariant done <= Recipients()
        invariant inFlight == old(inFlight) + FanOut(done, event)
        decreases todo
      {
        var id :| id in todo;
        FanOutGrows(done, watchers[id].ch, event);
        inFlight := inFlight + multiset{Delivery(event, watchers[id].ch)};
        done := done + {watchers[id].ch};
        todo := todo - {id};
      }
      assert done == Recipients();
    }

    method AddWatcher(id: Uuid, ch: Recipient)
      modifies this`watchers
      ensures watchers == old(watchers)[id := Watcher(id, ch)]
      ensures old(Valid()) && ch !in old(Recipients()) ==> Valid()
    {
      watchers := watchers[id := Watcher(id, ch)];
    }

    method RemoveWatcher(id: Uuid)
      modifies this`watchers
      ensures IsRemoval(old(watchers), id, watchers)
    {
      var kept: map<Uuid, Watcher> := map[];
      var todo := watchers.Keys;
      while todo != {}
        invariant todo <= watchers.Keys
        invariant var seen := Others(watchers, id) - todo;
                  if seen == {} then kept == map[]
                  else kept.Keys == {id} && exists key :: key in seen && kept[id] == watchers[key]
        decreases todo
      {
        var key :| key in todo;
        ghost var seen := Others(watchers, id) - todo;
        todo := todo - {key};
        if watchers[key].id != id {
          kept := kept[id := watchers[key]];
          assert key in Others(watchers, id) - todo && kept[id] == watchers[key];
        } else {
          assert Others(watchers, id) - todo == seen;
        }
      }
      assert Others(watchers, id) - todo == Others(watchers, id);
      watchers := kept;
    }
  }

  lemma FanOutGrows(done: set<Recipient>, r: Recipient, e: Event)
    requires r !in done
    ensures FanOut(done, e) + multiset{Delivery(e, r)} == FanOut(done + {r}, e)
  {
  }

  datatype GetResult = Found(entry: Entry) | NotFound

  class Store {
    var records: map<string, Entry>
    const watchers: Watchers

    ghost predicate Valid()
      reads this, watchers
    {
      watchers.Valid() && forall key :: key in records ==> records[key].key == key
    }

    /** The values the records refer to. */
    ghost function Objects(): set<Metric>
      reads this
    {
      set key | key in records :: records[key].value
    }

    ghost function Contents(): map<string, MetricValue>
      reads this, Objects()
    {
      map key | key in records :: records[key].value.Value()
    }

    ghost function View(): StoreView
      reads this, watchers, Objects()
    {
      StoreView(Contents(), watchers.inFlight)
    }

    /** Every value is that of a gNB UE and filed under its own key, so no two keys share one. */
    ghost predicate WellKeyed()
      reads this, Objects()
    {
      forall key :: key in records ==> RendersTo(records[key].value.rawUeId, key)
    }

    constructor ()
      ensures Valid() && WellKeyed() && Contents() == map[]
      ensures fresh(watchers) && watchers.watchers == map[] && watchers.inFlight == multiset{}
    {
      records := map[];
      watchers := new Watchers();
    }

    method Put(key: string, value: Metric, state: MHOState) returns (entry: Entry)
      requires Valid()
      modifies this`records, watchers`inFlight
      ensures Valid() && entry == Entry(key, value)
      ensures records == old(records)[key := entry]
      ensures watchers.inFlight == old(watchers.inFlight)
                                   + FanOut(watchers.Recipients(),
                                            Event(key, if key in old(records) then Updated else Created, state))
      ensures Contents() == old(Contents())[key := value.Value()]
    {
      entry := Entry(key, value);
      if key !in records {
        records := records[key := entry];
        watchers.Send(Event(key, Created, state));
        return;
      }
      records := records[key := entry];
      watchers.Send(Event(key, Updated, state));
    }

    method Get(key: string) returns (r: GetResult)
      ensures r == if key in records then Found(records[key]) else NotFound
    {
      if key in records {
        return Found(records[key]);
      }
      return NotFound;
    }

    method HasEntry(key: string) returns (present: bool)
      ensures present <==> key in records
    {
      present := key in records;
    }

    /** Sends every entry once, in no particular order. */
    method Entries() returns (ch: seq<Entry>)
      requires Valid()
      ensures |ch| == |records|
      ensures forall i, j :: 0 <= i < j < |ch| ==> ch[i].key != ch[j].key
      ensures forall i :: 0 <= i < |ch| ==> ch[i].key in records && ch[i] == records[ch[i].key]
      ensures forall key :: key in records ==> records[key] in ch
    {
      ch := [];
      var todo := records.Keys;
      while todo != {}
        invariant todo <= records.Keys && |ch| + |todo| == |records.Keys|
        invariant forall i, j :: 0 <= i < j < |ch| ==> ch[i].key != ch[j].key
        invariant forall i :: 0 <= i < |ch| ==> ch[i].key in records && ch[i].key !in todo && ch[i] == records[ch[i].key]
        invariant forall key :: key in records && key !in todo ==> records[key] in ch
        decreases todo
      {
        var key :| key in todo;
        ch := ch + [records[key]];
        todo := todo - {key};
      }
    }

    method Watch(id: Uuid, ch: Recipient)
      requires Valid() && ch !in watchers.Recipients()
      modifies watchers`watchers
      ensures Valid() && watchers.watchers == old(watchers.watchers)[id := Watcher(id, ch)]
    {
      watchers.AddWatcher(id, ch);
    }

    /** What the goroutine started by `Watch` does once the caller's context is cancelled. */
    method Unwatch(id: Uuid)
      modifies watchers`watchers
      ensures IsRemoval(old(watchers.watchers), id, watchers.watchers)
    {
      watchers.RemoveWatcher(id);
    }
  }
}
