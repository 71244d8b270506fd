/** Values, events and the three handlers' decisions, shared by every model of the protocol. */
module HandoverTypes {
  import opened UeKey

  type NodeId = string

  datatype MHOState = StateCreated | Waiting | Approved | Denied | Done

  datatype MetricValue = MetricValue(rawUeId: UeId, tgtCellId: string, state: MHOState,
                                     callProcessId: seq<Byte>, e2NodeId: NodeId)

  datatype EventType = NoEvent | Created | Updated | Deleted

  /** The source's event also carries the entry; no handler reads it. */
  datatype Event = Event(key: string, eventType: EventType, state: MHOState)

  /** The watchers of the store: the controller, and one sender per E2 node. */
  datatype Recipient = Controller | Node(id: NodeId)

  /** One event on its way to one watcher. */
  datatype Delivery = Delivery(event: Event, to: Recipient)

  /** A decoded indication as the monitor of `node` sees it. */
  datatype Indication = Indication(node: NodeId, rawUeId: UeId, tgtCellId: string, callProcessId: seq<Byte>)

  /** One call of `node.Control`; whether it succeeds is not observed. */
  datatype Control = Control(node: NodeId, rawUeId: UeId, tgtCellId: string, callProcessId: seq<Byte>)

  /** `u` is a gNB UE ID and `key` is the store key it renders to. */
  predicate RendersTo(u: UeId, key: string) {
    u.GnbUeId? && GenerateGnbUeIDString(u.gnb) == key
  }

  function FreshValue(ind: Indication): MetricValue {
    MetricValue(ind.rawUeId, ind.tgtCellId, StateCreated, ind.callProcessId, ind.node)
  }

  function ControlFor(v: MetricValue): Control {
    Control(v.e2NodeId, v.rawUeId, v.tgtCellId, v.callProcessId)
  }

  /** The indication whose fields a value carries; only `state` is not among them. */
  function OriginOf(v: MetricValue): Indication {
    Indication(v.e2NodeId, v.rawUeId, v.tgtCellId, v.callProcessId)
  }

  function EventFor(present: bool, key: string, state: MHOState): Event {
    Event(key, if present then Updated else Created, state)
  }

  /** One copy of the event for every watcher. */
  function FanOut(ws: set<Recipient>, e: Event): (m: multiset<Delivery>)
    ensures forall d :: m[d] == if d.event == e && d.to in ws then 1 else 0
  {
    multiset(set r | r in ws :: Delivery(e, r))
  }

  /** The events of one UE and state on their way to one watcher. */
  function Copies(m: multiset<Delivery>, key: string, state: MHOState, r: Recipient): nat {
    m[Delivery(Event(key, Created, state), r)] + m[Delivery(Event(key, Updated, state), r)]
  }

  lemma CopiesAfterPut(ws: set<Recipient>, m: multiset<Delivery>, d: Delivery, put: Event,
                       key: string, state: MHOState, r: Recipient)
    requires d in m && d.event.eventType in {Created, Updated} && put.eventType in {Created, Updated}
    ensures Copies(m - multiset{d} + FanOut(ws, put), key, state, r) == Copies(m, key, state, r)
            - (if d.event.key == key && d.event.state == state && d.to == r then 1 else 0)
            + (if put.key == key && put.state == state && r in ws then 1 else 0)
  {
    var t := m - multiset{d};
    var c, u := Delivery(Event(key, Created, state), r), Delivery(Event(key, Updated, state), r);
    assert (t + FanOut(ws, put))[c] == t[c] + FanOut(ws, put)[c];
    assert (t + FanOut(ws, put))[u] == t[u] + FanOut(ws, put)[u];
  }

  // ---------- what each handler decides, given the records it reads ----------

  datatype Decision =
    | Ignore
    | Unsupported
    | Panic
    | PutValue(key: string, value: MetricValue, state: MHOState)

  /** The monitor: create, replace on a changed target, re-trigger a denied entry, or ignore. */
  function OnIndication(records: map<string, MetricValue>, ind: Indication): Decision {
    if !ind.rawUeId.GnbUeId? then Unsupported else
      var key := GenerateGnbUeIDString(ind.rawUeId.gnb);
      if key !in records then PutValue(key, FreshValue(ind), StateCreated)
      else if records[key].tgtCellId != ind.tgtCellId then PutValue(key, FreshValue(ind), StateCreated)
      else if records[key].state == Denied then PutValue(key, records[key], Denied)
      else Ignore
  }

  /** The event types a handler looks up the entry for. */
  predicate Reads(r: Recipient, e: Event) {
    match r
    case Controller => e.eventType == Created || e.eventType == Updated
    case Node(_) => e.eventType == Updated
  }

  /** Whether a handler acts on the entry `v` it has read. */
  predicate Acts(r: Recipient, e: Event, v: MetricValue) {
    match r
    case Controller => e.state == StateCreated || e.state == Denied
    case Node(n) => e.state == Approved && v.e2NodeId == n
  }

  /** The controller approves; a sender marks done after its control attempt. */
  function StateWritten(r: Recipient): MHOState {
    match r
    case Controller => Approved
    case Node(_) => Done
  }

  /** One iteration of the controller's or a sender's event loop. The handlers never use the
      value in the event but re-read the entry; a missing entry is a nil dereference. */
  function OnEvent(records: map<string, MetricValue>, r: Recipient, e: Event): Decision {
    if !Reads(r, e) then Ignore
    else if e.key !in records then Panic
    else if Acts(r, e, records[e.key])
      then PutValue(e.key, records[e.key].(state := StateWritten(r)), StateWritten(r))
    else Ignore
  }

  // ---------- the store as a value ----------

  datatype StoreView = StoreView(records: map<string, MetricValue>, inFlight: multiset<Delivery>)

  function Apply(ws: set<Recipient>, v: StoreView, d: Decision): StoreView {
    if d.PutValue? then
      StoreView(v.records[d.key := d.value], v.inFlight + FanOut(ws, EventFor(d.key in v.records, d.key, d.state)))
    else v
  }
}
