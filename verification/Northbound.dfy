/** The northbound listings of UEs and cells, and their agreement over the same store. */
module Northbound {
  import opened UeKey
  import opened HandoverTypes
  import opened MhoStore
  import opened Decimals
  import Handover
  import Interleaving

  datatype UE = UE(ueId: string, hoState: string, cgi: string)

  datatype Cell = Cell(cgi: string, numUes: nat)

  function StateName(s: MHOState): string {
    match s
    case StateCreated => "StateCreated"
    case Waiting => "Waiting"
    case Approved => "Approved"
    case Denied => "Denied"
    case Done => "Done"
  }

  function UeOf(v: MetricValue): UE
    requires v.rawUeId.GnbUeId?
  {
    UE(DecimalInt(v.rawUeId.gnb.amfUeNgapId), StateName(v.state), v.tgtCellId)
  }

  /** What the listing shows of a UE: its NGAP ID in decimal, its state by name, its target. */
  ghost predicate Shows(ue: UE, v: MetricValue)
    requires v.rawUeId.GnbUeId?
  {
    && ReadsAs(ue.ueId, v.rawUeId.gnb.amfUeNgapId)
    && ue.cgi == v.tgtCellId
    && (v.state == StateCreated <==> ue.hoState == "StateCreated")
    && (v.state == Waiting <==> ue.hoState == "Waiting")
    && (v.state == Approved <==> ue.hoState == "Approved")
    && (v.state == Denied <==> ue.hoState == "Denied")
    && (v.state == Done <==> ue.hoState == "Done")
  }

  lemma UeOfShows(v: MetricValue)
    requires v.rawUeId.GnbUeId?
    ensures Shows(UeOf(v), v)
  {
    DecimalIntReads(v.rawUeId.gnb.amfUeNgapId);
    hide ReadsAs, DecimalInt;
  }

  // ---------- what the two listings are, over the contents of a store ----------

  /** The keys both listings go by: entries of other kinds of UE are skipped. */
  function Listed(c: map<string, MetricValue>): set<string> {
    set key | key in c && c[key].rawUeId.GnbUeId?
  }

  function Members(c: map<string, MetricValue>, cgi: string): set<string> {
    set key | key in Listed(c) && c[key].tgtCellId == cgi
  }

  /** `ues` lists each gNB UE of the store once, in the order `keys`. */
  ghost predicate ListsUes(c: map<string, MetricValue>, ues: seq<UE>, keys: seq<string>) {
    && |ues| == |keys|
    && (forall i, j :: 0 <= i < j < |keys| ==> keys[i] != keys[j])
    && (forall i :: 0 <= i < |keys| ==> keys[i] in Listed(c) && Shows(ues[i], c[keys[i]]))
    && (forall key :: key in Listed(c) ==> key in keys)
  }

  predicate HasCell(cells: seq<Cell>, cgi: string) {
    exists i :: 0 <= i < |cells| && cells[i].cgi == cgi
  }

  /** `cells` lists each cell that some gNB UE targets once, with the number of such UEs. */
  ghost predicate ListsCells(c: map<string, MetricValue>, cells: seq<Cell>) {
    && (forall i, j :: 0 <= i < j < |cells| ==> cells[i].cgi != cells[j].cgi)
    && (forall i :: 0 <= i < |cells| ==> cells[i].numUes == |Members(c, cells[i].cgi)| && cells[i].numUes > 0)
    && (forall key :: key in Listed(c) ==> HasCell(cells, c[key].tgtCellId))
  }

  // ---------- the two listings agree ----------

  function CountWithCgi(ues: seq<UE>, cgi: string): nat {
    if ues == [] then 0 else CountWithCgi(ues[..|ues| - 1], cgi) + (if ues[|ues| - 1].cgi == cgi then 1 else 0)
  }

  function SumNumUes(cells: seq<Cell>): nat {
    if cells == [] then 0 else SumNumUes(cells[..|cells| - 1]) + cells[|cells| - 1].numUes
  }

  /** The keys listed so far that target a cell. */
  function SeenIn(c: map<string, MetricValue>, keys: seq<string>, cgi: string): set<string> {
    set key | key in keys && key in c && c[key].tgtCellId == cgi
  }

  lemma {:induction false} CountIsSeen(c: map<string, MetricValue>, ues: seq<UE>, keys: seq<string>, cgi: string)
    requires |ues| == |keys| && forall i, j :: 0 <= i < j < |keys| ==> keys[i] != keys[j]
    requires forall i :: 0 <= i < |keys| ==> keys[i] in c && ues[i].cgi == c[keys[i]].tgtCellId
    ensures CountWithCgi(ues, cgi) == |SeenIn(c, keys, cgi)|
  {
    if keys == [] {
      assert SeenIn(c, keys, cgi) == {};
    } else {
      var before, last := keys[..|keys| - 1], keys[|keys| - 1];
      CountIsSeen(c, ues[..|ues| - 1], before, cgi);
      assert keys == before + [last];
      SeenGrows(c, before, last, cgi);
    }
  }

  lemma SeenGrows(c: map<string, MetricValue>, keys: seq<string>, key: string, cgi: string)
    requires key in c && key !in keys
    ensures |SeenIn(c, keys + [key], cgi)| == |SeenIn(c, keys, cgi)| + (if c[key].tgtCellId == cgi then 1 else 0)
    ensures SeenIn(c, keys, cgi) <= SeenIn(c, keys + [key], cgi)
  {
    if c[key].tgtCellId == cgi {
      assert SeenIn(c, keys + [key], cgi) == SeenIn(c, keys, cgi) + {key};
    } else {
      assert SeenIn(c, keys + [key], cgi) == SeenIn(c, keys, cgi);
    }
  }

  /** The listed keys that target one of the first cells. */
  function Covered(c: map<string, MetricValue>, cells: seq<Cell>): set<string> {
    set key | key in Listed(c) && HasCell(cells, c[key].tgtCellId)
  }

  lemma HasCellGrows(cells: seq<Cell>, last: Cell, cgi: string)
    ensures HasCell(cells + [last], cgi) <==> HasCell(cells, cgi) || last.cgi == cgi
  {
    if HasCell(cells, cgi) {
      var i :| 0 <= i < |cells| && cells[i].cgi == cgi;
      assert (cells + [last])[i].cgi == cgi;
    }
    assert (cells + [last])[|cells|] == last;
  }

  lemma CoveredGrows(c: map<string, MetricValue>, cells: seq<Cell>, last: Cell)
    requires !HasCell(cells, last.cgi)
    ensures |Covered(c, cells + [last])| == |Covered(c, cells)| + |Members(c, last.cgi)|
  {
    hide HasCell;
    forall cgi: string ensures HasCell(cells + [last], cgi) <==> HasCell(cells, cgi) || last.cgi == cgi {
      HasCellGrows(cells, last, cgi);
    }
    assert Covered(c, cells + [last]) == Covered(c, cells) + Members(c, last.cgi);
  }

  lemma {:induction false} SumIsCovered(c: map<string, MetricValue>, cells: seq<Cell>)
    requires forall i, j :: 0 <= i < j < |cells| ==> cells[i].cgi != cells[j].cgi
    requires forall i :: 0 <= i < |cells| ==> cells[i].numUes == |Members(c, cells[i].cgi)|
    ensures SumNumUes(cells) == |Covered(c, cells)|
  {
    if cells == [] {
      assert Covered(c, cells) == {};
    } else {
      var before, last := cells[..|cells| - 1], cells[|cells| - 1];
      SumIsCovered(c, before);
      assert cells == before + [last];
      hide Covered, Members;
      CoveredGrows(c, before, last);
    }
  }

  /** A cell is listed with as many UEs as the UE list has with its CGI, and the counts add
      up to the length of the UE list, whatever order each listing found the entries in. */
  lemma ListingsAgree(c: map<string, MetricValue>, ues: seq<UE>, keys: seq<string>, cells: seq<Cell>)
    requires ListsUes(c, ues, keys) && ListsCells(c, cells)
    ensures forall i :: 0 <= i < |cells| ==> cells[i].numUes == CountWithCgi(ues, cells[i].cgi)
    ensures SumNumUes(cells) == |ues|
  {
    hide ReadsAs;
    forall i | 0 <= i < |cells| ensures cells[i].numUes == CountWithCgi(ues, cells[i].cgi) {
      CountIsSeen(c, ues, keys, cells[i].cgi);
      AllSeen(c, keys, cells[i].cgi);
    }
    SumIsCovered(c, cells);
    AllCovered(c, cells);
    CountListed(c, ues, keys);
  }

  lemma AllSeen(c: map<string, MetricValue>, keys: seq<string>, cgi: string)
    requires forall key :: key in Listed(c) <==> key in keys
    ensures SeenIn(c, keys, cgi) == Members(c, cgi)
  {
  }

  lemma AllCovered(c: map<string, MetricValue>, cells: seq<Cell>)
    requires ListsCells(c, cells)
    ensures Covered(c, cells) == Listed(c)
  {
  }

  lemma {:induction false} DistinctCount(keys: seq<string>)
    requires forall i, j :: 0 <= i < j < |keys| ==> keys[i] != keys[j]
    ensures |set key | key in keys| == |keys|
  {
    if keys != [] {
      var before, last := keys[..|keys| - 1], keys[|keys| - 1];
      DistinctCount(before);
      assert keys == before + [last] && last !in before;
      assert (set key | key in keys) == (set key | key in before) + {last};
    }
  }

  lemma CountListed(c: map<string, MetricValue>, ues: seq<UE>, keys: seq<string>)
    requires ListsUes(c, ues, keys)
    ensures |ues| == |Listed(c)|
  {
    hide Shows;
    DistinctCount(keys);
    assert (set key | key in keys) == Listed(c);
  }

  lemma EachIsListed(c: map<string, MetricValue>, ues: seq<UE>, keys: seq<string>)
    requires ListsUes(c, ues, keys)
    ensures forall key :: key in Listed(c) ==> exists ue :: ue in ues && Shows(ue, c[key])
  {
    hide Shows;
    forall key | key in Listed(c) ensures exists ue :: ue in ues && Shows(ue, c[key]) {
      var i :| 0 <= i < |keys| && keys[i] == key;
      assert ues[i] in ues && Shows(ues[i], c[key]);
    }
  }

  /** The contents of the store while handlers interleave. */
  function ContentsOf(s: Interleaving.Sys): map<string, MetricValue>
    requires forall key :: key in s.records ==> s.records[key] < |s.heap|
  {
    map key | key in s.records :: s.heap[s.records[key]]
  }

  lemma AllListed(c: map<string, MetricValue>, ues: seq<UE>, keys: seq<string>)
    requires ListsUes(c, ues, keys) && forall key :: key in c ==> c[key].rawUeId.GnbUeId?
    ensures |ues| == |c|
  {
    CountListed(c, ues, keys);
    hide ListsUes;
    assert Listed(c) == c.Keys;
  }

  /** At every moment of every interleaving nothing is skipped: the UE list is as long as the
      store. */
  lemma ReachableStoresAreListed(ws: set<Recipient>, steps: seq<Interleaving.Step>, ues: seq<UE>, keys: seq<string>)
    requires Controller in ws && Interleaving.Legal(ws, Interleaving.Start, steps)
    ensures var s := Interleaving.Run(ws, Interleaving.Start, steps);
            && (forall key :: key in s.records ==> s.records[key] < |s.heap|)
            && (ListsUes(ContentsOf(s), ues, keys) ==> |ues| == |s.records|)
  {
    Interleaving.StartInv(ws);
    Interleaving.RunKeepsInv(ws, Interleaving.Start, steps);
    hide Interleaving.Run, Interleaving.Legal, GenerateGnbUeIDString, ListsUes;
    var s := Interleaving.Run(ws, Interleaving.Start, steps);
    forall key | key in s.records ensures s.records[key] < |s.heap| && s.heap[s.records[key]].rawUeId.GnbUeId? {
      assert Interleaving.RefOk(s, key, s.records[key]);
    }
    if ListsUes(ContentsOf(s), ues, keys) {
      AllListed(ContentsOf(s), ues, keys);
      assert ContentsOf(s).Keys == s.records.Keys;
      assert |ContentsOf(s)| == |ContentsOf(s).Keys| && |s.records| == |s.records.Keys|;
    }
  }

  /** The same for the atomic protocol. */
  lemma AtomicStoresAreListed(ws: set<Recipient>, steps: seq<Handover.Step>, ues: seq<UE>, keys: seq<string>)
    requires Controller in ws && Handover.Legal(ws, Handover.Init, steps)
    requires ListsUes(Handover.Run(ws, Handover.Init, steps).view.records, ues, keys)
    ensures |ues| == |Handover.Run(ws, Handover.Init, steps).view.records|
  {
    Handover.InitInv(ws);
    Handover.RunKeepsInv(ws, Handover.Init, steps);
    hide Handover.Run, Handover.Legal, GenerateGnbUeIDString;
    var s := Handover.Run(ws, Handover.Init, steps);
    forall key | key in s.view.records ensures s.view.records[key].rawUeId.GnbUeId? {
      assert Handover.EntryOk(ws, s, key);
    }
    AllListed(s.view.records, ues, keys);
  }

  // ---------- the methods ----------

  /** The keys that are not skipped, in the order in which the store sent them. */
  function Kept(c: map<string, MetricValue>, order: seq<string>): seq<string>
    requires forall i :: 0 <= i < |order| ==> order[i] in c
  {
    if order == [] then [] else
      var before, last := Kept(c, order[..|order| - 1]), order[|order| - 1];
      if c[last].rawUeId.GnbUeId? then before + [last] else before
  }

  lemma {:induction false} KeptFacts(c: map<string, MetricValue>, order: seq<string>)
    requires forall i :: 0 <= i < |order| ==> order[i] in c
    requires forall i, j :: 0 <= i < j < |order| ==> order[i] != order[j]
    ensures var keys := Kept(c, order); forall i, j :: 0 <= i < j < |keys| ==> keys[i] != keys[j]
    ensures forall key :: key in Kept(c, order) <==> key in order && key in Listed(c)
  {
    if order != [] {
      var before, last := order[..|order| - 1], order[|order| - 1];
      KeptFacts(c, before);
      assert order == before + [last];
      assert last !in Kept(c, before);
    }
  }

  /** What the store sent, as keys: each record once. */
  ghost predicate SentAll(c: map<string, MetricValue>, order: seq<string>) {
    && (forall i :: 0 <= i < |order| ==> order[i] in c)
    && (forall i, j :: 0 <= i < j < |order| ==> order[i] != order[j])
    && (forall key :: key in c ==> key in order)
  }

  ghost function KeptUpTo(c: map<string, MetricValue>, order: seq<string>, k: nat): seq<string>
    requires SentAll(c, order) && k <= |order|
  {
    Kept(c, order[..k])
  }

  lemma KeptNone(c: map<string, MetricValue>, order: seq<string>)
    requires SentAll(c, order)
    ensures KeptUpTo(c, order, 0) == [] && KeptUpTo(c, order, |order|) == Kept(c, order)
  {
    assert order[..|order|] == order;
  }

  lemma KeptNext(c: map<string, MetricValue>, order: seq<string>, k: nat)
    requires SentAll(c, order) && k < |order|
    ensures order[k] in c && order[k] !in KeptUpTo(c, order, k)
    ensures var keys := KeptUpTo(c, order, k);
            KeptUpTo(c, order, k + 1) == if c[order[k]].rawUeId.GnbUeId? then keys + [order[k]] else keys
  {
    assert order[..k + 1][..k] == order[..k];
    KeptFacts(c, order[..k]);
  }

  lemma KeptAll(c: map<string, MetricValue>, order: seq<string>)
    requires SentAll(c, order)
    ensures var keys := KeptUpTo(c, order, |order|); forall i, j :: 0 <= i < j < |keys| ==> keys[i] != keys[j]
    ensures forall key :: key in KeptUpTo(c, order, |order|) <==> key in Listed(c)
  {
    KeptFacts(c, order);
    KeptNone(c, order);
  }

  class Server {
    const metricStore: Store

    constructor (metricStore: Store)
      ensures this.metricStore == metricStore
    {
      this.metricStore := metricStore;
    }

    /** The entries of the store, with the keys they are filed under. */
    method Receive() returns (ch: seq<Entry>, ghost order: seq<string>)
      requires metricStore.Valid()
      ensures SentAll(metricStore.Contents(), order) && |ch| == |order|
      ensures forall k :: 0 <= k < |ch| ==>
                order[k] in metricStore.Contents() && ch[k].value.Value() == metricStore.Contents()[order[k]]
    {
      ch := metricStore.Entries();
      order := seq(|ch|, k requires 0 <= k < |ch| => ch[k].key);
      forall key | key in metricStore.Contents() ensures key in order {
        var k :| 0 <= k < |ch| && ch[k] == metricStore.records[key];
        assert order[k] == key;
      }
    }

    method GetUes() returns (ues: seq<UE>, ghost keys: seq<string>)
      requires metricStore.Valid()
      ensures ListsUes(metricStore.Contents(), ues, keys)
      ensures |ues| == |Listed(metricStore.Contents())|
      ensures forall key :: key in Listed(metricStore.Contents()) ==>
                exists ue :: ue in ues && Shows(ue, metricStore.Contents()[key])
    {
      hide DecimalInt, StateName, Shows, KeptUpTo, SentAll;
      ghost var order: seq<string>;
      var ch;
      ch, order := Receive();
      ghost var c := metricStore.Contents();
      ues, keys := [], [];
      KeptNone(c, order);
      for k := 0 to |ch|
        invariant forall i :: 0 <= i < |ch| ==> order[i] in c && ch[i].value.Value() == c[order[i]]
        invariant |ues| == |keys| && keys == KeptUpTo(c, order, k)
        invariant forall i :: 0 <= i < |keys| ==> keys[i] in Listed(c) && Shows(ues[i], c[keys[i]])
      {
        KeptNext(c, order, k);
        var v := ch[k].value;
        if !v.rawUeId.GnbUeId? {
          continue;
        }
        UeOfShows(v.Value());
        ues := ues + [UE(DecimalInt(v.rawUeId.gnb.amfUeNgapId), StateName(v.state), v.tgtCellId)];
        keys := keys + [order[k]];
      }
      KeptAll(c, order);
      assert metricStore.Contents() == c;
      CountListed(c, ues, keys);
      EachIsListed(c, ues, keys);
    }

    method GetCells() returns (cells: seq<Cell>)
      requires metricStore.Valid()
      ensures ListsCells(metricStore.Contents(), cells)
    {
      hide AllTallies, KeptUpTo, SentAll, ListsCells;
      ghost var order: seq<string>;
      var ch;
      ch, order := Receive();
      ghost var c := metricStore.Contents();
      var result: map<string, nat> := map[];
      NothingTallied(c);
      KeptNone(c, order);
      for k := 0 to |ch|
        invariant metricStore.Contents() == c
        invariant forall i :: 0 <= i < |ch| ==> order[i] in c && ch[i].value.Value() == c[order[i]]
        invariant AllTallies(c, KeptUpTo(c, order, k), result)
      {
        KeptNext(c, order, k);
        var v := ch[k].value;
        if !v.rawUeId.GnbUeId? {
          continue;
        }
        AllTalliesGrow(c, KeptUpTo(c, order, k), result, order[k]);
        result := result[v.tgtCellId := (if v.tgtCellId in result then result[v.tgtCellId] else 0) + 1];
      }
      KeptAll(c, order);
      cells := CellsOf(result);
      assert metricStore.Contents() == c;
      AllTallied(c, KeptUpTo(c, order, |order|), result, cells);
    }
  }

  /** The counter of a cell after the entries `keys` have been seen. */
  predicate Tallied(c: map<string, MetricValue>, keys: seq<string>, result: map<string, nat>, cgi: string) {
    if cgi in result then result[cgi] == |SeenIn(c, keys, cgi)| && result[cgi] > 0 else SeenIn(c, keys, cgi) == {}
  }

  lemma TallyGrows(c: map<string, MetricValue>, keys: seq<string>, result: map<string, nat>, key: string, cgi: string)
    requires key in c && key !in keys && Tallied(c, keys, result, cgi)
    ensures var target := c[key].tgtCellId;
            Tallied(c, keys + [key], result[target := (if target in result then result[target] else 0) + 1], cgi)
  {
    SeenGrows(c, keys, key, cgi);
  }

  ghost predicate AllTallies(c: map<string, MetricValue>, keys: seq<string>, result: map<string, nat>) {
    forall cgi: string :: Tallied(c, keys, result, cgi)
  }

  lemma NothingTallied(c: map<string, MetricValue>)
    ensures AllTallies(c, [], map[])
  {
  }

  lemma AllTalliesGrow(c: map<string, MetricValue>, keys: seq<string>, result: map<string, nat>, key: string)
    requires key in c && key !in keys && AllTallies(c, keys, result)
    ensures var target := c[key].tgtCellId;
            AllTallies(c, keys + [key], result[target := (if target in result then result[target] else 0) + 1])
  {
    var target := c[key].tgtCellId;
    var after := result[target := (if target in result then result[target] else 0) + 1];
    var keys' := keys + [key];
    forall cgi: string ensures Tallied(c, keys', after, cgi) {
      assert Tallied(c, keys, result, cgi);
      TallyGrows(c, keys, result, key, cgi);
    }
  }

  /** Lists a map in no particular order. */
  method CellsOf(result: map<string, nat>) returns (cells: seq<Cell>)
    ensures forall i, j :: 0 <= i < j < |cells| ==> cells[i].cgi != cells[j].cgi
    ensures forall i :: 0 <= i < |cells| ==> cells[i].cgi in result && cells[i].numUes == result[cells[i].cgi]
    ensures forall cgi :: cgi in result ==> HasCell(cells, cgi)
  {
    cells := [];
    var todo := result.Keys;
    while todo != {}
      invariant todo <= result.Keys
      invariant forall i, j :: 0 <= i < j < |cells| ==> cells[i].cgi != cells[j].cgi
      invariant forall i :: 0 <= i < |cells| ==>
                  cells[i].cgi in result && cells[i].cgi !in todo && cells[i].numUes == result[cells[i].cgi]
      invariant forall cgi :: cgi in result && cgi !in todo ==> HasCell(cells, cgi)
      decreases todo
    {
      var cgi :| cgi in todo;
      forall other: string
        ensures HasCell(cells + [Cell(cgi, result[cgi])], other) <==> HasCell(cells, other) || cgi == other
      {
        HasCellGrows(cells, Cell(cgi, result[cgi]), other);
      }
      cells := cells + [Cell(cgi, result[cgi])];
      todo := todo - {cgi};
    }
  }

  lemma AllTallied(c: map<string, MetricValue>, keys: seq<string>, result: map<string, nat>, cells: seq<Cell>)
    requires forall key :: key in Listed(c) <==> key in keys
    requires AllTallies(c, keys, result)
    requires forall i, j :: 0 <= i < j < |cells| ==> cells[i].cgi != cells[j].cgi
    requires forall i :: 0 <= i < |cells| ==> cells[i].cgi in result && cells[i].numUes == result[cells[i].cgi]
    requires forall cgi :: cgi in result ==> HasCell(cells, cgi)
    ensures ListsCells(c, cells)
  {
    forall cgi: string ensures SeenIn(c, keys, cgi) == Members(c, cgi) {
      AllSeen(c, keys, cgi);
    }
    forall i | 0 <= i < |cells| ensures cells[i].numUes == |Members(c, cells[i].cgi)| && cells[i].numUes > 0 {
      assert Tallied(c, keys, result, cells[i].cgi);
    }
    forall key | key in Listed(c) ensures HasCell(cells, c[key].tgtCellId) {
      assert Tallied(c, keys, result, c[key].tgtCellId);
      assert key in SeenIn(c, keys, c[key].tgtCellId);
    }
  }
}
