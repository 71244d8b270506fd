/** RAN parameter trees: the recursive search, the monitor's fixed-path read and
    the control message builder. */
module RanParam {
  import opened Wrappers

  /** A protobuf choice of value kinds; every kind but the printable string is opaque here. */
  datatype RanValue = PrintableString(text: string) | OtherValue(kind: nat)

  /** The value choice of a parameter. `Unset` stands for a missing message and for the
      alternatives whose `RanPChoiceStructure` and `RanPChoiceElementFalse` are both absent. */
  datatype ValueType =
    | ChoiceStructure(items: seq<Item>)
    | ChoiceElementFalse(element: Option<RanValue>)
    | Unset

  datatype Item = Item(id: int, valueType: ValueType)

  const TARGET_PRIMARY_CELL_ID := 1
  const TARGET_CELL := 2
  const NR_CELL := 3
  const NR_CGI := 4

  /** The nil-safe getter chain `GetRanPChoiceElementFalse().GetRanParameterValue()`. */
  function ElementOf(v: ValueType): Option<RanValue> {
    if v.ChoiceElementFalse? then v.element else None
  }

  /** `GetValuePrintableString()`: the empty string for anything else. */
  function TextOf(v: Option<RanValue>): string {
    if v.Some? && v.value.PrintableString? then v.value.text else ""
  }

  // ---------- the recursive search ----------

  /** `Found` with no value is the success that returns a nil value. */
  datatype SearchResult = Found(value: Option<RanValue>) | NotFound(id: int)

  function GetRanParameterValue(item: ValueType, id: int): SearchResult
    decreases item, 1
  {
    if !item.ChoiceStructure? then NotFound(id) else SearchItems(item.items, id)
  }

  function SearchItems(items: seq<Item>, id: int): SearchResult
    decreases items, 0
  {
    if items == [] then NotFound(id)
    else
      match SearchItem(items[0], id)
      case Found(v) => Found(v)
      case NotFound(_) => SearchItems(items[1..], id)
  }

  function SearchItem(x: Item, id: int): SearchResult
    decreases x, 0
  {
    if x.id == id then Found(ElementOf(x.valueType)) else GetRanParameterValue(x.valueType, id)
  }

  /** Every item strictly below a value, parents before children, siblings in order. */
  function Preorder(v: ValueType): seq<Item>
    decreases v, 1
  {
    if v.ChoiceStructure? then PreorderItems(v.items) else []
  }

  function PreorderItems(items: seq<Item>): seq<Item>
    decreases items, 0
  {
    if items == [] then [] else PreorderItem(items[0]) + PreorderItems(items[1..])
  }

  function PreorderItem(x: Item): seq<Item>
    decreases x, 0
  {
    [x] + Preorder(x.valueType)
  }

  /** `r` answers a flat lookup of `id` in `flat`: the first item carrying it decides. */
  ghost predicate IsFirstMatch(flat: seq<Item>, id: int, r: SearchResult) {
    match r
    case NotFound(i) => i == id && forall j :: 0 <= j < |flat| ==> flat[j].id != id
    case Found(v) =>
      exists j :: && 0 <= j < |flat| && flat[j].id == id
                  && v == (match flat[j].valueType case ChoiceElementFalse(element) => element case _ => None)
                  && forall i :: 0 <= i < j ==> flat[i].id != id
  }

  lemma FirstMatchConcat(a: seq<Item>, b: seq<Item>, id: int, ra: SearchResult, rb: SearchResult)
    requires IsFirstMatch(a, id, ra) && IsFirstMatch(b, id, rb)
    ensures IsFirstMatch(a + b, id, if ra.Found? then ra else rb)
  {
    if ra.Found? {
      var j :| && 0 <= j < |a| && a[j].id == id && ra.value == ElementOf(a[j].valueType)
               && forall i :: 0 <= i < j ==> a[i].id != id;
      assert (a + b)[j] == a[j];
    } else if rb.Found? {
      var j :| && 0 <= j < |b| && b[j].id == id && rb.value == ElementOf(b[j].valueType)
               && forall i :: 0 <= i < j ==> b[i].id != id;
      assert (a + b)[|a| + j] == b[j];
    }
  }

  /** The tree search is the flat lookup over the preorder listing of the tree. */
  lemma {:induction false} SearchIsFirstMatch(v: ValueType, id: int)
    ensures IsFirstMatch(Preorder(v), id, GetRanParameterValue(v, id))
    decreases v, 1
  {
    if v.ChoiceStructure? {
      SearchItemsIsFirstMatch(v.items, id);
    }
  }

  lemma {:induction false} SearchItemsIsFirstMatch(items: seq<Item>, id: int)
    ensures IsFirstMatch(PreorderItems(items), id, SearchItems(items, id))
    decreases items, 0
  {
    if items != [] {
      SearchItemIsFirstMatch(items[0], id);
      SearchItemsIsFirstMatch(items[1..], id);
      FirstMatchConcat(PreorderItem(items[0]), PreorderItems(items[1..]), id,
                       SearchItem(items[0], id), SearchItems(items[1..], id));
    }
  }

  lemma {:induction false} SearchItemIsFirstMatch(x: Item, id: int)
    ensures IsFirstMatch(PreorderItem(x), id, SearchItem(x, id))
    decreases x, 0
  {
    SearchIsFirstMatch(x.valueType, id);
    var head := if x.id == id then Found(ElementOf(x.valueType)) else NotFound(id);
    assert IsFirstMatch([x], id, head) by {
      assert [x][0] == x;
    }
    FirstMatchConcat([x], Preorder(x.valueType), id, head, GetRanParameterValue(x.valueType, id));
  }

  // ---------- the fixed path ----------

  /** `GetRanPChoiceStructure().GetRanParameterStructure().GetSequenceOfRanParameters()`. */
  function ItemsOf(v: ValueType): seq<Item> {
    if v.ChoiceStructure? then v.items else []
  }

  /** The lists the monitor indexes with `[0]` are non-empty; the source panics otherwise. */
  predicate HasFixedPath(list: seq<Item>) {
    && list != []
    && ItemsOf(list[0].valueType) != []
    && ItemsOf(ItemsOf(list[0].valueType)[0].valueType) != []
    && ItemsOf(ItemsOf(ItemsOf(list[0].valueType)[0].valueType)[0].valueType) != []
  }

  function FixedPathItem(list: seq<Item>): Item
    requires HasFixedPath(list)
  {
    ItemsOf(ItemsOf(ItemsOf(list[0].valueType)[0].valueType)[0].valueType)[0]
  }

  function FixedPathRead(list: seq<Item>): string
    requires HasFixedPath(list)
  {
    TextOf(ElementOf(FixedPathItem(list).valueType))
  }

  /** The read is the text of a printable string at the end of the leftmost chain, and the empty
      string for every other kind of value there. */
  lemma FixedPathReads(list: seq<Item>)
    requires HasFixedPath(list)
    ensures match list[0].valueType.items[0].valueType.items[0].valueType.items[0].valueType
            case ChoiceElementFalse(Some(PrintableString(text))) => FixedPathRead(list) == text
            case _ => FixedPathRead(list) == ""
  {
  }

  /** The leftmost chain below the first listed parameter carries the NR CGI at its third
      level and nowhere above. */
  predicate CgiIsThird(list: seq<Item>)
    requires HasFixedPath(list)
  {
    var l1 := ItemsOf(list[0].valueType)[0];
    var l2 := ItemsOf(l1.valueType)[0];
    var l3 := ItemsOf(l2.valueType)[0];
    l1.id != NR_CGI && l2.id != NR_CGI && l3.id == NR_CGI
  }

  /** `k` is the position of the first item carrying `id`. */
  ghost predicate FirstAt(flat: seq<Item>, id: int, k: nat) {
    k < |flat| && flat[k].id == id && forall i :: 0 <= i < k ==> flat[i].id != id
  }

  lemma LeftmostChild(v: ValueType)
    requires ItemsOf(v) != []
    ensures var l := ItemsOf(v)[0]; [l] + Preorder(l.valueType) <= Preorder(v)
  {
    assert Preorder(v) == PreorderItem(v.items[0]) + PreorderItems(v.items[1..]);
  }

  /** The fixed path reads the third item of the preorder listing, so it reads the item
      that decides the search exactly on the trees of that shape. */
  lemma FixedPathIsThirdInPreorder(list: seq<Item>)
    requires HasFixedPath(list)
    ensures var flat := Preorder(list[0].valueType);
            && |flat| >= 3 && flat[2] == FixedPathItem(list)
            && (FirstAt(flat, NR_CGI, 2) <==> CgiIsThird(list))
  {
    var l1 := ItemsOf(list[0].valueType)[0];
    var l2 := ItemsOf(l1.valueType)[0];
    var l3 := ItemsOf(l2.valueType)[0];
    var flat := Preorder(list[0].valueType);
    LeftmostChild(l2.valueType);
    LeftmostChild(l1.valueType);
    LeftmostChild(list[0].valueType);
    assert flat[0] == l1 && flat[1] == l2 && flat[2] == l3;
    assert FirstAt(flat, NR_CGI, 2) <==> flat[0].id != NR_CGI && flat[1].id != NR_CGI && flat[2].id == NR_CGI;
  }

  /** On every such tree, whatever else it holds, the hard-coded read is the search for
      the NR CGI. */
  lemma FixedPathIsSearch(list: seq<Item>)
    requires HasFixedPath(list) && CgiIsThird(list)
    ensures GetRanParameterValue(list[0].valueType, NR_CGI).Found?
    ensures FixedPathRead(list) == TextOf(GetRanParameterValue(list[0].valueType, NR_CGI).value)
  {
    FixedPathIsThirdInPreorder(list);
    var flat := Preorder(list[0].valueType);
    SearchIsFirstMatch(list[0].valueType, NR_CGI);
    assert FirstAt(flat, NR_CGI, 2);
  }

  // ---------- the control message builder ----------

  /** The parameter list of a format 1 control message, which has the shape of the list
      the monitor reads. `accepts` stands for the generated validator and the marshaller. */
  function CreateRcControlMessage(tgtCellId: string, accepts: seq<Item> -> bool): Result<seq<Item>> {
    var nrCgi := Item(NR_CGI, ChoiceElementFalse(Some(PrintableString(tgtCellId))));
    var nrCell := Item(NR_CELL, ChoiceStructure([nrCgi]));
    var targetCell := Item(TARGET_CELL, ChoiceStructure([nrCell]));
    var message := [Item(TARGET_PRIMARY_CELL_ID, ChoiceStructure([targetCell]))];
    if accepts(message) then Ok(message) else Err
  }

  /** Both readers recover the target cell from every message the builder returns, and the
      message is the one chain primary cell, target cell, NR cell, NR CGI. */
  lemma BuilderRoundTrip(tgtCellId: string, accepts: seq<Item> -> bool)
    requires CreateRcControlMessage(tgtCellId, accepts).Ok?
    ensures var message := CreateRcControlMessage(tgtCellId, accepts).value;
            && HasFixedPath(message) && FixedPathRead(message) == tgtCellId
            && GetRanParameterValue(message[0].valueType, NR_CGI) == Found(Some(PrintableString(tgtCellId)))
    ensures var message := CreateRcControlMessage(tgtCellId, accepts).value;
            && |message| == 1 && message[0].id == 1
            && var flat := Preorder(message[0].valueType);
               |flat| == 3 && flat[0].id == 2 && flat[1].id == 3 && flat[2].id == 4
  {
    var message := CreateRcControlMessage(tgtCellId, accepts).value;
    var flat := Preorder(message[0].valueType);
    FixedPathIsThirdInPreorder(message);
    SearchIsFirstMatch(message[0].valueType, NR_CGI);
    assert FirstAt(flat, NR_CGI, 2);
    OnlyChild(message[0].valueType);
    OnlyChild(ItemsOf(message[0].valueType)[0].valueType);
    OnlyChild(FixedPathParent(message).valueType);
  }

  function FixedPathParent(list: seq<Item>): Item
    requires HasFixedPath(list)
  {
    ItemsOf(ItemsOf(list[0].valueType)[0].valueType)[0]
  }

  lemma OnlyChild(v: ValueType)
    requires |ItemsOf(v)| == 1
    ensures var l := ItemsOf(v)[0]; Preorder(v) == [l] + Preorder(l.valueType)
  {
    assert Preorder(v) == PreorderItem(v.items[0]) + PreorderItems(v.items[1..]);
  }
}
