/** StateMgmtApp's `HomeController.List`: a category read from the query
    string selects a fixed list of items. */
module CategoryList {
  import Seqs

  const MissingCategoryMessage := "Category is required"
  const Flowers: seq<string> := ["Gerbera", "Jasmine", "Marigold"]
  const Fruits: seq<string> := ["Apple", "Banana", "Orange"]

  /** The view `List` renders: the error page or the item list. */
  datatype ListView = ErrorView(requestId: string) | ItemsView(items: seq<string>)

  predicate NonEmptyText(v: string) {
    v != ""
  }

  /** The query values that take part in a join. */
  function NonEmptyValues(values: seq<string>): seq<string> {
    Seqs.Filter(values, NonEmptyText)
  }

  /** Comma-separated concatenation. Of non-empty parts it is empty only
      when there are no parts. */
  function Join(parts: seq<string>): (text: string)
    ensures (forall i :: 0 <= i < |parts| ==> parts[i] != "") ==> (text == "" <==> |parts| == 0)
    ensures |parts| == 1 ==> text == parts[0]
    ensures |parts| > 1 ==> ',' in text
    ensures |parts| > 1 ==> |text| > |parts[0]| && text[..|parts[0]|] == parts[0] && text[|parts[0]|] == ','
    decreases |parts|
  {
    if |parts| == 0 then ""
    else if |parts| == 1 then parts[0]
    else
      var rest := Join(parts[1..]);
      assert (parts[0] + "," + rest)[|parts[0]|] == ',';
      parts[0] + "," + rest
  }

  /** `StringValues.ToString()`: no values (an absent key) read as the empty
      string, a single value as itself, and several values as the comma join
      of those that are neither null nor empty. */
  function QueryText(values: seq<string>): (text: string)
    ensures text == "" <==> forall i :: 0 <= i < |values| ==> values[i] == ""
    ensures |values| == 1 ==> text == values[0]
    ensures |NonEmptyValues(values)| == 1 ==> text == NonEmptyValues(values)[0]
    ensures |NonEmptyValues(values)| > 1 ==> ',' in text
    ensures |NonEmptyValues(values)| > 1 ==>
      var first := NonEmptyValues(values)[0];
      |text| > |first| && text[..|first|] == first && text[|first|] == ','
  {
    var parts := NonEmptyValues(values);
    assert forall i :: 0 <= i < |parts| ==> parts[i] != "";
    assert |parts| == 0 <==> forall i :: 0 <= i < |values| ==> values[i] == "" by {
      if |parts| > 0 {
        assert parts[0] in values && parts[0] != "";
      }
    }
    if |values| == 0 then ""
    else if |values| == 1 then (assert values[0] != "" ==> parts == [values[0]]; values[0])
    else Join(parts)
  }

  /** `List`: the items for "flowers" or "fruits", matched exactly; any other
      non-empty category gives an empty list; an empty or absent category
      gives the error view. */
  function List(values: seq<string>): (v: ListView)
    ensures v.ErrorView? <==> QueryText(values) == ""
    ensures v.ErrorView? ==> v.requestId == MissingCategoryMessage
    ensures QueryText(values) == "flowers" ==> v == ItemsView(Flowers)
    ensures QueryText(values) == "fruits" ==> v == ItemsView(Fruits)
    ensures v.ItemsView? && |v.items| > 0 <==> QueryText(values) == "flowers" || QueryText(values) == "fruits"
    ensures v.ItemsView? ==> v.items == [] || v.items == Flowers || v.items == Fruits
  {
    var category := QueryText(values);
    if category == "" then ErrorView(MissingCategoryMessage)
    else if category == "flowers" then ItemsView(Flowers)
    else if category == "fruits" then ItemsView(Fruits)
    else ItemsView([])
  }

  /** Matching is case-sensitive and whole-string: "Flowers" and two
      categories both fall through to the empty list. Empty values are
      skipped, so an empty value beside "flowers" still selects the flowers,
      and only empty values count as a missing category. */
  lemma ListEdgeCases()
    ensures List(["flowers"]) == ItemsView(["Gerbera", "Jasmine", "Marigold"])
    ensures List(["fruits"]) == ItemsView(["Apple", "Banana", "Orange"])
    ensures List(["Flowers"]) == ItemsView([])
    ensures List(["flowers", "fruits"]) == ItemsView([])
    ensures List(["", "flowers"]) == ItemsView(["Gerbera", "Jasmine", "Marigold"])
    ensures List([]) == ErrorView("Category is required")
    ensures List([""]) == ErrorView("Category is required")
    ensures List(["", ""]) == ErrorView("Category is required")
  {
  }
}

/** BIWebApp's `DashboardController`: the simulated tree and `GetItems`. */
module Dashboard {
  import Seqs

  datatype TreeNode = TreeNode(id: int, name: string, children: seq<TreeNode>)

  /** The item record filtered by `GetItems`. */
  datatype Item = Item(id: int, name: string, treeNodeId: int)

  /** The tree the controller's constructor builds: three nodes, with id 2 used twice. */
  function SimulatedTree(): (tree: seq<TreeNode>)
    ensures |tree| == 3
    ensures multiset(seq(|tree|, i requires 0 <= i < |tree| => tree[i].id))[2] == 2
  {
    var tree := [TreeNode(1, "Flowers", []), TreeNode(2, "Fruites", []), TreeNode(2, "Vegetables", [])];
    assert seq(|tree|, i requires 0 <= i < |tree| => tree[i].id) == [1, 2, 2];
    tree
  }

  /** The items `GetItems` filters, standing in for a database read. */
  function AllItems(): seq<Item> {
    [Item(1, "Gerbera", 1), Item(2, "Mango", 2), Item(3, "Rose", 1)]
  }

  /** The node id `GetItems` actually filters on: its argument is overwritten. */
  const OverwrittenNodeId := 2

  /** `GetItems`: the fixed items under node 2, whatever `nodeId` was asked for. */
  function GetItems(nodeId: int): (items: seq<Item>)
    ensures forall i :: 0 <= i < |items| ==> items[i].treeNodeId == 2 && items[i] in AllItems()
    ensures forall i :: 0 <= i < |AllItems()| && AllItems()[i].treeNodeId == 2 ==> AllItems()[i] in items
  {
    var nodeId' := OverwrittenNodeId;
    Seqs.Filter(AllItems(), (it: Item) => it.treeNodeId == nodeId')
  }

  /** The argument is ignored, the only item returned is Mango, and the
      result keeps the order of the fixed list. */
  lemma GetItemsIgnoresArgument(a: int, b: int)
    ensures GetItems(a) == GetItems(b)
    ensures GetItems(a) == [Item(2, "Mango", 2)]
    ensures Seqs.IsSubsequence(GetItems(a), AllItems())
  {
  }

  /** The behaviour the action's comment describes: the items under the
      requested node. */
  function GetItemsForNode(nodeId: int): (items: seq<Item>)
    ensures forall i :: 0 <= i < |items| ==> items[i].treeNodeId == nodeId && items[i] in AllItems()
    ensures forall i :: 0 <= i < |AllItems()| && AllItems()[i].treeNodeId == nodeId ==> AllItems()[i] in items
  {
    Seqs.Filter(AllItems(), (it: Item) => it.treeNodeId == nodeId)
  }

  /** Asking for node 1 shows the overwrite: the action answers with Mango,
      which is not under node 1, while the flowers under node 1 are missing. */
  lemma GetItemsWrongForNodeOne()
    ensures GetItems(1) == [Item(2, "Mango", 2)]
    ensures GetItemsForNode(1) == [Item(1, "Gerbera", 1), Item(3, "Rose", 1)]
    ensures GetItems(1) != GetItemsForNode(1)
  {
  }

  /** The corrected action agrees with the shipped one exactly at node 2. */
  lemma GetItemsForNodeAgreesAtTwo(nodeId: int)
    ensures GetItemsForNode(nodeId) == GetItems(nodeId) <==> nodeId == 2
  {
  }
}
