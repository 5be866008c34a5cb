/** `flattenVssTree`: the walk that turns the hierarchical VSS catalog into
    the flat list of signals the signal selector offers. Every `sensor` or
    `actuator` node yields one record whose value is its dot-joined path.

    The walk is specified by the pure recursive `Flatten`, and carried out
    by the method `FlattenInto`, which pushes into a shared accumulator
    exactly as the hook does. */
module VssSignals {
  import opened Base
  import opened Json
  import OrderedMap

  /** One signal record `{value, label, description, datatype, unit}` (`label` and
      `datatype` are `labelText` and `dataType` here);
      `datatype` and `unit` are `None` when the node has no such property
      (`undefined` in the record). */
  datatype Signal = Signal(
    value: string,
    labelText: string,
    description: Json,
    dataType: Option<Json>,
    unit: Option<Json>)

  /** The path of the entry `key` below `path`. */
  function ChildPath(path: string, key: string): (r: string)
    ensures path == "" ==> r == key
    ensures path != "" ==> |r| == |path| + 1 + |key| && r[..|path|] == path && r[|path|] == '.' && r[|path| + 1..] == key
  {
    if path == "" then key else path + "." + key
  }

  /** `v` is `path` itself or lies below it; every value lies below the
      empty path. */
  predicate Below(v: string, path: string)
  {
    path == "" || v == path || (|v| > |path| && v[..|path|] == path && v[|path|] == '.')
  }

  /** What lies below a child's path lies below its parent's. */
  lemma BelowChild(v: string, path: string, key: string)
    requires Below(v, ChildPath(path, key))
    ensures Below(v, path)
  {
    if path != "" {
      var c := ChildPath(path, key);
      assert |v| >= |c|;
      assert v[..|path|] == c[..|path|];
      assert v[|path|] == c[|path|];
    }
  }

  /** Nodes whose `type` is "sensor" or "actuator" are the signals. */
  predicate IsSignalNode(node: Json)
  {
    Prop(node, "type") == Some(JStr("sensor")) || Prop(node, "type") == Some(JStr("actuator"))
  }

  /** `node.type` is truthy. */
  predicate HasType(node: Json)
  {
    Prop(node, "type").Some? && Truthy(Prop(node, "type").value)
  }

  /** `node.children && typeof node.children === "object"`. */
  predicate HasChildren(node: Json)
  {
    Prop(node, "children").Some? && Truthy(Prop(node, "children").value)
      && IsObjectValue(Prop(node, "children").value)
  }

  /** A property's value is part of the object that holds it. */
  lemma PropSmaller(node: Json, key: string)
    requires Prop(node, key).Some?
    ensures Prop(node, key).value < node
  {
    var i := PropIndex(node.fields, key);
    assert node.fields[i].1 < node;
  }

  /** The position of the first entry for `key`. */
  function PropIndex(fields: seq<(string, Json)>, key: string): (i: nat)
    requires OrderedMap.Lookup(fields, key).Some?
    ensures i < |fields| && fields[i] == (key, OrderedMap.Lookup(fields, key).value)
  {
    if fields[0].0 == key then 0 else 1 + PropIndex(fields[1..], key)
  }

  /** `node.children`, for a node that has them. */
  function ChildrenOf(node: Json): (r: Json)
    requires HasChildren(node)
    ensures r < node && IsObjectValue(r)
  {
    PropSmaller(node, "children");
    Prop(node, "children").value
  }

  /** The number of entries `Object.entries` lists for a value. */
  function EntryCount(j: Json): nat
  {
    match j
    case JArr(items) => |items|
    case JObj(fields) => |fields|
    case _ => 0
  }

  /** The key of entry `i`: an array's entries are keyed by their index. */
  function EntryKey(j: Json, i: nat): string
    requires i < EntryCount(j)
  {
    if j.JArr? then NatToString(i) else j.fields[i].0
  }

  /** The value of entry `i`, always part of `j`. */
  function EntryValue(j: Json, i: nat): (r: Json)
    requires i < EntryCount(j)
    ensures r < j
  {
    if j.JArr? then j.items[i] else j.fields[i].1
  }

  /** The record a signal node at `path` contributes; a falsy description
      becomes "". */
  function Record(node: Json, path: string): (r: Signal)
  {
    Signal(
      path,
      DotsToSpaces(path),
      if Prop(node, "description").Some? && Truthy(Prop(node, "description").value)
      then Prop(node, "description").value else JStr(""),
      Prop(node, "datatype"),
      Prop(node, "unit"))
  }

  /** The node's own record, if it is a signal node. */
  function Own(node: Json, path: string): seq<Signal>
  {
    if IsSignalNode(node) then [Record(node, path)] else []
  }

  /** Every record's label is its value with the dots made spaces. */
  predicate Labelled(ss: seq<Signal>)
  {
    forall i :: 0 <= i < |ss| ==> ss[i].labelText == DotsToSpaces(ss[i].value)
  }

  /** Every record's value lies below `path`. */
  predicate AllBelow(ss: seq<Signal>, path: string)
  {
    forall i :: 0 <= i < |ss| ==> Below(ss[i].value, path)
  }

  /** The records the walk of `node` at `path` appends, in pre-order: the
      node's own record, then those of its children (the `children`
      entries, or for an untyped node its own object-valued entries). */
  function Flatten(node: Json, path: string): seq<Signal>
    decreases node, 2
  {
    if !IsObjectValue(node) then [] else Own(node, path) + Descendants(node, path)
  }

  /** The records below an object node: those of its `children` entries
      when it has children, those of its own object-valued entries when it
      is untyped, and none when it is typed without children. */
  function Descendants(node: Json, path: string): seq<Signal>
    decreases node, 1
  {
    if HasChildren(node) then FlattenEntries(ChildrenOf(node), 0, path, false)
    else if !HasType(node) then FlattenEntries(node, 0, path, true)
    else []
  }

  /** The records of the entries of `parent` from `from` on, each walked at
      its child path; with `objectsOnly`, entries that are not objects are
      skipped. */
  function FlattenEntries(parent: Json, from: nat, path: string, objectsOnly: bool): seq<Signal>
    decreases parent, 0, EntryCount(parent) - from + 1
  {
    if from >= EntryCount(parent) then []
    else EntryRecords(parent, from, path, objectsOnly) + FlattenEntries(parent, from + 1, path, objectsOnly)
  }

  /** The records of entry `i` alone. */
  function EntryRecords(parent: Json, i: nat, path: string, objectsOnly: bool): seq<Signal>
    requires i < EntryCount(parent)
    decreases parent, 0, 0
  {
    var child := EntryValue(parent, i);
    if !objectsOnly || IsObjectValue(child) then Flatten(child, ChildPath(path, EntryKey(parent, i))) else []
  }

  /** Every record of a walk is labelled by its value and lies below the
      path the walk started at. */
  lemma {:induction false} FlattenShape(node: Json, path: string)
    ensures Labelled(Flatten(node, path)) && AllBelow(Flatten(node, path), path)
    decreases node, 2
  {
    if IsObjectValue(node) {
      if HasChildren(node) {
        EntriesShape(ChildrenOf(node), 0, path, false);
      } else if !HasType(node) {
        EntriesShape(node, 0, path, true);
      }
    }
  }

  /** The same for the walk of a run of entries. */
  lemma {:induction false} EntriesShape(parent: Json, from: nat, path: string, objectsOnly: bool)
    ensures Labelled(FlattenEntries(parent, from, path, objectsOnly))
    ensures AllBelow(FlattenEntries(parent, from, path, objectsOnly), path)
    decreases parent, 0, EntryCount(parent) - from
  {
    if from < EntryCount(parent) {
      var child := EntryValue(parent, from);
      var key := EntryKey(parent, from);
      var here := EntryRecords(parent, from, path, objectsOnly);
      var rest := FlattenEntries(parent, from + 1, path, objectsOnly);
      if !objectsOnly || IsObjectValue(child) {
        FlattenShape(child, ChildPath(path, key));
      }
      EntriesShape(parent, from + 1, path, objectsOnly);
      forall i | 0 <= i < |here| ensures Below(here[i].value, path) {
        BelowChild(here[i].value, path, key);
      }
      assert FlattenEntries(parent, from, path, objectsOnly) == here + rest;
    }
  }

  /** The shared `signals` array of the walk. */
  class SignalList {
    var items: seq<Signal>

    constructor ()
      ensures items == []
    {
      items := [];
    }

    /** `signals.push(s)`. */
    method Push(s: Signal)
      modifies this
      ensures items == old(items) + [s]
    {
      items := items + [s];
    }
  }

  /** `flattenVssTree(node, path, signals)`: appends the walk's records to
      the accumulator and leaves its existing entries in front. */
  method FlattenInto(node: Json, path: string, signals: SignalList)
    modifies signals
    ensures signals.items == old(signals.items) + Flatten(node, path)
    decreases node, 3
  {
    if !IsObjectValue(node) {
      assert Flatten(node, path) == [];
      return;
    }
    assert Flatten(node, path) == Own(node, path) + Descendants(node, path);
    if IsSignalNode(node) {
      signals.Push(Record(node, path));
    }
    ghost var own := signals.items;
    assert own == old(signals.items) + Own(node, path);
    DescendantsInto(node, path, signals);
    assert signals.items == own + Descendants(node, path);
  }

  /** The walk below an object node: its `children` entries, or for an
      untyped node its own object-valued entries. */
  method DescendantsInto(node: Json, path: string, signals: SignalList)
    modifies signals
    ensures signals.items == old(signals.items) + Descendants(node, path)
    decreases node, 2
  {
    if HasChildren(node) {
      EntriesInto(ChildrenOf(node), path, false, signals);
    } else if !HasType(node) {
      EntriesInto(node, path, true, signals);
    }
  }

  /** The `for (const [key, child] of Object.entries(parent))` loop. */
  method EntriesInto(parent: Json, path: string, objectsOnly: bool, signals: SignalList)
    modifies signals
    ensures signals.items == old(signals.items) + FlattenEntries(parent, 0, path, objectsOnly)
    decreases parent, 1
  {
    var i := 0;
    while i < EntryCount(parent)
      invariant 0 <= i <= EntryCount(parent)
      invariant signals.items + FlattenEntries(parent, i, path, objectsOnly)
        == old(signals.items) + FlattenEntries(parent, 0, path, objectsOnly)
    {
      ghost var before := signals.items;
      ghost var rest := FlattenEntries(parent, i + 1, path, objectsOnly);
      EntryInto(parent, i, path, objectsOnly, signals);
      assert FlattenEntries(parent, i, path, objectsOnly) == EntryRecords(parent, i, path, objectsOnly) + rest;
      assert signals.items + rest == before + (EntryRecords(parent, i, path, objectsOnly) + rest);
      i := i + 1;
    }
    assert FlattenEntries(parent, i, path, objectsOnly) == [];
  }

  /** One turn of that loop: the entry is walked at its child path, unless
      only objects are walked and it is not one. */
  method EntryInto(parent: Json, i: nat, path: string, objectsOnly: bool, signals: SignalList)
    requires i < EntryCount(parent)
    modifies signals
    ensures signals.items == old(signals.items) + EntryRecords(parent, i, path, objectsOnly)
    decreases parent, 0
  {
    var child := EntryValue(parent, i);
    if !objectsOnly || IsObjectValue(child) {
      FlattenInto(child, ChildPath(path, EntryKey(parent, i)), signals);
    } else {
      assert EntryRecords(parent, i, path, objectsOnly) == [];
    }
  }

  /** `flattenVssTree(data)`: the catalog walked from the root with a fresh
      accumulator. */
  method FlattenVssTree(data: Json) returns (signals: seq<Signal>)
    ensures signals == Flatten(data, "")
  {
    var acc := new SignalList();
    FlattenInto(data, "", acc);
    signals := acc.items;
  }

  /** A value that is not an object (or is null) contributes nothing. */
  lemma NonObjectEmpty(node: Json, path: string)
    requires !IsObjectValue(node)
    ensures Flatten(node, path) == []
  {
  }

  /** A signal node's record comes first, carrying its path, the path with
      spaces for dots, and its description or "". */
  lemma SignalFirst(node: Json, path: string)
    requires IsObjectValue(node) && IsSignalNode(node)
    ensures |Flatten(node, path)| >= 1
    ensures Flatten(node, path)[0] == Record(node, path)
    ensures Record(node, path).value == path && Record(node, path).labelText == DotsToSpaces(path)
  {
  }

  /** A typed node without children visits nothing below it. */
  lemma TypedLeafOnly(node: Json, path: string)
    requires IsObjectValue(node) && HasType(node) && !HasChildren(node)
    ensures Flatten(node, path) == Own(node, path)
    ensures |Flatten(node, path)| <= 1
  {
  }

  /** An untyped node's primitive entries are skipped: dropping them from
      the node leaves the walk as it was. */
  lemma {:induction false} PrimitiveEntriesSkipped(parent: Json, from: nat, path: string)
    requires from < EntryCount(parent) && !IsObjectValue(EntryValue(parent, from))
    ensures FlattenEntries(parent, from, path, true) == FlattenEntries(parent, from + 1, path, true)
  {
  }

  /** Every signal of a catalog is named by a dotted path below the
      starting path, and labelled by that path with spaces. */
  lemma CatalogShape(node: Json, path: string, i: nat)
    requires i < |Flatten(node, path)|
    ensures Below(Flatten(node, path)[i].value, path)
    ensures Flatten(node, path)[i].labelText == DotsToSpaces(Flatten(node, path)[i].value)
  {
    FlattenShape(node, path);
  }

  /** A bare sensor `{"type": "sensor"}` yields one record with an empty
      description and no datatype or unit. */
  lemma BareSensor(path: string)
    ensures Flatten(JObj([("type", JStr("sensor"))]), path) ==
      [Signal(path, DotsToSpaces(path), JStr(""), None, None)]
  {
    var speed := JObj([("type", JStr("sensor"))]);
    OrderedMap.SingleLookup("type", JStr("sensor"), "type");
    OrderedMap.SingleLookup("type", JStr("sensor"), "children");
    OrderedMap.SingleLookup("type", JStr("sensor"), "description");
    OrderedMap.SingleLookup("type", JStr("sensor"), "datatype");
    OrderedMap.SingleLookup("type", JStr("sensor"), "unit");
    assert !HasChildren(speed) && HasType(speed) && IsSignalNode(speed);
  }

  /** A branch `{"children": {key: child}}` walks just its one child. */
  lemma OneChildBranch(key: string, child: Json, path: string)
    ensures Flatten(JObj([("children", JObj([(key, child)]))]), path) ==
      Flatten(child, ChildPath(path, key))
  {
    var kids := JObj([(key, child)]);
    var branch := JObj([("children", kids)]);
    OrderedMap.SingleLookup("children", kids, "children");
    OrderedMap.SingleLookup("children", kids, "type");
    assert HasChildren(branch) && !IsSignalNode(branch);
    assert ChildrenOf(branch) == kids;
    assert FlattenEntries(kids, 1, path, false) == [];
    assert FlattenEntries(kids, 0, path, false) == EntryRecords(kids, 0, path, false);
  }

  /** An untyped root `{key: child}` with an object child walks that child. */
  lemma OneEntryRoot(key: string, child: Json)
    requires IsObjectValue(child) && key != "type" && key != "children"
    ensures Flatten(JObj([(key, child)]), "") == Flatten(child, key)
  {
    var root := JObj([(key, child)]);
    OrderedMap.SingleLookup(key, child, "children");
    OrderedMap.SingleLookup(key, child, "type");
    assert !HasChildren(root) && !HasType(root) && !IsSignalNode(root);
    assert FlattenEntries(root, 1, "", true) == [];
    assert FlattenEntries(root, 0, "", true) == EntryRecords(root, 0, "", true);
  }

  /** A child's label is its parent's label, a space, and the key's label. */
  lemma ChildLabel(path: string, key: string)
    requires path != ""
    ensures DotsToSpaces(ChildPath(path, key)) == DotsToSpaces(path) + " " + DotsToSpaces(key)
  {
    LabelAppend(path, ".");
    LabelAppend(path + ".", key);
    assert DotsToSpaces(".") == " ";
  }

  /** Labels distribute over concatenation. */
  lemma LabelAppend(a: string, b: string)
    ensures DotsToSpaces(a + b) == DotsToSpaces(a) + DotsToSpaces(b)
  {
    var d := DotsToSpaces(a + b);
    var l := DotsToSpaces(a) + DotsToSpaces(b);
    forall i | 0 <= i < |a + b| ensures d[i] == l[i] {
      if i < |a| {
        assert (a + b)[i] == a[i];
      } else {
        assert (a + b)[i] == b[i - |a|];
      }
    }
  }

  /** A name without dots is its own label. */
  lemma NoDotsLabel(s: string)
    requires '.' !in s
    ensures DotsToSpaces(s) == s
  {
    forall i | 0 <= i < |s| ensures DotsToSpaces(s)[i] == s[i] {
      assert s[i] in s;
    }
  }

  /** A one-signal catalog `{branch: {"children": {leaf: {"type":
      "sensor"}}}}`, such as "Vehicle" and "Speed", flattens to the single
      record `branch.leaf`, labelled `branch leaf`. */
  lemma OneSignalCatalog(branch: string, leaf: string)
    requires branch != "" && branch != "type" && branch != "children"
    requires '.' !in branch && '.' !in leaf
    ensures var sensor := JObj([("type", JStr("sensor"))]);
            var node := JObj([("children", JObj([(leaf, sensor)]))]);
            Flatten(JObj([(branch, node)]), "") ==
              [Signal(branch + "." + leaf, branch + " " + leaf, JStr(""), None, None)]
  {
    var sensor := JObj([("type", JStr("sensor"))]);
    var node := JObj([("children", JObj([(leaf, sensor)]))]);
    OneEntryRoot(branch, node);
    OneChildBranch(leaf, sensor, branch);
    BareSensor(ChildPath(branch, leaf));
    ChildLabel(branch, leaf);
    NoDotsLabel(branch);
    NoDotsLabel(leaf);
  }
}
