/**
 * The cutting tool printers (src/xml_printer.cpp:1203-1349). A tool's
 * values are kept in a std::map by name; the printer writes the values it
 * knows in a fixed order, erasing each from a std::set of remaining names,
 * and then every remaining name in ascending order, so that every stored
 * value (other than a tool's Description) is printed exactly once.
 */
module CuttingTools {
  import opened Wrappers
  import opened OrderedMaps
  import opened XmlWriter
  import opened XmlElements
  import opened Assets

  /** A CuttingToolValue: element name, body (already XML), attributes. */
  datatype CuttingToolValue = CuttingToolValue(key: string, value: string, properties: Entries<string>)

  datatype CuttingItem = CuttingItem(
    identity: Entries<string>,
    values: Entries<CuttingToolValue>,
    lives: seq<CuttingToolValue>,
    measurements: Entries<CuttingToolValue>)

  datatype CuttingTool = CuttingTool(
    asset: Asset,
    values: Entries<CuttingToolValue>,
    status: seq<string>,
    lives: seq<CuttingToolValue>,
    measurements: Entries<CuttingToolValue>,
    itemCount: string,
    items: seq<CuttingItem>)

  /** The std::map invariant of every map of values in the tool. */
  predicate WellFormed(t: CuttingTool)
  {
    Ascending(t.values) && forall i :: 0 <= i < |t.items| ==> Ascending(t.items[i].values)
  }

  /** The values printed before the remaining ones in the life cycle, in the order they are printed. */
  const LifeCycleKeys: seq<string> :=
    ["ProgramToolGroup", "ProgramToolNumber", "Location", "ProcessSpindleSpeed", "ProcessFeedRate",
     "ConnectionCodeMachineSide"]

  /** Every value a tool prints by name, in the order it prints them. */
  const ToolKeys: seq<string> := ["CuttingToolDefinition", "ReconditionCount"] + LifeCycleKeys

  /** The values a cutting item prints by name, in order. */
  const ItemKeys: seq<string> := ["Description", "Locus"]

  function Elements(s: seq<string>): set<string>
  {
    set x | x in s
  }

  /** The stored names left once the excluded ones and the ones printed by name are taken out, ascending. */
  function Unprinted<V>(values: Entries<V>, known: seq<string>, excluded: set<string>): seq<string>
  {
    Select(KeySeq(values), Keys(values) - excluded - Elements(known))
  }

  /** A tool's remaining values: not Description, not printed by name. */
  function ToolRemaining(values: Entries<CuttingToolValue>): seq<string>
  {
    Unprinted(values, ToolKeys, {"Description"})
  }

  function ItemRemaining(values: Entries<CuttingToolValue>): seq<string>
  {
    Unprinted(values, ItemKeys, {})
  }

  // ---------------------------------------------------------------------
  // The events.

  /** printCuttingToolValue(value): a simple element whose body is written raw. */
  function ValueEvents(v: CuttingToolValue): seq<Event>
  {
    SimpleElementEvents(v.key, v.value, v.properties, true)
  }

  function ValueListEvents(vs: seq<CuttingToolValue>): seq<Event>
    decreases |vs|
  {
    if vs == [] then [] else ValueListEvents(vs[..|vs| - 1]) + ValueEvents(vs[|vs| - 1])
  }

  /** printCuttingToolValue(tool or item, name): the value stored under `name`, or nothing. */
  function NamedValueEvents(values: Entries<CuttingToolValue>, name: string): seq<Event>
  {
    match Get(values, name)
    case Some(v) => ValueEvents(v)
    case None => []
  }

  function NamedValuesEvents(values: Entries<CuttingToolValue>, names: seq<string>): seq<Event>
    decreases |names|
  {
    if names == [] then []
    else NamedValuesEvents(values, names[..|names| - 1]) + NamedValueEvents(values, names[|names| - 1])
  }

  function MapValues(m: Entries<CuttingToolValue>): seq<CuttingToolValue>
  {
    seq(|m|, i requires 0 <= i < |m| => m[i].1)
  }

  /** Measurements, in the order of their names, when there are any. */
  function MeasurementsEvents(m: Entries<CuttingToolValue>): seq<Event>
  {
    if m == [] then [] else [Open("Measurements")] + ValueListEvents(MapValues(m)) + [Close]
  }

  function StatusListEvents(status: seq<string>): seq<Event>
    decreases |status|
  {
    if status == [] then []
    else StatusListEvents(status[..|status| - 1]) + SimpleElementEvents("Status", status[|status| - 1], [], false)
  }

  function StatusEvents(status: seq<string>): seq<Event>
  {
    if status == [] then [] else [Open("CutterStatus")] + StatusListEvents(status) + [Close]
  }

  /** The values of a cutting item: Description, Locus, the lives, then every other value. */
  function ItemValuesEvents(item: CuttingItem): seq<Event>
  {
    NamedValueEvents(item.values, "Description") + NamedValueEvents(item.values, "Locus") +
    ValueListEvents(item.lives) + NamedValuesEvents(item.values, ItemRemaining(item.values))
  }

  function ItemEvents(item: CuttingItem): seq<Event>
  {
    [Open("CuttingItem")] + MapAttributeEvents(item.identity) + ItemValuesEvents(item) +
    MeasurementsEvents(item.measurements) + [Close]
  }

  function ItemListEvents(items: seq<CuttingItem>): seq<Event>
    decreases |items|
  {
    if items == [] then [] else ItemListEvents(items[..|items| - 1]) + ItemEvents(items[|items| - 1])
  }

  function CuttingItemsEvents(count: string, items: seq<CuttingItem>): seq<Event>
  {
    if items == [] then [] else [Open("CuttingItems")] + AttributeEvents("count", count) + ItemListEvents(items) + [Close]
  }

  /** The six values printed by name after the tool lives. */
  function LifeCycleKnownEvents(values: Entries<CuttingToolValue>): seq<Event>
  {
    NamedValueEvents(values, "ProgramToolGroup") + NamedValueEvents(values, "ProgramToolNumber") +
    NamedValueEvents(values, "Location") + NamedValueEvents(values, "ProcessSpindleSpeed") +
    NamedValueEvents(values, "ProcessFeedRate") + NamedValueEvents(values, "ConnectionCodeMachineSide")
  }

  /** The values inside the life cycle: ReconditionCount, the lives, the six named values, the rest. */
  function ToolValuesEvents(t: CuttingTool): seq<Event>
  {
    NamedValueEvents(t.values, "ReconditionCount") + ValueListEvents(t.lives) +
    LifeCycleKnownEvents(t.values) + NamedValuesEvents(t.values, ToolRemaining(t.values))
  }

  function ToolTailEvents(t: CuttingTool): seq<Event>
  {
    MeasurementsEvents(t.measurements) + CuttingItemsEvents(t.itemCount, t.items)
  }

  function LifeCycleEvents(t: CuttingTool): seq<Event>
  {
    [Open("CuttingToolLifeCycle")] + StatusEvents(t.status) + ToolValuesEvents(t) + ToolTailEvents(t) + [Close]
  }

  /** printCuttingTool: the tool element with its asset attributes, its definition and its life cycle. */
  function ToolEvents(t: CuttingTool): seq<Event>
  {
    [Open(t.asset.assetType)] + ToolBodyEvents(t) + [Close]
  }

  function ToolBodyEvents(t: CuttingTool): seq<Event>
  {
    AssetNodeEvents(t.asset) + NamedValueEvents(t.values, "CuttingToolDefinition") + LifeCycleEvents(t)
  }

  // ---------------------------------------------------------------------
  // Every value printed exactly once.

  lemma KnownKeysDistinct()
    ensures Distinct(ToolKeys) && Distinct(ItemKeys)
    ensures "Description" !in ToolKeys
  {
  }

  /**
   * The names printed by name that are stored, followed by the unprinted
   * names, hold every stored name that is not excluded exactly once.
   */
  lemma PrintedOnce<V>(values: Entries<V>, known: seq<string>, excluded: set<string>, k: string)
    requires Ascending(values) && Distinct(known)
    requires forall x :: x in known ==> x !in excluded
    ensures multiset(Select(known, Keys(values)) + Unprinted(values, known, excluded))[k] ==
      if k in Keys(values) && k !in excluded then 1 else 0
    ensures StrictlyAscending(Unprinted(values, known, excluded))
  {
    var allowed := Keys(values) - excluded - Elements(known);
    var a := Select(known, Keys(values));
    var b := Unprinted(values, known, excluded);
    assert StrictlyAscending(b) && Distinct(b) by {
      AscendingKeySeq(values);
      StrictlyAscendingDistinct(KeySeq(values));
      SelectAscending(KeySeq(values), allowed);
      SelectDistinct(KeySeq(values), allowed);
    }
    assert Distinct(a) by {
      SelectDistinct(known, Keys(values));
    }
    assert (k in a <==> k in known && k in Keys(values)) && (k in b <==> k in Keys(values) && k in allowed) by {
      assert k in KeySeq(values) <==> k in Keys(values);
    }
    DistinctCount(a, k);
    DistinctCount(b, k);
    assert multiset(a + b)[k] == multiset(a)[k] + multiset(b)[k];
  }

  /**
   * Every value stored in a tool except Description is printed exactly once:
   * first those named in ToolKeys that are stored, in that order, then the
   * rest in ascending order of name.
   */
  lemma ToolValuesOnce(values: Entries<CuttingToolValue>, k: string)
    requires Ascending(values)
    ensures multiset(Select(ToolKeys, Keys(values)) + ToolRemaining(values))[k] ==
      if k in Keys(values) && k != "Description" then 1 else 0
    ensures StrictlyAscending(ToolRemaining(values))
  {
    KnownKeysDistinct();
    PrintedOnce(values, ToolKeys, {"Description"}, k);
  }

  /** Every value stored in a cutting item is printed exactly once: Description, Locus, then the rest ascending. */
  lemma ItemValuesOnce(values: Entries<CuttingToolValue>, k: string)
    requires Ascending(values)
    ensures multiset(Select(ItemKeys, Keys(values)) + ItemRemaining(values))[k] == if k in Keys(values) then 1 else 0
    ensures StrictlyAscending(ItemRemaining(values))
  {
    KnownKeysDistinct();
    PrintedOnce(values, ItemKeys, {}, k);
  }

  /** A name that is not stored prints nothing; a stored one prints its value's element. */
  lemma NamedValueMeaning(values: Entries<CuttingToolValue>, name: string)
    requires Ascending(values)
    ensures name !in Keys(values) ==> NamedValueEvents(values, name) == []
    ensures forall i :: 0 <= i < |values| && values[i].0 == name ==>
      NamedValueEvents(values, name) == ValueEvents(values[i].1)
  {
    GetPresent(values, name);
  }

  lemma UnprintedMembers<V>(values: Entries<V>, known: seq<string>, excluded: set<string>, x: string)
    ensures x in Unprinted(values, known, excluded) <==> x in Keys(values) && x !in excluded && x !in known
  {
    if x in Keys(values) {
      var i :| 0 <= i < |values| && values[i].0 == x;
      assert KeySeq(values)[i] == x;
    }
  }

  /** What is left of the tool's remaining set once the named values are erased is exactly ToolRemaining. */
  lemma ToolRestIsRemaining(values: Entries<CuttingToolValue>, rest: seq<string>)
    requires Ascending(values) && StrictlyAscending(rest)
    requires forall x :: x in rest <==>
      (x in Keys(values) && x != "Description" && x != "CuttingToolDefinition" &&
       (x != "ReconditionCount" || Get(values, x).None?) && (x !in LifeCycleKeys || Get(values, x).None?))
    ensures rest == ToolRemaining(values)
  {
    forall x ensures x in rest <==> x in ToolRemaining(values) {
      GetPresent(values, x);
      UnprintedMembers(values, ToolKeys, {"Description"}, x);
      ToolKeysMembers(x);
    }
    assert StrictlyAscending(ToolRemaining(values)) by {
      ToolValuesOnce(values, "");
    }
    AscendingUnique(rest, ToolRemaining(values));
  }

  lemma ToolKeysMembers(x: string)
    ensures x in ToolKeys <==> x == "CuttingToolDefinition" || x == "ReconditionCount" || x in LifeCycleKeys
  {
  }

  lemma ItemRestIsRemaining(values: Entries<CuttingToolValue>, rest: seq<string>)
    requires Ascending(values) && StrictlyAscending(rest)
    requires forall x :: x in rest <==>
      (x in Keys(values) && (x != "Description" || Get(values, x).None?) && (x != "Locus" || Get(values, x).None?))
    ensures rest == ItemRemaining(values)
  {
    forall x ensures x in rest <==> x in ItemRemaining(values) {
      GetPresent(values, x);
      UnprintedMembers(values, ItemKeys, {}, x);
    }
    assert StrictlyAscending(ItemRemaining(values)) by {
      ItemValuesOnce(values, "");
    }
    AscendingUnique(rest, ItemRemaining(values));
  }

  // ---------------------------------------------------------------------
  // Nesting.

  lemma ValueBalanced(v: CuttingToolValue)
    ensures Balanced(ValueEvents(v))
  {
    SimpleElementBalanced(v.key, v.value, v.properties, true);
  }

  lemma {:induction false} ValueListBalanced(vs: seq<CuttingToolValue>)
    ensures Balanced(ValueListEvents(vs))
    decreases |vs|
  {
    if vs == [] {
      FlatBalanced([]);
    } else {
      ValueListBalanced(vs[..|vs| - 1]);
      ValueBalanced(vs[|vs| - 1]);
      BalancedAppend(ValueListEvents(vs[..|vs| - 1]), ValueEvents(vs[|vs| - 1]));
    }
  }

  lemma NamedValueBalanced(values: Entries<CuttingToolValue>, name: string)
    ensures Balanced(NamedValueEvents(values, name))
  {
    match Get(values, name)
    case Some(v) => ValueBalanced(v);
    case None => FlatBalanced([]);
  }

  lemma {:induction false} NamedValuesBalanced(values: Entries<CuttingToolValue>, names: seq<string>)
    ensures Balanced(NamedValuesEvents(values, names))
    decreases |names|
  {
    if names == [] {
      FlatBalanced([]);
    } else {
      NamedValuesBalanced(values, names[..|names| - 1]);
      NamedValueBalanced(values, names[|names| - 1]);
      BalancedAppend(NamedValuesEvents(values, names[..|names| - 1]), NamedValueEvents(values, names[|names| - 1]));
    }
  }

  lemma MeasurementsBalanced(m: Entries<CuttingToolValue>)
    ensures Balanced(MeasurementsEvents(m))
  {
    if m == [] {
      FlatBalanced([]);
    } else {
      ValueListBalanced(MapValues(m));
      BalancedWrap("Measurements", ValueListEvents(MapValues(m)));
    }
  }

  lemma {:induction false} StatusBalanced(status: seq<string>)
    ensures Balanced(StatusListEvents(status)) && Balanced(StatusEvents(status))
    decreases |status|
  {
    if status == [] {
      FlatBalanced([]);
    } else {
      StatusBalanced(status[..|status| - 1]);
      SimpleElementBalanced("Status", status[|status| - 1], [], false);
      BalancedAppend(StatusListEvents(status[..|status| - 1]), SimpleElementEvents("Status", status[|status| - 1], [], false));
      BalancedWrap("CutterStatus", StatusListEvents(status));
    }
  }

  lemma Join3(a: seq<Event>, b: seq<Event>, c: seq<Event>)
    requires Balanced(a) && Balanced(b) && Balanced(c)
    ensures Balanced(a + b + c)
  {
    BalancedAppend(a, b);
    BalancedAppend(a + b, c);
  }

  lemma Wrap3(n: string, a: seq<Event>, b: seq<Event>, c: seq<Event>)
    requires Balanced(a) && Balanced(b) && Balanced(c)
    ensures Balanced([Open(n)] + a + b + c + [Close])
  {
    Join3(a, b, c);
    BalancedWrap(n, a + b + c);
    assert [Open(n)] + a + b + c + [Close] == [Open(n)] + (a + b + c) + [Close];
  }

  lemma ItemValuesBalanced(item: CuttingItem)
    ensures Balanced(ItemValuesEvents(item))
  {
    var v := item.values;
    NamedValueBalanced(v, "Description");
    NamedValueBalanced(v, "Locus");
    ValueListBalanced(item.lives);
    NamedValuesBalanced(v, ItemRemaining(v));
    Join3(NamedValueEvents(v, "Description"), NamedValueEvents(v, "Locus"), ValueListEvents(item.lives));
    BalancedAppend(NamedValueEvents(v, "Description") + NamedValueEvents(v, "Locus") + ValueListEvents(item.lives),
      NamedValuesEvents(v, ItemRemaining(v)));
  }

  lemma ItemBalanced(item: CuttingItem)
    ensures Balanced(ItemEvents(item))
  {
    MapAttributesFlat(item.identity);
    FlatBalanced(MapAttributeEvents(item.identity));
    ItemValuesBalanced(item);
    MeasurementsBalanced(item.measurements);
    Wrap3("CuttingItem", MapAttributeEvents(item.identity), ItemValuesEvents(item), MeasurementsEvents(item.measurements));
  }

  lemma {:induction false} ItemListBalanced(items: seq<CuttingItem>)
    ensures Balanced(ItemListEvents(items))
    decreases |items|
  {
    if items == [] {
      FlatBalanced([]);
    } else {
      ItemListBalanced(items[..|items| - 1]);
      ItemBalanced(items[|items| - 1]);
      BalancedAppend(ItemListEvents(items[..|items| - 1]), ItemEvents(items[|items| - 1]));
    }
  }

  lemma CuttingItemsBalanced(count: string, items: seq<CuttingItem>)
    ensures Balanced(CuttingItemsEvents(count, items))
  {
    if items == [] {
      FlatBalanced([]);
    } else {
      FlatBalanced(AttributeEvents("count", count));
      ItemListBalanced(items);
      BalancedAppend(AttributeEvents("count", count), ItemListEvents(items));
      WrapTwo("CuttingItems", AttributeEvents("count", count), ItemListEvents(items));
    }
  }

  lemma LifeCycleKnownBalanced(values: Entries<CuttingToolValue>)
    ensures Balanced(LifeCycleKnownEvents(values))
  {
    var a := NamedValueEvents(values, "ProgramToolGroup");
    var b := NamedValueEvents(values, "ProgramToolNumber");
    var c := NamedValueEvents(values, "Location");
    var d := NamedValueEvents(values, "ProcessSpindleSpeed");
    var e := NamedValueEvents(values, "ProcessFeedRate");
    var f := NamedValueEvents(values, "ConnectionCodeMachineSide");
    NamedValueBalanced(values, "ProgramToolGroup");
    NamedValueBalanced(values, "ProgramToolNumber");
    NamedValueBalanced(values, "Location");
    NamedValueBalanced(values, "ProcessSpindleSpeed");
    NamedValueBalanced(values, "ProcessFeedRate");
    NamedValueBalanced(values, "ConnectionCodeMachineSide");
    BalancedAppend(a, b);
    BalancedAppend(a + b, c);
    BalancedAppend(a + b + c, d);
    BalancedAppend(a + b + c + d, e);
    BalancedAppend(a + b + c + d + e, f);
  }

  lemma ToolValuesBalanced(t: CuttingTool)
    ensures Balanced(ToolValuesEvents(t))
  {
    var a := NamedValueEvents(t.values, "ReconditionCount");
    var b := ValueListEvents(t.lives);
    var c := LifeCycleKnownEvents(t.values);
    var d := NamedValuesEvents(t.values, ToolRemaining(t.values));
    NamedValueBalanced(t.values, "ReconditionCount");
    ValueListBalanced(t.lives);
    LifeCycleKnownBalanced(t.values);
    NamedValuesBalanced(t.values, ToolRemaining(t.values));
    BalancedAppend(a, b);
    BalancedAppend(a + b, c);
    BalancedAppend(a + b + c, d);
  }

  lemma LifeCycleBalanced(t: CuttingTool)
    ensures Balanced(LifeCycleEvents(t))
  {
    StatusBalanced(t.status);
    ToolValuesBalanced(t);
    MeasurementsBalanced(t.measurements);
    CuttingItemsBalanced(t.itemCount, t.items);
    BalancedAppend(MeasurementsEvents(t.measurements), CuttingItemsEvents(t.itemCount, t.items));
    Wrap3("CuttingToolLifeCycle", StatusEvents(t.status), ToolValuesEvents(t), ToolTailEvents(t));
  }

  /** The document of a cutting tool is one balanced element. */
  lemma ToolBalanced(t: CuttingTool)
    ensures Balanced(ToolEvents(t))
  {
    AssetAttributesFlat(t.asset);
    FlatBalanced(AssetAttributeEvents(t.asset));
    AssetChildBalanced(t.asset);
    BalancedAppend(AssetAttributeEvents(t.asset), AssetChildEvents(t.asset));
    NamedValueBalanced(t.values, "CuttingToolDefinition");
    LifeCycleBalanced(t);
    Join3(AssetNodeEvents(t.asset), NamedValueEvents(t.values, "CuttingToolDefinition"), LifeCycleEvents(t));
    BalancedWrap(t.asset.assetType, ToolBodyEvents(t));
  }

  // ---------------------------------------------------------------------
  // The printer's code.

  method PrintValue(w: Writer, v: CuttingToolValue)
    modifies w
    ensures w.state == EmitAll(old(w.state), ValueEvents(v))
  {
    AddSimpleElement(w, v.key, v.value, v.properties, true);
  }

  method PrintValueList(w: Writer, vs: seq<CuttingToolValue>)
    modifies w
    ensures w.state == EmitAll(old(w.state), ValueListEvents(vs))
  {
    for i := 0 to |vs|
      invariant w.state == EmitAll(old(w.state), ValueListEvents(vs[..i]))
    {
      PrintValue(w, vs[i]);
      assert vs[..i + 1][..i] == vs[..i];
      EmitAllAppend(old(w.state), ValueListEvents(vs[..i]), ValueEvents(vs[i]));
    }
    assert vs[..|vs|] == vs;
  }

  /** printCuttingToolValue(tool, name) without a remaining set. */
  method PrintStoredValue(w: Writer, values: Entries<CuttingToolValue>, name: string)
    modifies w
    ensures w.state == EmitAll(old(w.state), NamedValueEvents(values, name))
  {
    var found := Get(values, name);
    if found.Some? {
      PrintValue(w, found.value);
    }
  }

  /** printCuttingToolValue(tool, name, &remaining): a stored value is printed and erased from the remaining set. */
  method PrintKnownValue(w: Writer, values: Entries<CuttingToolValue>, name: string, remaining: seq<string>)
    returns (rest: seq<string>)
    requires StrictlyAscending(remaining)
    modifies w
    ensures w.state == EmitAll(old(w.state), NamedValueEvents(values, name))
    ensures StrictlyAscending(rest)
    ensures forall x :: x in rest <==> x in remaining && (x != name || Get(values, name).None?)
  {
    rest := remaining;
    if Get(values, name).Some? {
      SetEraseAscending(remaining, name);
      rest := SetErase(remaining, name);
    }
    PrintStoredValue(w, values, name);
  }

  /** The loop over the remaining names. */
  method PrintNamedValues(w: Writer, values: Entries<CuttingToolValue>, names: seq<string>)
    modifies w
    ensures w.state == EmitAll(old(w.state), NamedValuesEvents(values, names))
  {
    for i := 0 to |names|
      invariant w.state == EmitAll(old(w.state), NamedValuesEvents(values, names[..i]))
    {
      PrintStoredValue(w, values, names[i]);
      assert names[..i + 1][..i] == names[..i];
      EmitAllAppend(old(w.state), NamedValuesEvents(values, names[..i]), NamedValueEvents(values, names[i]));
    }
    assert names[..|names|] == names;
  }

  /** Filling the remaining set with every stored name that is not excluded. */
  method CollectRemaining(values: Entries<CuttingToolValue>, excluded: set<string>) returns (remaining: seq<string>)
    ensures StrictlyAscending(remaining)
    ensures forall x :: x in remaining <==> x in Keys(values) && x !in excluded
  {
    remaining := [];
    for i := 0 to |values|
      invariant StrictlyAscending(remaining)
      invariant forall x :: x in remaining <==> (exists j :: 0 <= j < i && values[j].0 == x) && x !in excluded
    {
      if values[i].0 !in excluded {
        remaining := SetInsert(remaining, values[i].0);
      }
    }
  }

  method PrintMeasurements(w: Writer, m: Entries<CuttingToolValue>)
    modifies w
    ensures w.state == EmitAll(old(w.state), MeasurementsEvents(m))
  {
    if m != [] {
      ghost var s0 := w.state;
      var element := new AutoElement(w, "Measurements", "");
      EmitSingle(s0, Open("Measurements"));
      PrintValueList(w, MapValues(m));
      EmitAllAppend(s0, [Open("Measurements")], ValueListEvents(MapValues(m)));
      element.Finish();
      EmitAllAppend(s0, [Open("Measurements")] + ValueListEvents(MapValues(m)), [Close]);
    }
  }

  method PrintStatusList(w: Writer, status: seq<string>)
    modifies w
    ensures w.state == EmitAll(old(w.state), StatusListEvents(status))
  {
    for i := 0 to |status|
      invariant w.state == EmitAll(old(w.state), StatusListEvents(status[..i]))
    {
      AddSimpleElement(w, "Status", status[i], [], false);
      assert status[..i + 1][..i] == status[..i];
      EmitAllAppend(old(w.state), StatusListEvents(status[..i]), SimpleElementEvents("Status", status[i], [], false));
    }
    assert status[..|status|] == status;
  }

  method PrintStatus(w: Writer, status: seq<string>)
    modifies w
    ensures w.state == EmitAll(old(w.state), StatusEvents(status))
  {
    if status != [] {
      ghost var s0 := w.state;
      var element := new AutoElement(w, "CutterStatus", "");
      EmitSingle(s0, Open("CutterStatus"));
      PrintStatusList(w, status);
      EmitAllAppend(s0, [Open("CutterStatus")], StatusListEvents(status));
      element.Finish();
      EmitAllAppend(s0, [Open("CutterStatus")] + StatusListEvents(status), [Close]);
    }
  }

  /** The values of a cutting item, with its remaining set. */
  method PrintItemValues(w: Writer, item: CuttingItem)
    requires Ascending(item.values)
    modifies w
    ensures w.state == EmitAll(old(w.state), ItemValuesEvents(item))
  {
    ghost var s0 := w.state;
    var v := item.values;
    var remaining := CollectRemaining(v, {});
    remaining := PrintKnownValue(w, v, "Description", remaining);
    ghost var a := NamedValueEvents(v, "Description");
    remaining := PrintKnownValue(w, v, "Locus", remaining);
    EmitAllAppend(s0, a, NamedValueEvents(v, "Locus"));
    a := a + NamedValueEvents(v, "Locus");
    PrintValueList(w, item.lives);
    EmitAllAppend(s0, a, ValueListEvents(item.lives));
    a := a + ValueListEvents(item.lives);
    ItemRestIsRemaining(v, remaining);
    PrintNamedValues(w, v, remaining);
    EmitAllAppend(s0, a, NamedValuesEvents(v, remaining));
  }

  /** printCuttingToolItem. */
  method PrintCuttingItem(w: Writer, item: CuttingItem)
    requires Ascending(item.values)
    modifies w
    ensures w.state == EmitAll(old(w.state), ItemEvents(item))
  {
    ghost var s0 := w.state;
    var element := new AutoElement(w, "CuttingItem", "");
    EmitSingle(s0, Open("CuttingItem"));
    AddAttributes(w, item.identity);
    EmitAllAppend(s0, [Open("CuttingItem")], MapAttributeEvents(item.identity));
    ghost var a := [Open("CuttingItem")] + MapAttributeEvents(item.identity);
    PrintItemValues(w, item);
    EmitAllAppend(s0, a, ItemValuesEvents(item));
    a := a + ItemValuesEvents(item);
    PrintMeasurements(w, item.measurements);
    EmitAllAppend(s0, a, MeasurementsEvents(item.measurements));
    a := a + MeasurementsEvents(item.measurements);
    element.Finish();
    EmitAllAppend(s0, a, [Close]);
  }

  method PrintItemList(w: Writer, items: seq<CuttingItem>)
    requires forall i :: 0 <= i < |items| ==> Ascending(items[i].values)
    modifies w
    ensures w.state == EmitAll(old(w.state), ItemListEvents(items))
  {
    for i := 0 to |items|
      invariant w.state == EmitAll(old(w.state), ItemListEvents(items[..i]))
    {
      PrintCuttingItem(w, items[i]);
      assert ItemListEvents(items[..i + 1]) == ItemListEvents(items[..i]) + ItemEvents(items[i]) by {
        assert items[..i + 1][..i] == items[..i];
      }
      EmitAllAppend(old(w.state), ItemListEvents(items[..i]), ItemEvents(items[i]));
    }
    assert items[..|items|] == items;
  }

  method PrintCuttingItems(w: Writer, count: string, items: seq<CuttingItem>)
    requires forall i :: 0 <= i < |items| ==> Ascending(items[i].values)
    modifies w
    ensures w.state == EmitAll(old(w.state), CuttingItemsEvents(count, items))
  {
    if items != [] {
      ghost var s0 := w.state;
      var element := new AutoElement(w, "CuttingItems", "");
      EmitSingle(s0, Open("CuttingItems"));
      AddAttribute(w, "count", count);
      EmitAllAppend(s0, [Open("CuttingItems")], AttributeEvents("count", count));
      ghost var a := [Open("CuttingItems")] + AttributeEvents("count", count);
      PrintItemList(w, items);
      EmitAllAppend(s0, a, ItemListEvents(items));
      a := a + ItemListEvents(items);
      element.Finish();
      EmitAllAppend(s0, a, [Close]);
    }
  }

  /** The six named values after the lives, each erased from the remaining set. */
  method PrintLifeCycleKnown(w: Writer, values: Entries<CuttingToolValue>, remaining: seq<string>)
    returns (rest: seq<string>)
    requires StrictlyAscending(remaining)
    modifies w
    ensures w.state == EmitAll(old(w.state), LifeCycleKnownEvents(values))
    ensures StrictlyAscending(rest)
    ensures forall x :: x in rest <==> x in remaining && (x !in LifeCycleKeys || Get(values, x).None?)
  {
    ghost var s0 := w.state;
    rest := PrintKnownValue(w, values, "ProgramToolGroup", remaining);
    ghost var a := NamedValueEvents(values, "ProgramToolGroup");
    rest := PrintKnownValue(w, values, "ProgramToolNumber", rest);
    EmitAllAppend(s0, a, NamedValueEvents(values, "ProgramToolNumber"));
    a := a + NamedValueEvents(values, "ProgramToolNumber");
    rest := PrintKnownValue(w, values, "Location", rest);
    EmitAllAppend(s0, a, NamedValueEvents(values, "Location"));
    a := a + NamedValueEvents(values, "Location");
    rest := PrintKnownValue(w, values, "ProcessSpindleSpeed", rest);
    EmitAllAppend(s0, a, NamedValueEvents(values, "ProcessSpindleSpeed"));
    a := a + NamedValueEvents(values, "ProcessSpindleSpeed");
    rest := PrintKnownValue(w, values, "ProcessFeedRate", rest);
    EmitAllAppend(s0, a, NamedValueEvents(values, "ProcessFeedRate"));
    a := a + NamedValueEvents(values, "ProcessFeedRate");
    rest := PrintKnownValue(w, values, "ConnectionCodeMachineSide", rest);
    EmitAllAppend(s0, a, NamedValueEvents(values, "ConnectionCodeMachineSide"));
  }

  /** The values inside the life cycle, given the remaining set after CuttingToolDefinition. */
  method PrintToolValues(w: Writer, t: CuttingTool, remaining: seq<string>)
    requires Ascending(t.values) && StrictlyAscending(remaining)
    requires forall x :: x in remaining <==>
      x in Keys(t.values) && x != "Description" && x != "CuttingToolDefinition"
    modifies w
    ensures w.state == EmitAll(old(w.state), ToolValuesEvents(t))
  {
    ghost var s0 := w.state;
    var rest := PrintKnownValue(w, t.values, "ReconditionCount", remaining);
    ghost var a := NamedValueEvents(t.values, "ReconditionCount");
    PrintValueList(w, t.lives);
    EmitAllAppend(s0, a, ValueListEvents(t.lives));
    a := a + ValueListEvents(t.lives);
    rest := PrintLifeCycleKnown(w, t.values, rest);
    EmitAllAppend(s0, a, LifeCycleKnownEvents(t.values));
    a := a + LifeCycleKnownEvents(t.values);
    ToolRestIsRemaining(t.values, rest);
    PrintNamedValues(w, t.values, rest);
    EmitAllAppend(s0, a, NamedValuesEvents(t.values, rest));
  }

  method PrintToolTail(w: Writer, t: CuttingTool)
    requires WellFormed(t)
    modifies w
    ensures w.state == EmitAll(old(w.state), ToolTailEvents(t))
  {
    ghost var s0 := w.state;
    PrintMeasurements(w, t.measurements);
    PrintCuttingItems(w, t.itemCount, t.items);
    EmitAllAppend(s0, MeasurementsEvents(t.measurements), CuttingItemsEvents(t.itemCount, t.items));
  }

  method PrintLifeCycle(w: Writer, t: CuttingTool, remaining: seq<string>)
    requires WellFormed(t) && StrictlyAscending(remaining)
    requires forall x :: x in remaining <==>
      x in Keys(t.values) && x != "Description" && x != "CuttingToolDefinition"
    modifies w
    ensures w.state == EmitAll(old(w.state), LifeCycleEvents(t))
  {
    ghost var s0 := w.state;
    var element := new AutoElement(w, "CuttingToolLifeCycle", "");
    EmitSingle(s0, Open("CuttingToolLifeCycle"));
    PrintStatus(w, t.status);
    EmitAllAppend(s0, [Open("CuttingToolLifeCycle")], StatusEvents(t.status));
    ghost var a := [Open("CuttingToolLifeCycle")] + StatusEvents(t.status);
    PrintToolValues(w, t, remaining);
    EmitAllAppend(s0, a, ToolValuesEvents(t));
    a := a + ToolValuesEvents(t);
    PrintToolTail(w, t);
    EmitAllAppend(s0, a, ToolTailEvents(t));
    a := a + ToolTailEvents(t);
    element.Finish();
    EmitAllAppend(s0, a, [Close]);
  }

  /** Inside the tool element: the asset's attributes and children, CuttingToolDefinition, the life cycle. */
  method PrintToolBody(w: Writer, t: CuttingTool)
    requires WellFormed(t)
    modifies w
    ensures w.state == EmitAll(old(w.state), ToolBodyEvents(t))
  {
    ghost var s0 := w.state;
    PrintAssetNode(w, t.asset);
    var remaining := CollectRemaining(t.values, {"Description"});
    remaining := PrintKnownValue(w, t.values, "CuttingToolDefinition", remaining);
    EmitAllAppend(s0, AssetNodeEvents(t.asset), NamedValueEvents(t.values, "CuttingToolDefinition"));
    ghost var a := AssetNodeEvents(t.asset) + NamedValueEvents(t.values, "CuttingToolDefinition");
    GetPresent(t.values, "CuttingToolDefinition");
    PrintLifeCycle(w, t, remaining);
    EmitAllAppend(s0, a, LifeCycleEvents(t));
  }

  /** printCuttingTool, up to reading the writer's content. */
  method PrintCuttingToolElement(w: Writer, t: CuttingTool)
    requires WellFormed(t)
    modifies w
    ensures w.state == EmitAll(old(w.state), ToolEvents(t))
  {
    ghost var s0 := w.state;
    var element := new AutoElement(w, t.asset.assetType, "");
    EmitSingle(s0, Open(t.asset.assetType));
    PrintToolBody(w, t);
    EmitAllAppend(s0, [Open(t.asset.assetType)], ToolBodyEvents(t));
    ghost var s2 := w.state;
    element.Finish();
    GuardClosed(s0, s2, t.asset.assetType, ToolBodyEvents(t));
  }
}
