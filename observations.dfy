/**
 * One observation in a Streams document (addObservation,
 * src/xml_printer.cpp:967-1057): its element name, its attributes, and a
 * body chosen by the kind of value it carries.
 */
module Observations {
  import opened Wrappers
  import opened Strings
  import opened OrderedMaps
  import opened XmlWriter
  import opened XmlElements
  import opened Namespaces

  /** A table cell: text, a 64-bit integer, a double (held as its rendered text), or a nested row, which is not printable. */
  datatype CellValue = CellText(text: string) | CellInteger(n: int) | CellDouble(rendered: string) | CellRow

  datatype Cell = Cell(key: string, value: CellValue)

  /** A data-set entry value: text, a 64-bit integer, a double (held as its rendered text), or a table row. */
  datatype EntryValue = EntryText(text: string) | EntryInteger(n: int) | EntryDouble(rendered: string) | EntryRow(cells: seq<Cell>)

  /** A data-set entry; `removed` marks a tombstone. */
  datatype DataSetEntry = DataSetEntry(key: string, removed: bool, value: EntryValue)

  /** What the observation's value is, beyond its text: a plain value, a time series (rendered samples) or a data set. */
  datatype Payload = Scalar | TimeSeries(samples: seq<string>) | DataSet(entries: seq<DataSetEntry>)

  /**
   * An observation as addObservation and printSample read it: the ids and
   * names of its device and component, the data item's category text,
   * condition level, namespace prefix and element names, the observation's
   * own attributes, its value text and its payload.
   */
  datatype Observation = Observation(
    deviceId: string,
    deviceName: string,
    deviceUuid: string,
    componentId: string,
    componentClass: string,
    componentName: string,
    category: string,
    isCondition: bool,
    level: string,
    prefix: string,
    prefixedName: string,
    elementName: string,
    attributes: seq<ListAttribute>,
    value: string,
    payload: Payload)

  const Unavailable: string := "UNAVAILABLE"

  /** The element name: the level for a condition; else the prefixed name when the prefix is a registered streams namespace. */
  function ElementName(o: Observation, streams: Registry): string
  {
    if o.isCondition then o.level
    else
      var prefixed := if o.prefix != "" && Get(streams, o.prefix).Some? then o.prefixedName else "";
      if prefixed == "" then o.elementName else prefixed
  }

  /** The time-series text: every sample followed by one space. */
  function SeriesText(samples: seq<string>): string
    decreases |samples|
  {
    if samples == [] then "" else SeriesText(samples[..|samples| - 1]) + samples[|samples| - 1] + " "
  }

  function CellAttributes(c: Cell): Entries<string>
  {
    FromPairs([("key", c.key)])
  }

  /** A cell is printed as a Cell element, except a nested row, which prints nothing. */
  function CellEvents(c: Cell): seq<Event>
  {
    match c.value
    case CellText(t) => SimpleElementEvents("Cell", t, CellAttributes(c), false)
    case CellInteger(n) => SimpleElementEvents("Cell", IntToString(n), CellAttributes(c), false)
    case CellDouble(r) => SimpleElementEvents("Cell", r, CellAttributes(c), false)
    case CellRow => []
  }

  function CellsEvents(cells: seq<Cell>): seq<Event>
    decreases |cells|
  {
    if cells == [] then [] else CellsEvents(cells[..|cells| - 1]) + CellEvents(cells[|cells| - 1])
  }

  /** The attributes of an Entry: its key, and removed="true" for a tombstone. */
  function EntryAttributes(e: DataSetEntry): Entries<string>
  {
    var attrs := FromPairs([("key", e.key)]);
    if e.removed then Insert(attrs, "removed", "true") else attrs
  }

  function EntryEvents(e: DataSetEntry): seq<Event>
  {
    match e.value
    case EntryText(t) => SimpleElementEvents("Entry", t, EntryAttributes(e), false)
    case EntryInteger(n) => SimpleElementEvents("Entry", IntToString(n), EntryAttributes(e), false)
    case EntryDouble(r) => SimpleElementEvents("Entry", r, EntryAttributes(e), false)
    case EntryRow(cells) => [Open("Entry")] + MapAttributeEvents(EntryAttributes(e)) + CellsEvents(cells) + [Close]
  }

  function DataSetEvents(entries: seq<DataSetEntry>): seq<Event>
    decreases |entries|
  {
    if entries == [] then [] else DataSetEvents(entries[..|entries| - 1]) + EntryEvents(entries[|entries| - 1])
  }

  /** The body: a time series or a data set unless the value is UNAVAILABLE, otherwise the value as escaped text. */
  function PayloadEvents(o: Observation): seq<Event>
  {
    if o.payload.TimeSeries? && o.value != Unavailable then [Text(SeriesText(o.payload.samples))]
    else if o.payload.DataSet? && o.value != Unavailable then DataSetEvents(o.payload.entries)
    else if o.value != "" then [Text(o.value)]
    else []
  }

  function ObservationEvents(o: Observation, streams: Registry): seq<Event>
  {
    [Open(ElementName(o, streams))] + AttributeListEvents(o.attributes) + PayloadEvents(o) + [Close]
  }

  // ---------------------------------------------------------------------
  // Properties of an observation's element.

  /**
   * A condition is named by its level; any other observation takes its
   * prefixed name when, and only when, its prefix is registered in the
   * streams namespaces (and the prefixed name is not empty).
   */
  lemma ElementNameChoice(o: Observation, streams: Registry)
    ensures o.isCondition ==> ElementName(o, streams) == o.level
    ensures !o.isCondition && o.prefix != "" && o.prefix in Keys(streams) && o.prefixedName != "" ==>
      ElementName(o, streams) == o.prefixedName
    ensures !o.isCondition && ElementName(o, streams) != o.elementName ==>
      o.prefix != "" && o.prefix in Keys(streams) && ElementName(o, streams) == o.prefixedName
  {
    GetPresent(streams, o.prefix);
  }

  /** An UNAVAILABLE observation is written as that text whatever its kind. */
  lemma UnavailableAsText(o: Observation)
    requires o.value == Unavailable
    ensures PayloadEvents(o) == [Text(Unavailable)]
  {
  }

  /** A tombstoned entry, and only a tombstoned one, carries removed="true"; every entry carries its key. */
  lemma EntryAttributesMeaning(e: DataSetEntry)
    ensures Ascending(EntryAttributes(e))
    ensures Get(EntryAttributes(e), "key") == Some(e.key)
    ensures Get(EntryAttributes(e), "removed") == if e.removed then Some("true") else None
    ensures Attr("removed", "true") in MapAttributeEvents(EntryAttributes(e)) <==> e.removed
  {
    var attrs := FromPairs([("key", e.key)]);
    FromPairsSingle("key", e.key);
    if e.removed {
      assert Less("key", "removed");
      GetAfterInsert(attrs, "removed", "true", "key");
      GetAfterInsert(attrs, "removed", "true", "removed");
      assert EntryAttributes(e) == [("key", e.key), ("removed", "true")];
    }
    MapAttributesWritten(EntryAttributes(e), "removed", "true");
  }

  /** A cell prints nothing exactly when its type is not printable. */
  lemma CellSilentIffUnsupported(c: Cell)
    ensures CellEvents(c) == [] <==> c.value.CellRow?
  {
  }

  lemma {:induction false} CellsBalanced(cells: seq<Cell>)
    ensures Balanced(CellsEvents(cells))
    decreases |cells|
  {
    if cells == [] {
      FlatBalanced([]);
    } else {
      var c := cells[|cells| - 1];
      CellsBalanced(cells[..|cells| - 1]);
      match c.value {
        case CellRow => FlatBalanced([]);
        case CellText(t) => SimpleElementBalanced("Cell", t, CellAttributes(c), false);
        case CellInteger(n) => SimpleElementBalanced("Cell", IntToString(n), CellAttributes(c), false);
        case CellDouble(r) => SimpleElementBalanced("Cell", r, CellAttributes(c), false);
      }
      BalancedAppend(CellsEvents(cells[..|cells| - 1]), CellEvents(c));
    }
  }

  lemma EntryBalanced(e: DataSetEntry)
    ensures Balanced(EntryEvents(e))
  {
    match e.value {
      case EntryText(t) => SimpleElementBalanced("Entry", t, EntryAttributes(e), false);
      case EntryInteger(n) => SimpleElementBalanced("Entry", IntToString(n), EntryAttributes(e), false);
      case EntryDouble(r) => SimpleElementBalanced("Entry", r, EntryAttributes(e), false);
      case EntryRow(cells) =>
        var a := MapAttributeEvents(EntryAttributes(e));
        MapAttributesFlat(EntryAttributes(e));
        FlatBalanced(a);
        CellsBalanced(cells);
        BalancedAppend(a, CellsEvents(cells));
        WrapTwo("Entry", a, CellsEvents(cells));
    }
  }

  lemma {:induction false} DataSetBalanced(entries: seq<DataSetEntry>)
    ensures Balanced(DataSetEvents(entries))
    decreases |entries|
  {
    if entries == [] {
      FlatBalanced([]);
    } else {
      DataSetBalanced(entries[..|entries| - 1]);
      EntryBalanced(entries[|entries| - 1]);
      BalancedAppend(DataSetEvents(entries[..|entries| - 1]), EntryEvents(entries[|entries| - 1]));
    }
  }

  /** Every observation is one balanced element. */
  lemma ObservationBalanced(o: Observation, streams: Registry)
    ensures Balanced(ObservationEvents(o, streams))
  {
    var a := AttributeListEvents(o.attributes);
    ListAttributesFlat(o.attributes);
    FlatBalanced(a);
    if o.payload.DataSet? && o.value != Unavailable {
      DataSetBalanced(o.payload.entries);
    } else {
      FlatBalanced(PayloadEvents(o));
    }
    BalancedAppend(a, PayloadEvents(o));
    WrapTwo(ElementName(o, streams), a, PayloadEvents(o));
  }

  // ---------------------------------------------------------------------
  // The body writers.

  /** The ostringstream loop: each sample, then a space. */
  method SeriesString(samples: seq<string>) returns (text: string)
    ensures text == SeriesText(samples)
  {
    text := "";
    for i := 0 to |samples|
      invariant text == SeriesText(samples[..i])
    {
      assert samples[..i + 1][..i] == samples[..i];
      text := text + samples[i] + " ";
    }
    assert samples[..|samples|] == samples;
  }

  method AddCell(w: Writer, c: Cell)
    modifies w
    ensures w.state == EmitAll(old(w.state), CellEvents(c))
  {
    match c.value {
      case CellText(t) => AddSimpleElement(w, "Cell", t, CellAttributes(c), false);
      case CellInteger(n) => AddSimpleElement(w, "Cell", IntToString(n), CellAttributes(c), false);
      case CellDouble(r) => AddSimpleElement(w, "Cell", r, CellAttributes(c), false);
      case CellRow =>
    }
  }

  method AddCells(w: Writer, cells: seq<Cell>)
    modifies w
    ensures w.state == EmitAll(old(w.state), CellsEvents(cells))
  {
    for i := 0 to |cells|
      invariant w.state == EmitAll(old(w.state), CellsEvents(cells[..i]))
    {
      AddCell(w, cells[i]);
      assert cells[..i + 1][..i] == cells[..i];
      EmitAllAppend(old(w.state), CellsEvents(cells[..i]), CellEvents(cells[i]));
    }
    assert cells[..|cells|] == cells;
  }

  /** A table row: an Entry element holding the entry's attributes and one Cell per printable cell. */
  method AddRow(w: Writer, attrs: Entries<string>, cells: seq<Cell>)
    modifies w
    ensures w.state == EmitAll(old(w.state), [Open("Entry")] + MapAttributeEvents(attrs) + CellsEvents(cells) + [Close])
  {
    ghost var s0 := w.state;
    var ele := new AutoElement(w, "Entry", "");
    EmitSingle(s0, Open("Entry"));
    AddAttributes(w, attrs);
    EmitAllAppend(s0, [Open("Entry")], MapAttributeEvents(attrs));
    ghost var s1 := w.state;
    AddCells(w, cells);
    EmitAllAppend(s0, [Open("Entry")] + MapAttributeEvents(attrs), CellsEvents(cells));
    ghost var s2 := w.state;
    ele.Finish();
    EmitSingle(s2, Close);
    EmitAllAppend(s0, [Open("Entry")] + MapAttributeEvents(attrs) + CellsEvents(cells), [Close]);
  }

  method AddEntry(w: Writer, e: DataSetEntry)
    modifies w
    ensures w.state == EmitAll(old(w.state), EntryEvents(e))
  {
    var attrs := EntryAttributes(e);
    match e.value {
      case EntryText(t) => AddSimpleElement(w, "Entry", t, attrs, false);
      case EntryInteger(n) => AddSimpleElement(w, "Entry", IntToString(n), attrs, false);
      case EntryDouble(r) => AddSimpleElement(w, "Entry", r, attrs, false);
      case EntryRow(cells) => AddRow(w, attrs, cells);
    }
  }

  method AddDataSet(w: Writer, entries: seq<DataSetEntry>)
    modifies w
    ensures w.state == EmitAll(old(w.state), DataSetEvents(entries))
  {
    for i := 0 to |entries|
      invariant w.state == EmitAll(old(w.state), DataSetEvents(entries[..i]))
    {
      AddEntry(w, entries[i]);
      assert entries[..i + 1][..i] == entries[..i];
      EmitAllAppend(old(w.state), DataSetEvents(entries[..i]), EntryEvents(entries[i]));
    }
    assert entries[..|entries|] == entries;
  }

  /** The body dispatch of addObservation. */
  method AddPayload(w: Writer, o: Observation)
    modifies w
    ensures w.state == EmitAll(old(w.state), PayloadEvents(o))
  {
    if o.payload.TimeSeries? && o.value != Unavailable {
      var text := SeriesString(o.payload.samples);
      w.Write(Text(text));
      EmitSingle(old(w.state), Text(text));
    } else if o.payload.DataSet? && o.value != Unavailable {
      AddDataSet(w, o.payload.entries);
    } else if o.value != "" {
      w.Write(Text(o.value));
      EmitSingle(old(w.state), Text(o.value));
    }
  }

  /** addObservation: the element, the observation's attributes, the body, the end tag. */
  method AddObservation(w: Writer, o: Observation, streams: Registry)
    modifies w
    ensures w.state == EmitAll(old(w.state), ObservationEvents(o, streams))
  {
    var name := "";
    if o.isCondition {
      name := o.level;
    } else {
      if o.prefix != "" {
        var ns := Get(streams, o.prefix);
        if ns.Some? {
          name := o.prefixedName;
        }
      }
      if name == "" {
        name := o.elementName;
      }
    }
    assert name == ElementName(o, streams);
    ghost var s0 := w.state;
    var ele := new AutoElement(w, name, "");
    ghost var s1 := w.state;
    AddAttributeList(w, o.attributes);
    ghost var s2 := w.state;
    AddPayload(w, o);
    ghost var s3 := w.state;
    ele.Finish();
    GuardedElement(s0, s1, s2, s3, name, AttributeListEvents(o.attributes), PayloadEvents(o));
  }
}
