/**
 * Pieces of the Devices document (printProbeHelper and printDataItem,
 * src/xml_printer.cpp:650-764): how a child component's element is named,
 * the Compositions, the References, gated on the schema version, and a
 * data item's Filters.
 */
module Probe {
  import opened Wrappers
  import opened Strings
  import opened OrderedMaps
  import opened XmlWriter
  import opened XmlElements
  import opened Namespaces

  // ---------------------------------------------------------------------
  // Child components.

  /**
   * The element name of a child component: its prefixed class when it has a
   * prefix that is registered among the Devices namespaces, its class otherwise.
   */
  function ChildName(prefix: string, prefixedClass: string, componentClass: string, devices: Registry): (r: string)
    ensures r == prefixedClass || r == componentClass
  {
    if prefix != "" && Get(devices, prefix).Some? then prefixedClass else componentClass
  }

  /** The prefixed class is used exactly when the prefix is non-empty and registered. */
  lemma ChildNameChoice(prefix: string, prefixedClass: string, componentClass: string, devices: Registry)
    requires Ascending(devices)
    ensures prefix != "" && prefix in Keys(devices) ==> ChildName(prefix, prefixedClass, componentClass, devices) == prefixedClass
    ensures prefix == "" || prefix !in Keys(devices) ==> ChildName(prefix, prefixedClass, componentClass, devices) == componentClass
  {
    GetPresent(devices, prefix);
  }

  // ---------------------------------------------------------------------
  // Compositions.

  datatype CompositionDescription = CompositionDescription(body: string, attributes: Entries<string>)

  datatype Composition = Composition(attributes: Entries<string>, description: Option<CompositionDescription>)

  function CompositionEvents(c: Composition): seq<Event>
  {
    [Open("Composition")] + MapAttributeEvents(c.attributes) +
    (match c.description
     case Some(d) => SimpleElementEvents("Description", d.body, d.attributes, false)
     case None => []) +
    [Close]
  }

  function CompositionListEvents(cs: seq<Composition>): seq<Event>
    decreases |cs|
  {
    if cs == [] then [] else CompositionListEvents(cs[..|cs| - 1]) + CompositionEvents(cs[|cs| - 1])
  }

  /** The Compositions element, present only when the component has compositions. */
  function CompositionsEvents(cs: seq<Composition>): seq<Event>
  {
    if cs == [] then [] else [Open("Compositions")] + CompositionListEvents(cs) + [Close]
  }

  lemma CompositionBalanced(c: Composition)
    ensures Balanced(CompositionEvents(c))
  {
    var attrs := MapAttributeEvents(c.attributes);
    MapAttributesFlat(c.attributes);
    FlatBalanced(attrs);
    var desc := match c.description
      case Some(d) => SimpleElementEvents("Description", d.body, d.attributes, false)
      case None => [];
    if c.description.Some? {
      var d := c.description.value;
      SimpleElementBalanced("Description", d.body, d.attributes, false);
    } else {
      FlatBalanced(desc);
    }
    BalancedAppend(attrs, desc);
    WrapTwo("Composition", attrs, desc);
  }

  lemma {:induction false} CompositionListBalanced(cs: seq<Composition>)
    ensures Balanced(CompositionListEvents(cs))
    decreases |cs|
  {
    if cs == [] {
      FlatBalanced([]);
    } else {
      CompositionListBalanced(cs[..|cs| - 1]);
      CompositionBalanced(cs[|cs| - 1]);
      BalancedAppend(CompositionListEvents(cs[..|cs| - 1]), CompositionEvents(cs[|cs| - 1]));
    }
  }

  /** The Compositions element is balanced, and absent exactly when there are no compositions. */
  lemma CompositionsShape(cs: seq<Composition>)
    ensures Balanced(CompositionsEvents(cs))
    ensures CompositionsEvents(cs) == [] <==> cs == []
  {
    if cs == [] {
      FlatBalanced([]);
    } else {
      CompositionListBalanced(cs);
      BalancedWrap("Compositions", CompositionListEvents(cs));
    }
  }

  // ---------------------------------------------------------------------
  // References.

  datatype ReferenceKind = DataItemReference | ComponentReference

  datatype Reference = Reference(kind: ReferenceKind, id: string, name: string)

  /** `m_schemaVersion >= "1.4"`, compared as strings. */
  predicate CurrentReferences(version: string)
  {
    !Less(version, "1.4")
  }

  /**
   * One reference: DataItemRef or ComponentRef with idRef and name from
   * version 1.4 on; before that only data item references are written, as
   * Reference with dataItemId and name.
   */
  function ReferenceEvents(version: string, r: Reference): seq<Event>
  {
    if CurrentReferences(version) then
      match r.kind
      case DataItemReference => SimpleElementEvents("DataItemRef", "", [("idRef", r.id), ("name", r.name)], false)
      case ComponentReference => SimpleElementEvents("ComponentRef", "", [("idRef", r.id), ("name", r.name)], false)
    else if r.kind == DataItemReference then
      SimpleElementEvents("Reference", "", [("dataItemId", r.id), ("name", r.name)], false)
    else []
  }

  function ReferenceListEvents(version: string, refs: seq<Reference>): seq<Event>
    decreases |refs|
  {
    if refs == [] then []
    else ReferenceListEvents(version, refs[..|refs| - 1]) + ReferenceEvents(version, refs[|refs| - 1])
  }

  /** The References element, present whenever the component has references (even if none is printed). */
  function ReferencesEvents(version: string, refs: seq<Reference>): seq<Event>
  {
    if refs == [] then [] else [Open("References")] + ReferenceListEvents(version, refs) + [Close]
  }

  /**
   * What a reference becomes: nothing exactly when the version is before 1.4
   * and it refers to a component; otherwise one element whose name and
   * attribute keys depend on the version and the kind.
   */
  lemma ReferenceRendering(version: string, r: Reference)
    ensures ReferenceEvents(version, r) == [] <==> !CurrentReferences(version) && r.kind == ComponentReference
    ensures CurrentReferences(version) && r.kind == DataItemReference ==>
      ReferenceEvents(version, r)[0] == Open("DataItemRef") &&
      (Attr("idRef", r.id) in ReferenceEvents(version, r) <==> r.id != "")
    ensures CurrentReferences(version) && r.kind == ComponentReference ==>
      ReferenceEvents(version, r)[0] == Open("ComponentRef") &&
      (Attr("idRef", r.id) in ReferenceEvents(version, r) <==> r.id != "")
    ensures !CurrentReferences(version) && r.kind == DataItemReference ==>
      ReferenceEvents(version, r)[0] == Open("Reference") &&
      (Attr("dataItemId", r.id) in ReferenceEvents(version, r) <==> r.id != "")
    ensures Balanced(ReferenceEvents(version, r))
  {
    var keyName := if CurrentReferences(version) then "idRef" else "dataItemId";
    var attrs := [(keyName, r.id), ("name", r.name)];
    MapAttributesWritten(attrs, keyName, r.id);
    if ReferenceEvents(version, r) == [] {
      FlatBalanced([]);
    } else {
      var element := if CurrentReferences(version) then
          (if r.kind == DataItemReference then "DataItemRef" else "ComponentRef")
        else "Reference";
      SimpleElementBalanced(element, "", attrs, false);
      assert ReferenceEvents(version, r) == SimpleElementEvents(element, "", attrs, false);
      assert Attr(keyName, r.id) in ReferenceEvents(version, r) <==> Attr(keyName, r.id) in MapAttributeEvents(attrs);
    }
  }

  /** Version strings compare as text, so "1.10" counts as older than "1.4" and gets legacy references. */
  lemma VersionComparedAsText()
    ensures !CurrentReferences("1.10")
    ensures CurrentReferences("1.4") && CurrentReferences("1.5") && CurrentReferences("2.0")
    ensures !CurrentReferences("1.3")
  {
    assert "1.10"[2] == '1' && "1.4"[2] == '4';
    assert "1.10"[..2] == "1.4"[..2];
    assert "1.3"[..2] == "1.4"[..2];
    assert "1.5"[..2] == "1.4"[..2];
  }

  lemma {:induction false} ReferenceListBalanced(version: string, refs: seq<Reference>)
    ensures Balanced(ReferenceListEvents(version, refs))
    decreases |refs|
  {
    if refs == [] {
      FlatBalanced([]);
    } else {
      ReferenceListBalanced(version, refs[..|refs| - 1]);
      ReferenceRendering(version, refs[|refs| - 1]);
      BalancedAppend(ReferenceListEvents(version, refs[..|refs| - 1]), ReferenceEvents(version, refs[|refs| - 1]));
    }
  }

  /** Before 1.4 no ComponentRef or DataItemRef is written; from 1.4 on no legacy Reference. */
  lemma {:induction false} ReferenceNamesByVersion(version: string, refs: seq<Reference>)
    ensures !CurrentReferences(version) ==>
      Open("ComponentRef") !in ReferenceListEvents(version, refs) && Open("DataItemRef") !in ReferenceListEvents(version, refs)
    ensures CurrentReferences(version) ==> Open("Reference") !in ReferenceListEvents(version, refs)
    decreases |refs|
  {
    if refs != [] {
      ReferenceNamesByVersion(version, refs[..|refs| - 1]);
      var r := refs[|refs| - 1];
      var e := ReferenceEvents(version, r);
      MapAttributesFlat([("idRef", r.id), ("name", r.name)]);
      MapAttributesFlat([("dataItemId", r.id), ("name", r.name)]);
      assert Open("ComponentRef") !in e || CurrentReferences(version);
    }
  }

  lemma ReferencesBalanced(version: string, refs: seq<Reference>)
    ensures Balanced(ReferencesEvents(version, refs))
  {
    if refs == [] {
      FlatBalanced([]);
    } else {
      ReferenceListBalanced(version, refs);
      BalancedWrap("References", ReferenceListEvents(version, refs));
    }
  }

  // ---------------------------------------------------------------------
  // Filters of a data item.

  /** One Filter element of the given type, when that filter is set. */
  function FilterEvents(filterType: string, value: Option<string>): seq<Event>
  {
    if value.Some? then SimpleElementEvents("Filter", value.value, [("type", filterType)], false) else []
  }

  /**
   * The Filters element: present when the data item has a minimum delta or a
   * minimum period; the MINIMUM_DELTA filter comes before the PERIOD filter.
   * The values are the already formatted numbers.
   */
  function FiltersEvents(minimumDelta: Option<string>, minimumPeriod: Option<string>): seq<Event>
  {
    if minimumDelta.Some? || minimumPeriod.Some? then
      [Open("Filters")] + FilterEvents("MINIMUM_DELTA", minimumDelta) + FilterEvents("PERIOD", minimumPeriod) + [Close]
    else []
  }

  /** A Filter element is balanced and carries its type, and nothing is written for an unset filter. */
  lemma FilterShape(filterType: string, value: Option<string>, t: string)
    requires filterType != ""
    ensures Balanced(FilterEvents(filterType, value))
    ensures Attr("type", t) in FilterEvents(filterType, value) <==> value.Some? && t == filterType
    ensures forall i :: 0 <= i < |FilterEvents(filterType, value)| ==> FilterEvents(filterType, value)[i] != Open("Filters")
  {
    if value.Some? {
      MapAttributesWritten([("type", filterType)], "type", t);
      MapAttributesFlat([("type", filterType)]);
      SimpleElementBalanced("Filter", value.value, [("type", filterType)], false);
      var es := SimpleElementEvents("Filter", value.value, [("type", filterType)], false);
      assert Attr("type", t) in es <==> Attr("type", t) in MapAttributeEvents([("type", filterType)]);
    } else {
      FlatBalanced([]);
    }
  }

  /**
   * A Filters element appears exactly when some filter is set; it is balanced,
   * it carries a MINIMUM_DELTA filter exactly when a minimum delta is set and
   * a PERIOD filter exactly when a minimum period is set, in that order.
   */
  lemma FiltersShape(minimumDelta: Option<string>, minimumPeriod: Option<string>, t: string)
    ensures FiltersEvents(minimumDelta, minimumPeriod) != [] <==> minimumDelta.Some? || minimumPeriod.Some?
    ensures Balanced(FiltersEvents(minimumDelta, minimumPeriod))
    ensures Attr("type", t) in FiltersEvents(minimumDelta, minimumPeriod) <==>
      (minimumDelta.Some? && t == "MINIMUM_DELTA") || (minimumPeriod.Some? && t == "PERIOD")
  {
    var d := FilterEvents("MINIMUM_DELTA", minimumDelta);
    var p := FilterEvents("PERIOD", minimumPeriod);
    FilterShape("MINIMUM_DELTA", minimumDelta, t);
    FilterShape("PERIOD", minimumPeriod, t);
    if minimumDelta.Some? || minimumPeriod.Some? {
      BalancedAppend(d, p);
      WrapTwo("Filters", d, p);
      var es := [Open("Filters")] + d + p + [Close];
      assert Attr("type", t) in es <==> Attr("type", t) in d || Attr("type", t) in p;
    } else {
      FlatBalanced([]);
    }
  }

  // ---------------------------------------------------------------------
  // The printer's loops.

  method AddComposition(w: Writer, c: Composition)
    modifies w
    ensures w.state == EmitAll(old(w.state), CompositionEvents(c))
  {
    ghost var s0 := w.state;
    var element := new AutoElement(w, "Composition", "");
    EmitSingle(s0, Open("Composition"));
    AddAttributes(w, c.attributes);
    EmitAllAppend(s0, [Open("Composition")], MapAttributeEvents(c.attributes));
    ghost var head := [Open("Composition")] + MapAttributeEvents(c.attributes);
    ghost var desc: seq<Event> := [];
    if c.description.Some? {
      var d := c.description.value;
      AddSimpleElement(w, "Description", d.body, d.attributes, false);
      desc := SimpleElementEvents("Description", d.body, d.attributes, false);
    }
    EmitAllAppend(s0, head, desc);
    element.Finish();
    EmitAllAppend(s0, head + desc, [Close]);
  }

  method AddCompositionList(w: Writer, cs: seq<Composition>)
    modifies w
    ensures w.state == EmitAll(old(w.state), CompositionListEvents(cs))
  {
    for i := 0 to |cs|
      invariant w.state == EmitAll(old(w.state), CompositionListEvents(cs[..i]))
    {
      AddComposition(w, cs[i]);
      assert cs[..i + 1][..i] == cs[..i];
      EmitAllAppend(old(w.state), CompositionListEvents(cs[..i]), CompositionEvents(cs[i]));
    }
    assert cs[..|cs|] == cs;
  }

  method PrintCompositions(w: Writer, cs: seq<Composition>)
    modifies w
    ensures w.state == EmitAll(old(w.state), CompositionsEvents(cs))
  {
    if cs != [] {
      ghost var s0 := w.state;
      var element := new AutoElement(w, "Compositions", "");
      EmitSingle(s0, Open("Compositions"));
      AddCompositionList(w, cs);
      EmitAllAppend(s0, [Open("Compositions")], CompositionListEvents(cs));
      element.Finish();
      EmitAllAppend(s0, [Open("Compositions")] + CompositionListEvents(cs), [Close]);
    }
  }

  method AddReference(w: Writer, version: string, r: Reference)
    modifies w
    ensures w.state == EmitAll(old(w.state), ReferenceEvents(version, r))
  {
    if !Less(version, "1.4") {
      if r.kind == DataItemReference {
        AddSimpleElement(w, "DataItemRef", "", [("idRef", r.id), ("name", r.name)], false);
      } else if r.kind == ComponentReference {
        AddSimpleElement(w, "ComponentRef", "", [("idRef", r.id), ("name", r.name)], false);
      }
    } else if r.kind == DataItemReference {
      AddSimpleElement(w, "Reference", "", [("dataItemId", r.id), ("name", r.name)], false);
    }
  }

  method AddReferenceList(w: Writer, version: string, refs: seq<Reference>)
    modifies w
    ensures w.state == EmitAll(old(w.state), ReferenceListEvents(version, refs))
  {
    for i := 0 to |refs|
      invariant w.state == EmitAll(old(w.state), ReferenceListEvents(version, refs[..i]))
    {
      AddReference(w, version, refs[i]);
      assert refs[..i + 1][..i] == refs[..i];
      EmitAllAppend(old(w.state), ReferenceListEvents(version, refs[..i]), ReferenceEvents(version, refs[i]));
    }
    assert refs[..|refs|] == refs;
  }

  method PrintReferences(w: Writer, version: string, refs: seq<Reference>)
    modifies w
    ensures w.state == EmitAll(old(w.state), ReferencesEvents(version, refs))
  {
    if refs != [] {
      ghost var s0 := w.state;
      var element := new AutoElement(w, "References", "");
      EmitSingle(s0, Open("References"));
      AddReferenceList(w, version, refs);
      EmitAllAppend(s0, [Open("References")], ReferenceListEvents(version, refs));
      element.Finish();
      EmitAllAppend(s0, [Open("References")] + ReferenceListEvents(version, refs), [Close]);
    }
  }

  method PrintFilters(w: Writer, minimumDelta: Option<string>, minimumPeriod: Option<string>)
    modifies w
    ensures w.state == EmitAll(old(w.state), FiltersEvents(minimumDelta, minimumPeriod))
  {
    if minimumDelta.Some? || minimumPeriod.Some? {
      ghost var s0 := w.state;
      var element := new AutoElement(w, "Filters", "");
      EmitSingle(s0, Open("Filters"));
      if minimumDelta.Some? {
        AddSimpleElement(w, "Filter", minimumDelta.value, [("type", "MINIMUM_DELTA")], false);
      }
      EmitAllAppend(s0, [Open("Filters")], FilterEvents("MINIMUM_DELTA", minimumDelta));
      ghost var head := [Open("Filters")] + FilterEvents("MINIMUM_DELTA", minimumDelta);
      if minimumPeriod.Some? {
        AddSimpleElement(w, "Filter", minimumPeriod.value, [("type", "PERIOD")], false);
      }
      EmitAllAppend(s0, head, FilterEvents("PERIOD", minimumPeriod));
      element.Finish();
      EmitAllAppend(s0, head + FilterEvents("PERIOD", minimumPeriod), [Close]);
    }
  }
}
