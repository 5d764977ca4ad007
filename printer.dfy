/**
 * The XmlPrinter object (src/xml_printer.cpp): its four namespace
 * registries, its schema version and stylesheets, initXmlDoc, and the entry
 * points printError, printSample, printAssets and printCuttingTool. Each
 * entry point makes its calls on a fresh writer and returns the writer's
 * content; any refused call makes it return the empty document instead.
 */
module Printer {
  import opened Wrappers
  import opened Strings
  import opened OrderedMaps
  import opened XmlWriter
  import opened XmlElements
  import opened Namespaces
  import opened Headers
  import opened Observations
  import opened Samples
  import opened Assets
  import opened CuttingTools

  /** What initXmlDoc takes from the environment: the clock, the host name and the agent's version. */
  datatype Environment = Environment(creationTime: string, sender: string, agentVersion: string)

  const DefaultSchemaVersion: string := "1.5"

  /** Unsigned 64-bit subtraction of one. */
  function Predecessor(n: uint64): (r: uint64)
    ensures n > 0 ==> r == n - 1
    ensures n == 0 ==> r == 0xFFFF_FFFF_FFFF_FFFF
  {
    (n - 1) % 0x1_0000_0000_0000_0000
  }

  /** The header printError asks for: no asset sizes, and nextSeq - 1 (unsigned) as the first sequence. */
  function ErrorHeader(env: Environment, instanceId: uint32, bufferSize: uint32, nextSeq: uint64): HeaderValues
  {
    HeaderValues(env.creationTime, env.sender, env.agentVersion, instanceId, bufferSize, 0, 0,
      nextSeq, Predecessor(nextSeq), 0, None)
  }

  function StreamsHeader(env: Environment, instanceId: uint32, bufferSize: uint32,
                         nextSeq: uint64, firstSeq: uint64, lastSeq: uint64): HeaderValues
  {
    HeaderValues(env.creationTime, env.sender, env.agentVersion, instanceId, bufferSize, 0, 0,
      nextSeq, firstSeq, lastSeq, None)
  }

  /** printAssets passes its buffer size as the asset buffer size and 0 as the (unprinted) observation buffer size. */
  function AssetsHeader(env: Environment, instanceId: uint32, bufferSize: uint32, assetCount: uint32): HeaderValues
  {
    HeaderValues(env.creationTime, env.sender, env.agentVersion, instanceId, 0, bufferSize, assetCount,
      0, 0, 0, None)
  }

  /** The Errors element of an error document. */
  function ErrorEvents(errorCode: string, errorText: string): seq<Event>
  {
    [Open("Errors")] + SimpleElementEvents("Error", errorText, FromPairs([("errorCode", errorCode)]), false) + [Close]
  }

  // ---------------------------------------------------------------------
  // Whole documents.

  /** The preamble leaves the root open, the body is balanced and the root is then closed: balanced. */
  lemma RootClosed(init: seq<Event>, body: seq<Event>)
    requires Nested(init) && Depth(init) == 1 && Balanced(body)
    ensures Balanced(init + body + [Close])
  {
    NestedFromRaise(0, 1, body);
    NestedFromAppend(0, init, body);
    Single(1, Close);
    NestedFromAppend(0, init + body, [Close]);
  }

  /**
   * Failure containment for a document made of a preamble, a body and the
   * root's end tag: the printer returns exactly those events or nothing.
   */
  lemma DocumentOutcome(capacity: nat, init: seq<Event>, body: seq<Event>)
    requires Nested(init) && Depth(init) == 1 && Balanced(body)
    ensures var es := init + body + [Close]; var d := Document(capacity, es);
      (d == es || d == []) && (d == [] <==> !AllAccepted(Fresh(capacity), es) || |es| > capacity)
  {
    RootClosed(init, body);
    BalancedDocument(capacity, init + body + [Close]);
  }

  /** The events of the Errors element, with the one-entry attribute map spelled out. */
  lemma ErrorEventsFlat(errorCode: string, errorText: string)
    ensures ErrorEvents(errorCode, errorText) ==
      [Open("Errors"), Open("Error")] + AttributeEvents("errorCode", errorCode) + BodyEvents(errorText, false) + [Close, Close]
  {
    var attrs := FromPairs([("errorCode", errorCode)]);
    FromPairsSingle("errorCode", errorCode);
    assert MapAttributeEvents(attrs) == AttributeEvents("errorCode", errorCode) by {
      assert attrs[..0] == [];
    }
  }

  lemma ErrorBalanced(errorCode: string, errorText: string)
    ensures Balanced(ErrorEvents(errorCode, errorText))
  {
    var attrs := FromPairs([("errorCode", errorCode)]);
    SimpleElementBalanced("Error", errorText, attrs, false);
    BalancedWrap("Errors", SimpleElementEvents("Error", errorText, attrs, false));
  }

  /**
   * The Errors element holds one Error element whose text is the error text
   * and whose errorCode attribute is the code, present when the code is non-empty.
   */
  lemma ErrorShape(errorCode: string, errorText: string)
    ensures var es := ErrorEvents(errorCode, errorText);
      es[1] == Open("Error") &&
      (Attr("errorCode", errorCode) in es <==> errorCode != "") &&
      (errorText != "" ==> Text(errorText) in es)
    ensures Balanced(ErrorEvents(errorCode, errorText))
  {
    ErrorBalanced(errorCode, errorText);
    var a := AttributeEvents("errorCode", errorCode);
    var b := BodyEvents(errorText, false);
    assert ErrorEvents(errorCode, errorText) == [Open("Errors"), Open("Error")] + a + b + [Close, Close] by {
      ErrorEventsFlat(errorCode, errorText);
    }
    ErrorParts(ErrorEvents(errorCode, errorText), errorCode, errorText, a, b);
  }

  /** Where the code's attribute and the text sit among the Errors element's events. */
  lemma ErrorParts(es: seq<Event>, errorCode: string, errorText: string, a: seq<Event>, b: seq<Event>)
    requires a == AttributeEvents("errorCode", errorCode) && b == BodyEvents(errorText, false)
    requires es == [Open("Errors"), Open("Error")] + a + b + [Close, Close]
    ensures es[1] == Open("Error")
    ensures Attr("errorCode", errorCode) in es <==> errorCode != ""
    ensures errorText != "" ==> Text(errorText) in es
  {
    if errorCode == "" {
      assert es == [Open("Errors"), Open("Error")] + b + [Close, Close];
    } else {
      assert es[2] == Attr("errorCode", errorCode);
    }
    if errorText != "" {
      assert es[2 + |a|] == Text(errorText);
    }
  }

  // ---------------------------------------------------------------------
  // initXmlDoc, one part at a time.

  /** The loop over the registry: declarations, and the first location and the "m" location found. */
  method AddNamespaceDeclarations(w: Writer, ns: Registry, xmlns: string) returns (location: string, mtcLocation: string)
    modifies w
    ensures w.state == EmitAll(old(w.state), NamespaceAttributeEvents(ns))
    ensures location == match FirstLocation(ns) case Some(l) => l case None => ""
    ensures mtcLocation == MtcLocation(ns, xmlns)
  {
    location := "";
    mtcLocation := "";
    for i := 0 to |ns|
      invariant w.state == EmitAll(old(w.state), NamespaceAttributeEvents(ns[..i]))
      invariant location == match FirstLocation(ns[..i]) case Some(l) => l case None => ""
      invariant location == "" <==> FirstLocation(ns[..i]).None?
      invariant mtcLocation == MtcLocation(ns[..i], xmlns)
    {
      var (prefix, entry) := ns[i];
      assert ns[..i + 1][..i] == ns[..i];
      ghost var decl: seq<Event> := [];
      if prefix != "m" {
        AddAttribute(w, "xmlns:" + prefix, entry.urn);
        decl := AttributeEvents("xmlns:" + prefix, entry.urn);
        if location == "" && entry.location != "" {
          location := entry.urn + " " + entry.location;
        }
      } else if entry.location != "" {
        mtcLocation := xmlns + " " + entry.location;
      }
      EmitAllAppend(old(w.state), NamespaceAttributeEvents(ns[..i]), decl);
    }
    assert ns[..|ns|] == ns;
  }

  /** The root start tag with its namespaces and schema location. */
  method PrintRoot(w: Writer, kind: DocumentKind, version: string, ns: Registry)
    modifies w
    ensures w.state == EmitAll(old(w.state), RootEvents(kind, version, ns))
  {
    ghost var s0 := w.state;
    var rootName := "MTConnect" + KindName(kind);
    var xmlns := "urn:mtconnect.org:" + rootName + ":" + version;
    w.Write(Open(rootName));
    EmitSingle(s0, Open(rootName));
    ghost var a := [Open(rootName)];
    AddAttribute(w, "xmlns:m", xmlns);
    EmitAllAppend(s0, a, AttributeEvents("xmlns:m", xmlns));
    a := a + AttributeEvents("xmlns:m", xmlns);
    AddAttribute(w, "xmlns", xmlns);
    EmitAllAppend(s0, a, AttributeEvents("xmlns", xmlns));
    a := a + AttributeEvents("xmlns", xmlns);
    AddAttribute(w, "xmlns:xsi", "http://www.w3.org/2001/XMLSchema-instance");
    EmitAllAppend(s0, a, AttributeEvents("xmlns:xsi", XsiNamespace));
    a := a + AttributeEvents("xmlns:xsi", XsiNamespace);
    var location, mtcLocation := AddNamespaceDeclarations(w, ns, xmlns);
    EmitAllAppend(s0, a, NamespaceAttributeEvents(ns));
    a := a + NamespaceAttributeEvents(ns);
    if location == "" && mtcLocation != "" {
      location := mtcLocation;
    } else if location == "" {
      location := xmlns + " http://schemas.mtconnect.org/schemas/" + rootName + "_" + version + ".xsd";
    }
    assert location == SchemaLocation(ns, kind, version) by {
      if FirstLocation(ns).Some? {
        FirstLocationIsFirst(ns);
      }
    }
    AddAttribute(w, "xsi:schemaLocation", location);
    EmitAllAppend(s0, a, AttributeEvents("xsi:schemaLocation", location));
  }

  method PrintHeaderAttributes(w: Writer, kind: DocumentKind, h: HeaderValues)
    modifies w
    ensures w.state == EmitAll(old(w.state), HeaderAttributeEvents(kind, h))
  {
    ghost var s0 := w.state;
    AddAttribute(w, "creationTime", h.creationTime);
    ghost var a := AttributeEvents("creationTime", h.creationTime);
    AddAttribute(w, "sender", h.sender);
    EmitAllAppend(s0, a, AttributeEvents("sender", h.sender));
    a := a + AttributeEvents("sender", h.sender);
    AddAttribute(w, "instanceId", NatToString(h.instanceId));
    EmitAllAppend(s0, a, AttributeEvents("instanceId", NatToString(h.instanceId)));
    a := a + AttributeEvents("instanceId", NatToString(h.instanceId));
    AddAttribute(w, "version", h.agentVersion);
    EmitAllAppend(s0, a, AttributeEvents("version", h.agentVersion));
    a := a + AttributeEvents("version", h.agentVersion);
    ghost var s1 := w.state;
    ghost var b: seq<Event> := [];
    if kind == AssetsDoc || kind == DevicesDoc {
      AddAttribute(w, "assetBufferSize", NatToString(h.assetBufferSize));
      AddAttribute(w, "assetCount", NatToString(h.assetCount));
      b := AttributeEvents("assetBufferSize", NatToString(h.assetBufferSize)) +
        AttributeEvents("assetCount", NatToString(h.assetCount));
      EmitAllAppend(s1, AttributeEvents("assetBufferSize", NatToString(h.assetBufferSize)),
        AttributeEvents("assetCount", NatToString(h.assetCount)));
    }
    EmitAllAppend(s0, a, b);
    a := a + b;
    ghost var c: seq<Event> := [];
    if kind == DevicesDoc || kind == ErrorDoc || kind == StreamsDoc {
      AddAttribute(w, "bufferSize", NatToString(h.bufferSize));
      c := AttributeEvents("bufferSize", NatToString(h.bufferSize));
    }
    EmitAllAppend(s0, a, c);
    a := a + c;
    ghost var s2 := w.state;
    ghost var d: seq<Event> := [];
    if kind == StreamsDoc {
      AddAttribute(w, "nextSequence", NatToString(h.nextSeq));
      AddAttribute(w, "firstSequence", NatToString(h.firstSeq));
      EmitAllAppend(s2, AttributeEvents("nextSequence", NatToString(h.nextSeq)),
        AttributeEvents("firstSequence", NatToString(h.firstSeq)));
      d := AttributeEvents("nextSequence", NatToString(h.nextSeq)) +
        AttributeEvents("firstSequence", NatToString(h.firstSeq));
      AddAttribute(w, "lastSequence", NatToString(h.lastSeq));
      EmitAllAppend(s2, d, AttributeEvents("lastSequence", NatToString(h.lastSeq)));
      d := d + AttributeEvents("lastSequence", NatToString(h.lastSeq));
    }
    EmitAllAppend(s0, a, d);
  }

  method PrintAssetCountList(w: Writer, counts: Entries<int>)
    modifies w
    ensures w.state == EmitAll(old(w.state), AssetCountEvents(counts))
  {
    for i := 0 to |counts|
      invariant w.state == EmitAll(old(w.state), AssetCountEvents(counts[..i]))
    {
      var (assetType, n) := counts[i];
      AddSimpleElement(w, "AssetCount", IntToString(n), FromPairs([("assetType", assetType)]), false);
      assert counts[..i + 1][..i] == counts[..i];
      EmitAllAppend(old(w.state), AssetCountEvents(counts[..i]),
        SimpleElementEvents("AssetCount", IntToString(n), FromPairs([("assetType", assetType)]), false));
    }
    assert counts[..|counts|] == counts;
  }

  method PrintAssetCounts(w: Writer, kind: DocumentKind, counts: Option<Entries<int>>)
    modifies w
    ensures w.state == EmitAll(old(w.state), AssetCountsEvents(kind, counts))
  {
    if kind == DevicesDoc && counts.Some? && counts.value != [] {
      ghost var s0 := w.state;
      var element := new AutoElement(w, "AssetCounts", "");
      EmitSingle(s0, Open("AssetCounts"));
      PrintAssetCountList(w, counts.value);
      EmitAllAppend(s0, [Open("AssetCounts")], AssetCountEvents(counts.value));
      element.Finish();
      EmitAllAppend(s0, [Open("AssetCounts")] + AssetCountEvents(counts.value), [Close]);
    }
  }

  method PrintHeader(w: Writer, kind: DocumentKind, h: HeaderValues)
    modifies w
    ensures w.state == EmitAll(old(w.state), HeaderEvents(kind, h))
  {
    ghost var s0 := w.state;
    var header := new AutoElement(w, "Header", "");
    EmitSingle(s0, Open("Header"));
    PrintHeaderAttributes(w, kind, h);
    EmitAllAppend(s0, [Open("Header")], HeaderAttributeEvents(kind, h));
    ghost var a := [Open("Header")] + HeaderAttributeEvents(kind, h);
    PrintAssetCounts(w, kind, h.assetCounts);
    EmitAllAppend(s0, a, AssetCountsEvents(kind, h.assetCounts));
    a := a + AssetCountsEvents(kind, h.assetCounts);
    header.Finish();
    EmitAllAppend(s0, a, [Close]);
  }

  /** The three grouping guards of printSample over a non-empty list, up to the end of their scopes. */
  method PrintGroups(w: Writer, observations: seq<Observation>, streams: Registry)
    requires |observations| > 0
    modifies w
    ensures w.state == EmitAll(old(w.state),
      Run(observations, streams).1 + FinishEvents(Run(observations, streams).0))
  {
    var device := new AutoElement.Idle(w);
    var component := new AutoElement.Idle(w);
    var category := new AutoElement.Idle(w);
    SampleLoop(w, device, component, category, observations, streams);
    FinishGuards(w, device, component, category);
    EmitAllAppend(old(w.state), Run(observations, streams).1, FinishEvents(Run(observations, streams).0));
  }

  /** The Streams element of printSample. */
  method PrintStreams(w: Writer, observations: seq<Observation>, streams: Registry)
    modifies w
    ensures w.state == EmitAll(old(w.state), StreamsEvents(observations, streams))
  {
    ghost var s0 := w.state;
    var element := new AutoElement(w, "Streams", "");
    EmitSingle(s0, Open("Streams"));
    ghost var body: seq<Event> := [];
    if |observations| > 0 {
      PrintGroups(w, observations, streams);
      body := Run(observations, streams).1 + FinishEvents(Run(observations, streams).0);
    }
    EmitAllAppend(s0, [Open("Streams")], body);
    var _ := element.Reset("", "");
    assert ResetEvents("Streams", "", "", "") == [Close];
    EmitAllAppend(s0, [Open("Streams")] + body, [Close]);
  }

  // ---------------------------------------------------------------------

  class XmlPrinter {
    var schemaVersion: string
    var errorNamespaces: Registry
    var streamsNamespaces: Registry
    var devicesNamespaces: Registry
    var assetsNamespaces: Registry
    var errorStyle: string
    var streamsStyle: string
    var devicesStyle: string
    var assetsStyle: string

    /** Every registry is a std::map: strictly ascending prefixes. */
    ghost predicate Valid()
      reads this
    {
      Ascending(errorNamespaces) && Ascending(streamsNamespaces) &&
      Ascending(devicesNamespaces) && Ascending(assetsNamespaces)
    }

    function NamespacesOf(kind: DocumentKind): Registry
      reads this
    {
      match kind
      case ErrorDoc => errorNamespaces
      case StreamsDoc => streamsNamespaces
      case DevicesDoc => devicesNamespaces
      case AssetsDoc => assetsNamespaces
    }

    function StyleOf(kind: DocumentKind): string
      reads this
    {
      match kind
      case ErrorDoc => errorStyle
      case StreamsDoc => streamsStyle
      case DevicesDoc => devicesStyle
      case AssetsDoc => assetsStyle
    }

    /** What initXmlDoc writes for a document kind with this printer's settings. */
    function InitFor(kind: DocumentKind, h: HeaderValues): seq<Event>
      reads this
    {
      InitEvents(kind, schemaVersion, StyleOf(kind), NamespacesOf(kind), h)
    }

    /** XmlPrinter(version, pretty): an empty version means 1.5; no namespaces, no stylesheets. */
    constructor (version: string)
      ensures Valid()
      ensures schemaVersion == if version == "" then DefaultSchemaVersion else version
      ensures forall kind :: NamespacesOf(kind) == [] && StyleOf(kind) == ""
    {
      schemaVersion := if version == "" then DefaultSchemaVersion else version;
      errorNamespaces, streamsNamespaces, devicesNamespaces, assetsNamespaces := [], [], [], [];
      errorStyle, streamsStyle, devicesStyle, assetsStyle := "", "", "", "";
    }

    /**
     * add{Error,Streams,Devices,Assets}Namespace: std::map::insert into the
     * kind's registry, which keeps an existing entry for the prefix.
     */
    method AddNamespace(kind: DocumentKind, urn: string, location: string, prefix: string)
      requires Valid()
      modifies this
      ensures Valid()
      ensures NamespacesOf(kind) == Insert(old(NamespacesOf(kind)), prefix, SchemaNamespace(urn, location))
      ensures forall k :: k != kind ==> NamespacesOf(k) == old(NamespacesOf(k))
      ensures forall k :: StyleOf(k) == old(StyleOf(k))
      ensures schemaVersion == old(schemaVersion)
    {
      var entry := SchemaNamespace(urn, location);
      match kind
      case ErrorDoc => errorNamespaces := Insert(errorNamespaces, prefix, entry);
      case StreamsDoc => streamsNamespaces := Insert(streamsNamespaces, prefix, entry);
      case DevicesDoc => devicesNamespaces := Insert(devicesNamespaces, prefix, entry);
      case AssetsDoc => assetsNamespaces := Insert(assetsNamespaces, prefix, entry);
    }

    /** clear{Error,Streams,Devices,Assets}Namespaces: empties that registry only. */
    method ClearNamespaces(kind: DocumentKind)
      requires Valid()
      modifies this
      ensures Valid()
      ensures NamespacesOf(kind) == []
      ensures forall k :: k != kind ==> NamespacesOf(k) == old(NamespacesOf(k))
      ensures forall k :: StyleOf(k) == old(StyleOf(k))
      ensures schemaVersion == old(schemaVersion)
    {
      match kind
      case ErrorDoc => errorNamespaces := [];
      case StreamsDoc => streamsNamespaces := [];
      case DevicesDoc => devicesNamespaces := [];
      case AssetsDoc => assetsNamespaces := [];
    }

    /**
     * The lookup get*Urn and get*Location share: the entry stored under the
     * prefix, or an empty URN and location for a prefix never added.
     */
    method Lookup(kind: DocumentKind, prefix: string) returns (entry: SchemaNamespace)
      requires Valid()
      ensures prefix !in Keys(NamespacesOf(kind)) ==> entry == SchemaNamespace("", "")
      ensures forall i :: 0 <= i < |NamespacesOf(kind)| && NamespacesOf(kind)[i].0 == prefix ==>
        entry == NamespacesOf(kind)[i].1
    {
      GetPresent(NamespacesOf(kind), prefix);
      var found := Get(NamespacesOf(kind), prefix);
      entry := if found.Some? then found.value else SchemaNamespace("", "");
    }

    /** get{Error,Streams,Devices,Assets}Urn. */
    method GetUrn(kind: DocumentKind, prefix: string) returns (urn: string)
      requires Valid()
      ensures prefix !in Keys(NamespacesOf(kind)) ==> urn == ""
      ensures forall i :: 0 <= i < |NamespacesOf(kind)| && NamespacesOf(kind)[i].0 == prefix ==>
        urn == NamespacesOf(kind)[i].1.urn
    {
      var entry := Lookup(kind, prefix);
      urn := entry.urn;
    }

    /** get{Error,Streams,Devices,Assets}Location. */
    method GetLocation(kind: DocumentKind, prefix: string) returns (location: string)
      requires Valid()
      ensures prefix !in Keys(NamespacesOf(kind)) ==> location == ""
      ensures forall i :: 0 <= i < |NamespacesOf(kind)| && NamespacesOf(kind)[i].0 == prefix ==>
        location == NamespacesOf(kind)[i].1.location
    {
      var entry := Lookup(kind, prefix);
      location := entry.location;
    }

    /** setSchemaVersion: taken as given, even when empty. */
    method SetSchemaVersion(version: string)
      modifies this
      ensures schemaVersion == version
      ensures forall k :: NamespacesOf(k) == old(NamespacesOf(k)) && StyleOf(k) == old(StyleOf(k))
    {
      schemaVersion := version;
    }

    /** set{Stream,Devices,Error,Assets}Style. */
    method SetStyle(kind: DocumentKind, style: string)
      modifies this
      ensures StyleOf(kind) == style
      ensures forall k :: k != kind ==> StyleOf(k) == old(StyleOf(k))
      ensures forall k :: NamespacesOf(k) == old(NamespacesOf(k))
      ensures schemaVersion == old(schemaVersion)
    {
      match kind
      case ErrorDoc => errorStyle := style;
      case StreamsDoc => streamsStyle := style;
      case DevicesDoc => devicesStyle := style;
      case AssetsDoc => assetsStyle := style;
    }

    /** initXmlDoc: declaration, stylesheet, root start tag, Header; the root is left open. */
    method InitXmlDoc(w: Writer, kind: DocumentKind, h: HeaderValues)
      modifies w
      ensures w.state == EmitAll(old(w.state), InitFor(kind, h))
    {
      ghost var s0 := w.state;
      w.Write(Declaration);
      EmitSingle(s0, Declaration);
      ghost var s1 := w.state;
      var style := StyleOf(kind);
      if style != "" {
        w.Write(Instruction(StylesheetInstruction(style)));
        EmitSingle(s1, Instruction(StylesheetInstruction(style)));
      }
      EmitAllAppend(s0, [Declaration], StyleEvents(style));
      ghost var a := [Declaration] + StyleEvents(style);
      PrintRoot(w, kind, schemaVersion, NamespacesOf(kind));
      EmitAllAppend(s0, a, RootEvents(kind, schemaVersion, NamespacesOf(kind)));
      a := a + RootEvents(kind, schemaVersion, NamespacesOf(kind));
      PrintHeader(w, kind, h);
      EmitAllAppend(s0, a, HeaderEvents(kind, h));
    }

    /** printError: the preamble, Errors with one Error, the root's end tag. */
    method PrintError(capacity: nat, env: Environment, instanceId: uint32, bufferSize: uint32, nextSeq: uint64,
                      errorCode: string, errorText: string) returns (doc: seq<Event>)
      ensures doc == Document(capacity,
        InitFor(ErrorDoc, ErrorHeader(env, instanceId, bufferSize, nextSeq)) + ErrorEvents(errorCode, errorText) + [Close])
    {
      var w := new Writer(capacity);
      var h := ErrorHeader(env, instanceId, bufferSize, nextSeq);
      InitXmlDoc(w, ErrorDoc, h);
      ghost var init := InitFor(ErrorDoc, h);
      ghost var s1 := w.state;
      var errors := new AutoElement(w, "Errors", "");
      EmitSingle(s1, Open("Errors"));
      var attrs := FromPairs([("errorCode", errorCode)]);
      AddSimpleElement(w, "Error", errorText, attrs, false);
      EmitAllAppend(s1, [Open("Errors")], SimpleElementEvents("Error", errorText, attrs, false));
      errors.Finish();
      EmitAllAppend(s1, [Open("Errors")] + SimpleElementEvents("Error", errorText, attrs, false), [Close]);
      EmitAllAppend(Fresh(capacity), init, ErrorEvents(errorCode, errorText));
      ghost var s2 := w.state;
      w.Write(Close);
      EmitSingle(s2, Close);
      EmitAllAppend(Fresh(capacity), init + ErrorEvents(errorCode, errorText), [Close]);
      doc := w.GetContent();
    }

    /** printSample: the preamble, the Streams element, the root's end tag. */
    method PrintSample(capacity: nat, env: Environment, instanceId: uint32, bufferSize: uint32,
                       nextSeq: uint64, firstSeq: uint64, lastSeq: uint64, observations: seq<Observation>)
      returns (doc: seq<Event>)
      ensures doc == Document(capacity,
        InitFor(StreamsDoc, StreamsHeader(env, instanceId, bufferSize, nextSeq, firstSeq, lastSeq)) +
        StreamsEvents(observations, streamsNamespaces) + [Close])
    {
      var w := new Writer(capacity);
      var h := StreamsHeader(env, instanceId, bufferSize, nextSeq, firstSeq, lastSeq);
      InitXmlDoc(w, StreamsDoc, h);
      ghost var init := InitFor(StreamsDoc, h);
      PrintStreams(w, observations, streamsNamespaces);
      EmitAllAppend(Fresh(capacity), init, StreamsEvents(observations, streamsNamespaces));
      ghost var s2 := w.state;
      w.Write(Close);
      EmitSingle(s2, Close);
      EmitAllAppend(Fresh(capacity), init + StreamsEvents(observations, streamsNamespaces), [Close]);
      doc := w.GetContent();
    }

    /** printAssets: the preamble, the Assets element, the root's end tag. */
    method PrintAssets(capacity: nat, env: Environment, instanceId: uint32, bufferSize: uint32, assetCount: uint32,
                       assets: seq<Asset>) returns (doc: seq<Event>)
      ensures doc == Document(capacity,
        InitFor(AssetsDoc, AssetsHeader(env, instanceId, bufferSize, assetCount)) + AssetsEvents(assets) + [Close])
    {
      var w := new Writer(capacity);
      var h := AssetsHeader(env, instanceId, bufferSize, assetCount);
      InitXmlDoc(w, AssetsDoc, h);
      ghost var init := InitFor(AssetsDoc, h);
      ghost var s1 := w.state;
      var element := new AutoElement(w, "Assets", "");
      EmitSingle(s1, Open("Assets"));
      PrintAssetList(w, assets);
      EmitAllAppend(s1, [Open("Assets")], AssetListEvents(assets));
      element.Finish();
      EmitAllAppend(s1, [Open("Assets")] + AssetListEvents(assets), [Close]);
      EmitAllAppend(Fresh(capacity), init, AssetsEvents(assets));
      ghost var s2 := w.state;
      w.Write(Close);
      EmitSingle(s2, Close);
      EmitAllAppend(Fresh(capacity), init + AssetsEvents(assets), [Close]);
      doc := w.GetContent();
    }

    /** printCuttingTool: the tool's element alone, without a declaration or a root. */
    method PrintCuttingTool(capacity: nat, tool: CuttingTool) returns (doc: seq<Event>)
      requires CuttingTools.WellFormed(tool)
      ensures doc == Document(capacity, ToolEvents(tool))
    {
      var w := new Writer(capacity);
      PrintCuttingToolElement(w, tool);
      doc := w.GetContent();
    }
  }

  // ---------------------------------------------------------------------
  // What the entry points return.

  /** printError returns the whole error document or, when a writer call fails, the empty string. */
  lemma ErrorDocumentContained(capacity: nat, version: string, style: string, ns: Registry, h: HeaderValues,
                               errorCode: string, errorText: string)
    ensures var es := InitEvents(ErrorDoc, version, style, ns, h) + ErrorEvents(errorCode, errorText) + [Close];
      var d := Document(capacity, es);
      (d == es || d == []) && (d == [] <==> !AllAccepted(Fresh(capacity), es) || |es| > capacity)
  {
    InitLeavesRootOpen(ErrorDoc, version, style, ns, h);
    ErrorShape(errorCode, errorText);
    DocumentOutcome(capacity, InitEvents(ErrorDoc, version, style, ns, h), ErrorEvents(errorCode, errorText));
  }

  /** printSample returns the whole streams document or nothing. */
  lemma SampleDocumentContained(capacity: nat, version: string, style: string, ns: Registry, h: HeaderValues,
                                observations: seq<Observation>)
    ensures var es := InitEvents(StreamsDoc, version, style, ns, h) + StreamsEvents(observations, ns) + [Close];
      var d := Document(capacity, es);
      (d == es || d == []) && (d == [] <==> !AllAccepted(Fresh(capacity), es) || |es| > capacity)
  {
    InitLeavesRootOpen(StreamsDoc, version, style, ns, h);
    StreamsBalanced(observations, ns);
    DocumentOutcome(capacity, InitEvents(StreamsDoc, version, style, ns, h), StreamsEvents(observations, ns));
  }

  /** printAssets returns the whole assets document or nothing. */
  lemma AssetsDocumentContained(capacity: nat, version: string, style: string, ns: Registry, h: HeaderValues,
                                assets: seq<Asset>)
    ensures var es := InitEvents(AssetsDoc, version, style, ns, h) + AssetsEvents(assets) + [Close];
      var d := Document(capacity, es);
      (d == es || d == []) && (d == [] <==> !AllAccepted(Fresh(capacity), es) || |es| > capacity)
  {
    InitLeavesRootOpen(AssetsDoc, version, style, ns, h);
    AssetsBalanced(assets);
    DocumentOutcome(capacity, InitEvents(AssetsDoc, version, style, ns, h), AssetsEvents(assets));
  }

  /** printCuttingTool returns the tool's element or nothing. */
  lemma CuttingToolDocumentContained(capacity: nat, tool: CuttingTool)
    ensures var es := ToolEvents(tool); var d := Document(capacity, es);
      (d == es || d == []) && (d == [] <==> !AllAccepted(Fresh(capacity), es) || |es| > capacity)
  {
    ToolBalanced(tool);
    BalancedDocument(capacity, ToolEvents(tool));
  }

  /**
   * The error header declares bufferSize but no sequence numbers, so the
   * wrapped nextSeq - 1 never reaches the document.
   */
  lemma ErrorHeaderKeys(env: Environment, instanceId: uint32, bufferSize: uint32, nextSeq: uint64)
    ensures var es := HeaderAttributeEvents(ErrorDoc, ErrorHeader(env, instanceId, bufferSize, nextSeq));
      HasAttr(es, "bufferSize") && !HasAttr(es, "firstSequence") && !HasAttr(es, "nextSequence") &&
      !HasAttr(es, "assetBufferSize")
  {
    HeaderKeysByKind(ErrorDoc, ErrorHeader(env, instanceId, bufferSize, nextSeq));
  }

  /** The assets header reports the buffer size passed to printAssets as assetBufferSize. */
  lemma AssetsHeaderReportsAssetBuffer(env: Environment, instanceId: uint32, bufferSize: uint32, assetCount: uint32)
    ensures var es := HeaderAttributeEvents(AssetsDoc, AssetsHeader(env, instanceId, bufferSize, assetCount));
      Attr("assetBufferSize", NatToString(bufferSize)) in es &&
      Attr("assetCount", NatToString(assetCount)) in es &&
      !HasAttr(es, "bufferSize")
  {
    var h := AssetsHeader(env, instanceId, bufferSize, assetCount);
    HeaderKeysByKind(AssetsDoc, h);
    NatToStringRoundTrip(bufferSize);
    NatToStringRoundTrip(assetCount);
    var es := HeaderAttributeEvents(AssetsDoc, h);
    var pre := AttributeEvents("creationTime", h.creationTime) + AttributeEvents("sender", h.sender) +
      AttributeEvents("instanceId", NatToString(h.instanceId)) + AttributeEvents("version", h.agentVersion);
    var b := [Attr("assetBufferSize", NatToString(bufferSize)), Attr("assetCount", NatToString(assetCount))];
    assert es == pre + b;
    assert es[|pre|] == b[0] && es[|pre| + 1] == b[1];
  }
}
