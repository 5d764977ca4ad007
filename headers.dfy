/**
 * The preamble every printed document starts with (initXmlDoc,
 * src/xml_printer.cpp:1059-1200): the XML declaration, an optional
 * stylesheet processing instruction, the root element with its namespace
 * declarations and schema location, and the Header element.
 */
module Headers {
  import opened Wrappers
  import opened Strings
  import opened OrderedMaps
  import opened XmlWriter
  import opened XmlElements
  import opened Namespaces

  type uint32 = x: nat | x < 0x1_0000_0000
  type uint64 = x: nat | x < 0x1_0000_0000_0000_0000

  /**
   * The values written into the Header element. The creation time, the host
   * name and the agent version string come from the environment and are
   * given here.
   */
  datatype HeaderValues = HeaderValues(
    creationTime: string,
    sender: string,
    agentVersion: string,
    instanceId: uint32,
    bufferSize: uint32,
    assetBufferSize: uint32,
    assetCount: uint32,
    nextSeq: uint64,
    firstSeq: uint64,
    lastSeq: uint64,
    assetCounts: Option<Entries<int>>)

  const XsiNamespace: string := "http://www.w3.org/2001/XMLSchema-instance"

  function StylesheetInstruction(style: string): string
  {
    "xml-stylesheet type=\"text/xsl\" href=\"" + style + "\""
  }

  function StyleEvents(style: string): seq<Event>
  {
    if style == "" then [] else [Instruction(StylesheetInstruction(style))]
  }

  /** The root start tag: the MTConnect namespace twice, xsi, the registered namespaces, the schema location. */
  function RootEvents(kind: DocumentKind, version: string, ns: Registry): seq<Event>
  {
    var xmlns := Xmlns(kind, version);
    [Open(RootName(kind))] +
    AttributeEvents("xmlns:m", xmlns) +
    AttributeEvents("xmlns", xmlns) +
    AttributeEvents("xmlns:xsi", XsiNamespace) +
    NamespaceAttributeEvents(ns) +
    AttributeEvents("xsi:schemaLocation", SchemaLocation(ns, kind, version))
  }

  /** The attributes of the Header element, which depend on the document kind. */
  function HeaderAttributeEvents(kind: DocumentKind, h: HeaderValues): seq<Event>
  {
    AttributeEvents("creationTime", h.creationTime) +
    AttributeEvents("sender", h.sender) +
    AttributeEvents("instanceId", NatToString(h.instanceId)) +
    AttributeEvents("version", h.agentVersion) +
    (if kind == AssetsDoc || kind == DevicesDoc then
       AttributeEvents("assetBufferSize", NatToString(h.assetBufferSize)) +
       AttributeEvents("assetCount", NatToString(h.assetCount))
     else []) +
    (if kind == DevicesDoc || kind == ErrorDoc || kind == StreamsDoc then
       AttributeEvents("bufferSize", NatToString(h.bufferSize))
     else []) +
    (if kind == StreamsDoc then
       AttributeEvents("nextSequence", NatToString(h.nextSeq)) +
       AttributeEvents("firstSequence", NatToString(h.firstSeq)) +
       AttributeEvents("lastSequence", NatToString(h.lastSeq))
     else [])
  }

  /** One AssetCount element per asset type, in ascending type order. */
  function AssetCountEvents(counts: Entries<int>): seq<Event>
    decreases |counts|
  {
    if counts == [] then []
    else
      var (t, n) := counts[|counts| - 1];
      AssetCountEvents(counts[..|counts| - 1]) +
      SimpleElementEvents("AssetCount", IntToString(n), FromPairs([("assetType", t)]), false)
  }

  /** The AssetCounts block, printed only in a Devices document and only for a non-empty count. */
  function AssetCountsEvents(kind: DocumentKind, counts: Option<Entries<int>>): seq<Event>
  {
    if kind == DevicesDoc && counts.Some? && counts.value != [] then
      [Open("AssetCounts")] + AssetCountEvents(counts.value) + [Close]
    else []
  }

  /** The Header element. */
  function HeaderEvents(kind: DocumentKind, h: HeaderValues): seq<Event>
  {
    [Open("Header")] + HeaderAttributeEvents(kind, h) + AssetCountsEvents(kind, h.assetCounts) + [Close]
  }

  /** Everything initXmlDoc writes; the root element is left open for the caller. */
  function InitEvents(kind: DocumentKind, version: string, style: string, ns: Registry, h: HeaderValues): seq<Event>
  {
    [Declaration] + StyleEvents(style) + RootEvents(kind, version, ns) + HeaderEvents(kind, h)
  }

  // ---------------------------------------------------------------------
  // Properties of the preamble.

  /** `es` holds an attribute named `key`. */
  predicate HasAttr(es: seq<Event>, key: string)
  {
    exists i :: 0 <= i < |es| && es[i].Attr? && es[i].key == key
  }

  lemma HasAttrAppend(a: seq<Event>, b: seq<Event>, key: string)
    ensures HasAttr(a + b, key) <==> HasAttr(a, key) || HasAttr(b, key)
  {
    if HasAttr(a + b, key) {
      var i :| 0 <= i < |a + b| && (a + b)[i].Attr? && (a + b)[i].key == key;
      if i >= |a| { assert b[i - |a|] == (a + b)[i]; }
    }
    if HasAttr(b, key) {
      var i :| 0 <= i < |b| && b[i].Attr? && b[i].key == key;
      assert (a + b)[i + |a|] == b[i];
    }
    if HasAttr(a, key) {
      var i :| 0 <= i < |a| && a[i].Attr? && a[i].key == key;
      assert (a + b)[i] == a[i];
    }
  }

  lemma HasAttrSingle(k: string, v: string, key: string)
    ensures HasAttr(AttributeEvents(k, v), key) <==> v != "" && k == key
  {
    if v != "" { assert AttributeEvents(k, v)[0] == Attr(k, v); }
  }

  /** A number is always written: its decimal rendering is never empty. */
  lemma HasNumber(k: string, n: nat, key: string)
    ensures HasAttr(AttributeEvents(k, NatToString(n)), key) <==> k == key
  {
    NatToStringRoundTrip(n);
    HasAttrSingle(k, NatToString(n), key);
  }

  /**
   * The header carries assetBufferSize and assetCount only for Devices and
   * Assets, bufferSize only for Devices, Error and Streams, and the three
   * sequence numbers only for Streams.
   */
  lemma HeaderKeysByKind(kind: DocumentKind, h: HeaderValues)
    ensures var es := HeaderAttributeEvents(kind, h);
      (HasAttr(es, "assetBufferSize") <==> kind == DevicesDoc || kind == AssetsDoc) &&
      (HasAttr(es, "assetCount") <==> kind == DevicesDoc || kind == AssetsDoc) &&
      (HasAttr(es, "bufferSize") <==> kind != AssetsDoc) &&
      (HasAttr(es, "nextSequence") <==> kind == StreamsDoc) &&
      (HasAttr(es, "firstSequence") <==> kind == StreamsDoc) &&
      (HasAttr(es, "lastSequence") <==> kind == StreamsDoc)
  {
    var es := HeaderAttributeEvents(kind, h);
    assert HasAttr(es, "assetBufferSize") <==> kind == DevicesDoc || kind == AssetsDoc by {
      HeaderKeyPresence(kind, h, "assetBufferSize");
    }
    assert HasAttr(es, "assetCount") <==> kind == DevicesDoc || kind == AssetsDoc by {
      HeaderKeyPresence(kind, h, "assetCount");
    }
    assert HasAttr(es, "bufferSize") <==> kind != AssetsDoc by {
      HeaderKeyPresence(kind, h, "bufferSize");
    }
    assert HasAttr(es, "nextSequence") <==> kind == StreamsDoc by {
      HeaderKeyPresence(kind, h, "nextSequence");
    }
    assert HasAttr(es, "firstSequence") <==> kind == StreamsDoc by {
      HeaderKeyPresence(kind, h, "firstSequence");
    }
    assert HasAttr(es, "lastSequence") <==> kind == StreamsDoc by {
      HeaderKeyPresence(kind, h, "lastSequence");
    }
  }

  lemma HeaderKeyPresence(kind: DocumentKind, h: HeaderValues, key: string)
    requires key in {"assetBufferSize", "assetCount", "bufferSize", "nextSequence", "firstSequence", "lastSequence"}
    ensures HasAttr(HeaderAttributeEvents(kind, h), key) <==>
      if key == "assetBufferSize" || key == "assetCount" then kind == DevicesDoc || kind == AssetsDoc
      else if key == "bufferSize" then kind != AssetsDoc
      else kind == StreamsDoc
  {
    var a1 := AttributeEvents("creationTime", h.creationTime);
    var a2 := AttributeEvents("sender", h.sender);
    var a3 := AttributeEvents("instanceId", NatToString(h.instanceId));
    var a4 := AttributeEvents("version", h.agentVersion);
    var b1 := AttributeEvents("assetBufferSize", NatToString(h.assetBufferSize));
    var b2 := AttributeEvents("assetCount", NatToString(h.assetCount));
    var c1 := AttributeEvents("bufferSize", NatToString(h.bufferSize));
    var d1 := AttributeEvents("nextSequence", NatToString(h.nextSeq));
    var d2 := AttributeEvents("firstSequence", NatToString(h.firstSeq));
    var d3 := AttributeEvents("lastSequence", NatToString(h.lastSeq));
    var b := if kind == AssetsDoc || kind == DevicesDoc then b1 + b2 else [];
    var c := if kind == DevicesDoc || kind == ErrorDoc || kind == StreamsDoc then c1 else [];
    var d := if kind == StreamsDoc then d1 + d2 + d3 else [];
    assert HeaderAttributeEvents(kind, h) == a1 + a2 + a3 + a4 + b + c + d;
    HasAttrSingle("creationTime", h.creationTime, key);
    HasAttrSingle("sender", h.sender, key);
    HasNumber("instanceId", h.instanceId, key);
    HasAttrSingle("version", h.agentVersion, key);
    HasNumber("assetBufferSize", h.assetBufferSize, key);
    HasNumber("assetCount", h.assetCount, key);
    HasNumber("bufferSize", h.bufferSize, key);
    HasNumber("nextSequence", h.nextSeq, key);
    HasNumber("firstSequence", h.firstSeq, key);
    HasNumber("lastSequence", h.lastSeq, key);
    HasAttrAppend(b1, b2, key);
    HasAttrAppend(d1, d2, key);
    HasAttrAppend(d1 + d2, d3, key);
    HasAttrAppend(a1, a2, key);
    HasAttrAppend(a1 + a2, a3, key);
    HasAttrAppend(a1 + a2 + a3, a4, key);
    HasAttrAppend(a1 + a2 + a3 + a4, b, key);
    HasAttrAppend(a1 + a2 + a3 + a4 + b, c, key);
    HasAttrAppend(a1 + a2 + a3 + a4 + b + c, d, key);
    assert !HasAttr([], key);
  }

  /** A Streams header carries the three sequence numbers as exact decimals that read back as the 64-bit values. */
  lemma SequenceNumbersExact(h: HeaderValues)
    ensures var es := HeaderAttributeEvents(StreamsDoc, h);
      Attr("nextSequence", NatToString(h.nextSeq)) in es &&
      Attr("firstSequence", NatToString(h.firstSeq)) in es &&
      Attr("lastSequence", NatToString(h.lastSeq)) in es
    ensures ParseNat(NatToString(h.nextSeq)) == h.nextSeq &&
      ParseNat(NatToString(h.firstSeq)) == h.firstSeq &&
      ParseNat(NatToString(h.lastSeq)) == h.lastSeq
  {
    NatToStringRoundTrip(h.nextSeq);
    NatToStringRoundTrip(h.firstSeq);
    NatToStringRoundTrip(h.lastSeq);
    var es := HeaderAttributeEvents(StreamsDoc, h);
    var d := AttributeEvents("nextSequence", NatToString(h.nextSeq)) +
      AttributeEvents("firstSequence", NatToString(h.firstSeq)) +
      AttributeEvents("lastSequence", NatToString(h.lastSeq));
    assert d == [Attr("nextSequence", NatToString(h.nextSeq)), Attr("firstSequence", NatToString(h.firstSeq)),
      Attr("lastSequence", NatToString(h.lastSeq))];
    assert es == es[..|es| - 3] + d;
  }

  /**
   * A stylesheet instruction comes right after the declaration and before the
   * root element exactly when a style is configured.
   */
  lemma StylesheetBeforeRoot(kind: DocumentKind, version: string, style: string, ns: Registry, h: HeaderValues)
    ensures var es := InitEvents(kind, version, style, ns, h);
      |es| >= 3 && es[0] == Declaration &&
      (es[1].Instruction? <==> style != "") &&
      (style != "" ==> es[1] == Instruction(StylesheetInstruction(style)) && es[2] == Open(RootName(kind))) &&
      (style == "" ==> es[1] == Open(RootName(kind)))
  {
  }

  /** The root element declares the schema location chosen from the registry. */
  lemma SchemaLocationDeclared(kind: DocumentKind, version: string, style: string, ns: Registry, h: HeaderValues)
    ensures Attr("xsi:schemaLocation", SchemaLocation(ns, kind, version)) in InitEvents(kind, version, style, ns, h)
  {
    var l := SchemaLocation(ns, kind, version);
    assert |l| > 0 by {
      match FirstLocation(ns)
      case Some(x) => FirstLocationIsFirst(ns);
      case None =>
    }
    var root := RootEvents(kind, version, ns);
    assert root[|root| - 1] == Attr("xsi:schemaLocation", l);
    var es := InitEvents(kind, version, style, ns, h);
    var pre := [Declaration] + StyleEvents(style);
    assert es[|pre| + |root| - 1] == root[|root| - 1];
  }

  lemma {:induction false} AssetCountBalanced(counts: Entries<int>)
    ensures Balanced(AssetCountEvents(counts))
    decreases |counts|
  {
    if counts != [] {
      var (t, n) := counts[|counts| - 1];
      AssetCountBalanced(counts[..|counts| - 1]);
      SimpleElementBalanced("AssetCount", IntToString(n), FromPairs([("assetType", t)]), false);
      BalancedAppend(AssetCountEvents(counts[..|counts| - 1]),
        SimpleElementEvents("AssetCount", IntToString(n), FromPairs([("assetType", t)]), false));
    }
  }

  lemma HeaderAttributesFlat(kind: DocumentKind, h: HeaderValues)
    ensures forall i :: 0 <= i < |HeaderAttributeEvents(kind, h)| ==> HeaderAttributeEvents(kind, h)[i].Attr?
  {
  }

  /** The root start tag opens one element and holds only attributes after it. */
  lemma RootOpensOne(kind: DocumentKind, version: string, ns: Registry)
    ensures NestedFrom(0, RootEvents(kind, version, ns)) && Depth(RootEvents(kind, version, ns)) == 1
  {
    var root := RootEvents(kind, version, ns);
    var attrs := root[1..];
    NamespaceAttributesFlat(ns);
    assert root == [Open(RootName(kind))] + attrs;
    assert forall i :: 0 <= i < |attrs| ==> attrs[i].Attr?;
    FlatBalanced(attrs);
    Single(0, Open(RootName(kind)));
    NestedFromRaise(0, 1, attrs);
    NestedFromAppend(0, [Open(RootName(kind))], attrs);
  }

  lemma AssetCountsBalanced(kind: DocumentKind, counts: Option<Entries<int>>)
    ensures Balanced(AssetCountsEvents(kind, counts))
  {
    if kind == DevicesDoc && counts.Some? && counts.value != [] {
      AssetCountBalanced(counts.value);
      BalancedWrap("AssetCounts", AssetCountEvents(counts.value));
    } else {
      FlatBalanced([]);
    }
  }

  /** The Header element is one balanced element. */
  lemma HeaderBalanced(kind: DocumentKind, h: HeaderValues)
    ensures Balanced(HeaderEvents(kind, h))
  {
    AssetCountsBalanced(kind, h.assetCounts);
    HeaderAttributesFlat(kind, h);
    var a, b := HeaderAttributeEvents(kind, h), AssetCountsEvents(kind, h.assetCounts);
    FlatBalanced(a);
    BalancedAppend(a, b);
    WrapTwo("Header", a, b);
  }

  /** Balanced events, then one element opened, then balanced events: one element is left open. */
  lemma OneLeftOpen(pre: seq<Event>, root: seq<Event>, post: seq<Event>)
    requires Balanced(pre) && NestedFrom(0, root) && Depth(root) == 1 && Balanced(post)
    ensures Nested(pre + root + post) && Depth(pre + root + post) == 1
  {
    NestedFromAppend(0, pre, root);
    NestedFromRaise(0, 1, post);
    NestedFromAppend(0, pre + root, post);
  }

  /** initXmlDoc leaves exactly the root element open, and never closes more than it opened. */
  lemma InitLeavesRootOpen(kind: DocumentKind, version: string, style: string, ns: Registry, h: HeaderValues)
    ensures Nested(InitEvents(kind, version, style, ns, h))
    ensures Depth(InitEvents(kind, version, style, ns, h)) == 1
  {
    var pre := [Declaration] + StyleEvents(style);
    var root := RootEvents(kind, version, ns);
    var header := HeaderEvents(kind, h);
    assert Nested(pre + root + header) && Depth(pre + root + header) == 1 by {
      FlatBalanced(pre);
      RootOpensOne(kind, version, ns);
      HeaderBalanced(kind, h);
      OneLeftOpen(pre, root, header);
    }
    assert InitEvents(kind, version, style, ns, h) == pre + root + header;
  }
}
