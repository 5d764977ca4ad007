/**
 * The printer's namespace registries and the choice of the root element's
 * xsi:schemaLocation (src/xml_printer.cpp:113-257 and 1119-1150). Each
 * document kind has its own registry, a std::map from prefix to
 * {urn, schema location}.
 */
module Namespaces {
  import opened Wrappers
  import opened Strings
  import opened OrderedMaps
  import opened XmlWriter
  import opened XmlElements

  datatype SchemaNamespace = SchemaNamespace(urn: string, location: string)

  type Registry = Entries<SchemaNamespace>

  /** The four documents the printer produces. */
  datatype DocumentKind = ErrorDoc | StreamsDoc | DevicesDoc | AssetsDoc

  function KindName(kind: DocumentKind): string
  {
    match kind
    case ErrorDoc => "Error"
    case StreamsDoc => "Streams"
    case DevicesDoc => "Devices"
    case AssetsDoc => "Assets"
  }

  /** The root element: MTConnectError, MTConnectStreams, MTConnectDevices or MTConnectAssets. */
  function RootName(kind: DocumentKind): string
  {
    "MTConnect" + KindName(kind)
  }

  /** The MTConnect namespace of a document kind at a schema version. */
  function Xmlns(kind: DocumentKind, version: string): string
  {
    "urn:mtconnect.org:" + RootName(kind) + ":" + version
  }

  /** get*Urn: the URN registered under `prefix`, or "" when the prefix is unknown. */
  function UrnOf(ns: Registry, prefix: string): string
  {
    match Get(ns, prefix)
    case Some(n) => n.urn
    case None => ""
  }

  /** get*Location: the schema location registered under `prefix`, or "". */
  function LocationOf(ns: Registry, prefix: string): string
  {
    match Get(ns, prefix)
    case Some(n) => n.location
    case None => ""
  }

  /** A lookup finds the entry stored under the prefix, and "" for a prefix never added. */
  lemma LookupMeaning(ns: Registry, prefix: string)
    requires Ascending(ns)
    ensures prefix !in Keys(ns) ==> UrnOf(ns, prefix) == "" && LocationOf(ns, prefix) == ""
    ensures forall i :: 0 <= i < |ns| && ns[i].0 == prefix ==>
      UrnOf(ns, prefix) == ns[i].1.urn && LocationOf(ns, prefix) == ns[i].1.location
  {
    GetPresent(ns, prefix);
  }

  /**
   * add*Namespace then get*: the new URN and location are seen only when the
   * prefix was not registered before (std::map::insert keeps the old entry);
   * every other prefix reads as before.
   */
  lemma AddThenLookup(ns: Registry, urn: string, location: string, prefix: string, q: string)
    requires Ascending(ns)
    ensures var r := Insert(ns, prefix, SchemaNamespace(urn, location));
      UrnOf(r, q) == (if q == prefix && prefix !in Keys(ns) then urn else UrnOf(ns, q)) &&
      LocationOf(r, q) == (if q == prefix && prefix !in Keys(ns) then location else LocationOf(ns, q))
  {
    GetPresent(ns, prefix);
    GetAfterInsert(ns, prefix, SchemaNamespace(urn, location), q);
  }

  // ---------------------------------------------------------------------
  // The schema location, as the loop of initXmlDoc accumulates it.

  /** An entry that supplies the schema location: not the MTConnect "m" prefix, and with a location. */
  predicate Supplies(e: (string, SchemaNamespace))
  {
    e.0 != "m" && e.1.location != ""
  }

  /** The first supplying entry, in ascending prefix order, as "urn location". */
  function FirstLocation(ns: Registry): Option<string>
    decreases |ns|
  {
    if ns == [] then None
    else
      match FirstLocation(ns[..|ns| - 1])
      case Some(l) => Some(l)
      case None =>
        var e := ns[|ns| - 1];
        if Supplies(e) then Some(e.1.urn + " " + e.1.location) else None
  }

  /** The location of the "m" entry, attached to the MTConnect namespace, or "". */
  function MtcLocation(ns: Registry, xmlns: string): string
    decreases |ns|
  {
    if ns == [] then ""
    else
      var e := ns[|ns| - 1];
      if e.0 == "m" && e.1.location != "" then xmlns + " " + e.1.location
      else MtcLocation(ns[..|ns| - 1], xmlns)
  }

  /** The default when no namespace supplies a location: the schema published at schemas.mtconnect.org. */
  function DefaultLocation(kind: DocumentKind, version: string): string
  {
    Xmlns(kind, version) + " http://schemas.mtconnect.org/schemas/" + RootName(kind) + "_" + version + ".xsd"
  }

  /** The value of xsi:schemaLocation on the root element. */
  function SchemaLocation(ns: Registry, kind: DocumentKind, version: string): string
  {
    match FirstLocation(ns)
    case Some(l) => l
    case None =>
      var mtc := MtcLocation(ns, Xmlns(kind, version));
      if mtc != "" then mtc else DefaultLocation(kind, version)
  }

  lemma {:induction false} FirstLocationIsFirst(ns: Registry)
    ensures FirstLocation(ns).None? <==> forall i :: 0 <= i < |ns| ==> !Supplies(ns[i])
    ensures FirstLocation(ns).Some? ==>
      exists i :: (0 <= i < |ns| && Supplies(ns[i]) &&
        FirstLocation(ns).value == ns[i].1.urn + " " + ns[i].1.location &&
        forall j :: 0 <= j < i ==> !Supplies(ns[j]))
    decreases |ns|
  {
    if ns != [] {
      var init := ns[..|ns| - 1];
      FirstLocationIsFirst(init);
      if FirstLocation(init).Some? {
        var i :| 0 <= i < |init| && Supplies(init[i]) &&
          FirstLocation(init).value == init[i].1.urn + " " + init[i].1.location &&
          forall j :: 0 <= j < i ==> !Supplies(init[j]);
        assert ns[i] == init[i];
        assert forall j :: 0 <= j < i ==> ns[j] == init[j];
      } else {
        assert forall j :: 0 <= j < |init| ==> ns[j] == init[j];
        if Supplies(ns[|ns| - 1]) {
          assert forall j :: 0 <= j < |ns| - 1 ==> !Supplies(ns[j]);
        }
      }
    }
  }

  lemma {:induction false} MtcLocationOfM(ns: Registry, xmlns: string)
    requires Ascending(ns)
    ensures MtcLocation(ns, xmlns) ==
      (if Get(ns, "m").Some? && Get(ns, "m").value.location != "" then xmlns + " " + Get(ns, "m").value.location else "")
    decreases |ns|
  {
    if ns != [] {
      var init := ns[..|ns| - 1];
      var e := ns[|ns| - 1];
      assert Ascending(init);
      MtcLocationOfM(init, xmlns);
      GetPresent(ns, "m");
      GetPresent(init, "m");
      if e.0 == "m" {
        LessIrreflexive("m");
        assert forall j :: 0 <= j < |init| ==> init[j] == ns[j] && Less(ns[j].0, e.0);
      } else {
        assert Keys(ns) == Keys(init) + {e.0} by {
          assert ns == init + [e];
          forall x | x in Keys(ns) ensures x in Keys(init) + {e.0} {
            var j :| 0 <= j < |ns| && ns[j].0 == x;
            if j < |ns| - 1 { assert init[j] == ns[j]; }
          }
        }
        if Get(ns, "m").Some? {
          var j :| 0 <= j < |ns| && ns[j].0 == "m";
          assert j < |ns| - 1;
          assert init[j] == ns[j];
        }
      }
    }
  }

  /**
   * The schema location is chosen in three steps. First: the first namespace
   * in ascending prefix order, other than "m", that has a location supplies
   * "urn location".
   */
  lemma SchemaLocationFromFirst(ns: Registry, kind: DocumentKind, version: string, i: nat)
    requires i < |ns| && Supplies(ns[i]) && forall j :: 0 <= j < i ==> !Supplies(ns[j])
    ensures SchemaLocation(ns, kind, version) == ns[i].1.urn + " " + ns[i].1.location
  {
    FirstLocationIsFirst(ns);
    var k :| 0 <= k < |ns| && Supplies(ns[k]) &&
      FirstLocation(ns).value == ns[k].1.urn + " " + ns[k].1.location &&
      forall j :: 0 <= j < k ==> !Supplies(ns[j]);
    assert !(k < i) && !(i < k);
  }

  /** Second: when no other namespace has a location, the MTConnect URN with the "m" entry's location. */
  lemma SchemaLocationFromM(ns: Registry, kind: DocumentKind, version: string)
    requires Ascending(ns)
    requires forall i :: 0 <= i < |ns| ==> !Supplies(ns[i])
    requires Get(ns, "m").Some? && Get(ns, "m").value.location != ""
    ensures SchemaLocation(ns, kind, version) == Xmlns(kind, version) + " " + Get(ns, "m").value.location
  {
    FirstLocationIsFirst(ns);
    MtcLocationOfM(ns, Xmlns(kind, version));
  }

  /** Third: with no location registered at all, the schema published by MTConnect for the version. */
  lemma SchemaLocationDefault(ns: Registry, kind: DocumentKind, version: string)
    requires Ascending(ns)
    requires forall i :: 0 <= i < |ns| ==> !Supplies(ns[i])
    requires Get(ns, "m").None? || Get(ns, "m").value.location == ""
    ensures SchemaLocation(ns, kind, version) == DefaultLocation(kind, version)
  {
    FirstLocationIsFirst(ns);
    MtcLocationOfM(ns, Xmlns(kind, version));
  }

  // ---------------------------------------------------------------------
  // The namespace declarations on the root element.

  /** One xmlns:prefix declaration per registered prefix other than "m", in prefix order. */
  function NamespaceAttributeEvents(ns: Registry): seq<Event>
    decreases |ns|
  {
    if ns == [] then []
    else
      var e := ns[|ns| - 1];
      NamespaceAttributeEvents(ns[..|ns| - 1]) +
      (if e.0 != "m" then AttributeEvents("xmlns:" + e.0, e.1.urn) else [])
  }

  /** A prefix is declared exactly when it is registered, is not "m" and has a URN. */
  lemma {:induction false} NamespaceDeclared(ns: Registry, prefix: string, urn: string)
    ensures Attr("xmlns:" + prefix, urn) in NamespaceAttributeEvents(ns) <==>
      prefix != "m" && urn != "" && exists i :: 0 <= i < |ns| && ns[i].0 == prefix && ns[i].1.urn == urn
    decreases |ns|
  {
    if ns != [] {
      var init := ns[..|ns| - 1];
      var e := ns[|ns| - 1];
      NamespaceDeclared(init, prefix, urn);
      assert ("xmlns:" + e.0 == "xmlns:" + prefix) ==> e.0 == prefix by {
        if "xmlns:" + e.0 == "xmlns:" + prefix {
          assert e.0 == ("xmlns:" + e.0)[6..];
        }
      }
      if exists i :: 0 <= i < |ns| && ns[i].0 == prefix && ns[i].1.urn == urn {
        var i :| 0 <= i < |ns| && ns[i].0 == prefix && ns[i].1.urn == urn;
        if i < |ns| - 1 { assert init[i] == ns[i]; }
      }
      if exists i :: 0 <= i < |init| && init[i].0 == prefix && init[i].1.urn == urn {
        var i :| 0 <= i < |init| && init[i].0 == prefix && init[i].1.urn == urn;
        assert ns[i] == init[i];
      }
    }
  }

  lemma {:induction false} NamespaceAttributesFlat(ns: Registry)
    ensures forall i :: 0 <= i < |NamespaceAttributeEvents(ns)| ==> NamespaceAttributeEvents(ns)[i].Attr?
    decreases |ns|
  {
    if ns != [] { NamespaceAttributesFlat(ns[..|ns| - 1]); }
  }
}
