/**
 * The body of an Assets document (printAssets and printAssetNode,
 * src/xml_printer.cpp:899-965). A cutting tool or cutting tool archetype
 * supplies its whole element as its content; every other asset is wrapped
 * in an element named by its type, with the common asset attributes and
 * children, followed by its content.
 */
module Assets {
  import opened OrderedMaps
  import opened XmlWriter
  import opened XmlElements

  /**
   * What the printer reads from an asset. The content is what the asset
   * renders for itself (Asset::getContent), taken as given.
   */
  datatype Asset = Asset(
    assetType: string,
    identity: Entries<string>,
    timestamp: string,
    deviceUuid: string,
    assetId: string,
    removed: bool,
    archetype: Entries<string>,
    description: string,
    content: string)

  /** The assets whose content is already a complete element. */
  predicate SelfRendered(a: Asset)
  {
    a.assetType == "CuttingTool" || a.assetType == "CuttingToolArchetype"
  }

  /** The attributes printAssetNode gives the asset's element. */
  function AssetAttributeEvents(a: Asset): seq<Event>
  {
    MapAttributeEvents(a.identity) +
    AttributeEvents("timestamp", a.timestamp) +
    AttributeEvents("deviceUuid", a.deviceUuid) +
    AttributeEvents("assetId", a.assetId) +
    (if a.removed then [Attr("removed", "true")] else [])
  }

  /** The children printAssetNode writes: AssetArchetypeRef when there is an archetype, then Description. */
  function AssetChildEvents(a: Asset): seq<Event>
  {
    (if a.archetype != [] then SimpleElementEvents("AssetArchetypeRef", "", a.archetype, false) else []) +
    (if a.description != "" then SimpleElementEvents("Description", a.description, [], false) else [])
  }

  function AssetNodeEvents(a: Asset): seq<Event>
  {
    AssetAttributeEvents(a) + AssetChildEvents(a)
  }

  /** One asset inside the Assets element. */
  function AssetEvents(a: Asset): seq<Event>
  {
    if SelfRendered(a) then [Raw(a.content)]
    else [Open(a.assetType)] + AssetNodeEvents(a) + [Raw(a.content), Close]
  }

  function AssetListEvents(assets: seq<Asset>): seq<Event>
    decreases |assets|
  {
    if assets == [] then [] else AssetListEvents(assets[..|assets| - 1]) + AssetEvents(assets[|assets| - 1])
  }

  /** The Assets element, present even when there are no assets. */
  function AssetsEvents(assets: seq<Asset>): seq<Event>
  {
    [Open("Assets")] + AssetListEvents(assets) + [Close]
  }

  // ---------------------------------------------------------------------

  /**
   * The removed attribute is written for a removed asset, and for no other
   * asset unless its identity carries it.
   */
  lemma RemovedMarked(a: Asset)
    ensures a.removed ==> Attr("removed", "true") in AssetAttributeEvents(a)
    ensures Attr("removed", "true") in AssetAttributeEvents(a) <==>
      a.removed || exists i :: 0 <= i < |a.identity| && a.identity[i] == ("removed", "true")
  {
    MapAttributesWritten(a.identity, "removed", "true");
    var es := AssetAttributeEvents(a);
    assert Attr("removed", "true") in es <==>
      Attr("removed", "true") in MapAttributeEvents(a.identity) || a.removed;
  }

  lemma AssetAttributesFlat(a: Asset)
    ensures forall i :: 0 <= i < |AssetAttributeEvents(a)| ==> AssetAttributeEvents(a)[i].Attr?
  {
    MapAttributesFlat(a.identity);
  }

  lemma AssetChildBalanced(a: Asset)
    ensures Balanced(AssetChildEvents(a))
  {
    var r: seq<Event> := if a.archetype != [] then SimpleElementEvents("AssetArchetypeRef", "", a.archetype, false) else [];
    var d: seq<Event> := if a.description != "" then SimpleElementEvents("Description", a.description, [], false) else [];
    if a.archetype != [] { SimpleElementBalanced("AssetArchetypeRef", "", a.archetype, false); } else { FlatBalanced(r); }
    if a.description != "" { SimpleElementBalanced("Description", a.description, [], false); } else { FlatBalanced(d); }
    BalancedAppend(r, d);
  }

  /**
   * A cutting tool's content is passed through alone and unchanged; any other
   * asset becomes one balanced element named by its type whose content is
   * written raw just before its end tag.
   */
  lemma AssetShape(a: Asset)
    ensures SelfRendered(a) ==> AssetEvents(a) == [Raw(a.content)]
    ensures !SelfRendered(a) ==> var es := AssetEvents(a);
      es[0] == Open(a.assetType) && es[|es| - 2] == Raw(a.content) && es[|es| - 1] == Close
    ensures Balanced(AssetEvents(a))
  {
    if SelfRendered(a) {
      FlatBalanced([Raw(a.content)]);
    } else {
      AssetAttributesFlat(a);
      FlatBalanced(AssetAttributeEvents(a));
      AssetChildBalanced(a);
      BalancedAppend(AssetAttributeEvents(a), AssetChildEvents(a));
      FlatBalanced([Raw(a.content)]);
      BalancedAppend(AssetNodeEvents(a), [Raw(a.content)]);
      BalancedWrap(a.assetType, AssetNodeEvents(a) + [Raw(a.content)]);
      assert AssetEvents(a) == [Open(a.assetType)] + (AssetNodeEvents(a) + [Raw(a.content)]) + [Close];
    }
  }

  lemma {:induction false} AssetListBalanced(assets: seq<Asset>)
    ensures Balanced(AssetListEvents(assets))
    decreases |assets|
  {
    if assets == [] {
      FlatBalanced([]);
    } else {
      AssetListBalanced(assets[..|assets| - 1]);
      AssetShape(assets[|assets| - 1]);
      BalancedAppend(AssetListEvents(assets[..|assets| - 1]), AssetEvents(assets[|assets| - 1]));
    }
  }

  lemma AssetsBalanced(assets: seq<Asset>)
    ensures Balanced(AssetsEvents(assets))
  {
    AssetListBalanced(assets);
    BalancedWrap("Assets", AssetListEvents(assets));
  }

  /** The output for the first assets is a prefix of the output for all of them. */
  lemma {:induction false} AssetListPrefix(assets: seq<Asset>, n: nat)
    requires n <= |assets|
    ensures AssetListEvents(assets[..n]) <= AssetListEvents(assets)
    decreases |assets|
  {
    if n < |assets| {
      var init := assets[..|assets| - 1];
      AssetListPrefix(init, n);
      assert init[..n] == assets[..n];
    } else {
      assert assets[..n] == assets;
    }
  }

  /** Every asset's content appears in the document, in the order of the list. */
  lemma ContentsInOrder(assets: seq<Asset>, i: nat)
    requires i < |assets|
    ensures AssetListEvents(assets[..i]) + AssetEvents(assets[i]) <= AssetListEvents(assets)
    ensures Raw(assets[i].content) in AssetEvents(assets[i])
  {
    assert AssetListEvents(assets[..i]) + AssetEvents(assets[i]) <= AssetListEvents(assets) by {
      AssetListPrefix(assets, i + 1);
      var p := assets[..i + 1];
      assert p[..|p| - 1] == assets[..i] && p[|p| - 1] == assets[i];
    }
    ContentInAsset(assets[i]);
  }

  lemma ContentInAsset(a: Asset)
    ensures Raw(a.content) in AssetEvents(a)
  {
    AssetShape(a);
    if !SelfRendered(a) {
      var es := AssetEvents(a);
      assert es[|es| - 2] == Raw(a.content);
    }
  }

  // ---------------------------------------------------------------------

  method PrintAssetNode(w: Writer, a: Asset)
    modifies w
    ensures w.state == EmitAll(old(w.state), AssetNodeEvents(a))
  {
    ghost var s0 := w.state;
    AddAttributes(w, a.identity);
    AddAttribute(w, "timestamp", a.timestamp);
    EmitAllAppend(s0, MapAttributeEvents(a.identity), AttributeEvents("timestamp", a.timestamp));
    ghost var p1 := MapAttributeEvents(a.identity) + AttributeEvents("timestamp", a.timestamp);
    AddAttribute(w, "deviceUuid", a.deviceUuid);
    EmitAllAppend(s0, p1, AttributeEvents("deviceUuid", a.deviceUuid));
    ghost var p2 := p1 + AttributeEvents("deviceUuid", a.deviceUuid);
    AddAttribute(w, "assetId", a.assetId);
    EmitAllAppend(s0, p2, AttributeEvents("assetId", a.assetId));
    ghost var p3 := p2 + AttributeEvents("assetId", a.assetId);
    if a.removed {
      AddAttribute(w, "removed", "true");
    }
    EmitAllAppend(s0, p3, if a.removed then [Attr("removed", "true")] else []);
    assert p3 + (if a.removed then [Attr("removed", "true")] else []) == AssetAttributeEvents(a);
    PrintAssetChildren(w, a);
    EmitAllAppend(s0, AssetAttributeEvents(a), AssetChildEvents(a));
  }

  method PrintAssetChildren(w: Writer, a: Asset)
    modifies w
    ensures w.state == EmitAll(old(w.state), AssetChildEvents(a))
  {
    ghost var s0 := w.state;
    ghost var r: seq<Event> := [];
    if a.archetype != [] {
      AddSimpleElement(w, "AssetArchetypeRef", "", a.archetype, false);
      r := SimpleElementEvents("AssetArchetypeRef", "", a.archetype, false);
    }
    ghost var d: seq<Event> := [];
    if a.description != "" {
      AddSimpleElement(w, "Description", a.description, [], false);
      d := SimpleElementEvents("Description", a.description, [], false);
    }
    EmitAllAppend(s0, r, d);
  }

  method PrintAsset(w: Writer, a: Asset)
    modifies w
    ensures w.state == EmitAll(old(w.state), AssetEvents(a))
  {
    ghost var s0 := w.state;
    if a.assetType == "CuttingTool" || a.assetType == "CuttingToolArchetype" {
      w.Write(Raw(a.content));
      EmitSingle(s0, Raw(a.content));
    } else {
      var element := new AutoElement(w, a.assetType, "");
      ghost var s1 := w.state;
      PrintAssetNode(w, a);
      ghost var s2 := w.state;
      w.Write(Raw(a.content));
      EmitSingle(s2, Raw(a.content));
      ghost var s3 := w.state;
      element.Finish();
      GuardedElement(s0, s1, s2, s3, a.assetType, AssetNodeEvents(a), [Raw(a.content)]);
      assert AssetEvents(a) == [Open(a.assetType)] + AssetNodeEvents(a) + [Raw(a.content)] + [Close];
    }
  }

  method PrintAssetList(w: Writer, assets: seq<Asset>)
    modifies w
    ensures w.state == EmitAll(old(w.state), AssetListEvents(assets))
  {
    for i := 0 to |assets|
      invariant w.state == EmitAll(old(w.state), AssetListEvents(assets[..i]))
    {
      PrintAsset(w, assets[i]);
      assert assets[..i + 1][..i] == assets[..i];
      EmitAllAppend(old(w.state), AssetListEvents(assets[..i]), AssetEvents(assets[i]));
    }
    assert assets[..|assets|] == assets;
  }
}
