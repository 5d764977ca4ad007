/**
 * The body of a Streams document (printSample, src/xml_printer.cpp:822-897):
 * a flat list of observations is streamed into nested DeviceStream,
 * ComponentStream and category elements by three AutoElement guards, each
 * reset only when the observation's device, component or category differs
 * from the one it has open.
 */
module Samples {
  import opened Strings
  import opened XmlWriter
  import opened XmlElements
  import opened Namespaces
  import opened Observations

  /** What one AutoElement holds: the name of the element it has open ("" for none) and its key. */
  datatype Guard = Guard(name: string, key: string)

  /** The guards of printSample: device stream, component stream, category. */
  datatype Grouping = Grouping(device: Guard, component: Guard, category: Guard)

  const NoGuard: Guard := Guard("", "")
  const Idle: Grouping := Grouping(NoGuard, NoGuard, NoGuard)

  /** The number of elements the guards hold open. */
  function OpenCount(g: Grouping): nat
  {
    Opened(g.device.name) + Opened(g.component.name) + Opened(g.category.name)
  }

  /** A new device: close the category and component, reset the device guard to its DeviceStream, add name and uuid. */
  function DeviceChange(g: Grouping, o: Observation): (Grouping, seq<Event>)
  {
    if g.device.key != o.deviceId then
      (Grouping(Guard("DeviceStream", o.deviceId), NoGuard, NoGuard),
       ResetEvents(g.category.name, g.category.key, "", "") +
       ResetEvents(g.component.name, g.component.key, "", "") +
       ResetEvents(g.device.name, g.device.key, "DeviceStream", o.deviceId) +
       DeviceAttributes(o))
    else (g, [])
  }

  /** The attributes of a DeviceStream. */
  function DeviceAttributes(o: Observation): seq<Event>
  {
    AttributeEvents("name", o.deviceName) + AttributeEvents("uuid", o.deviceUuid)
  }

  /** A new component: close the category, reset the component guard to its ComponentStream, add its attributes. */
  function ComponentChange(g: Grouping, o: Observation): (Grouping, seq<Event>)
  {
    if g.component.key != o.componentId then
      (Grouping(g.device, Guard("ComponentStream", o.componentId), NoGuard),
       ResetEvents(g.category.name, g.category.key, "", "") +
       ResetEvents(g.component.name, g.component.key, "ComponentStream", o.componentId) +
       ComponentAttributes(o))
    else (g, [])
  }

  /** The attributes of a ComponentStream. */
  function ComponentAttributes(o: Observation): seq<Event>
  {
    AttributeEvents("component", o.componentClass) + AttributeEvents("name", o.componentName) +
    AttributeEvents("componentId", o.componentId)
  }

  /** The category guard is reset to the observation's category on every observation. */
  function CategoryChange(g: Grouping, o: Observation): (Grouping, seq<Event>)
  {
    (Grouping(g.device, g.component, Guard(o.category, "")),
     ResetEvents(g.category.name, g.category.key, o.category, ""))
  }

  /** The regrouping before an observation: device, then component, then category. */
  function Regroup(g: Grouping, o: Observation): (Grouping, seq<Event>)
  {
    var device := DeviceChange(g, o);
    var component := ComponentChange(device.0, o);
    var category := CategoryChange(component.0, o);
    (category.0, device.1 + component.1 + category.1)
  }

  /** One pass of the loop: regroup, then the observation's own element. */
  function Step(g: Grouping, o: Observation, streams: Registry): (Grouping, seq<Event>)
  {
    (Regroup(g, o).0, Regroup(g, o).1 + ObservationEvents(o, streams))
  }

  /** The loop over the observations, from idle guards. */
  function Run(obs: seq<Observation>, streams: Registry): (Grouping, seq<Event>)
    decreases |obs|
  {
    if obs == [] then (Idle, [])
    else
      var (g, es) := Run(obs[..|obs| - 1], streams);
      var (g', step) := Step(g, obs[|obs| - 1], streams);
      (g', es + step)
  }

  /** The guards' destructors, innermost scope first. */
  function FinishEvents(g: Grouping): seq<Event>
  {
    (if g.category.name != "" then [Close] else []) +
    (if g.component.name != "" then [Close] else []) +
    (if g.device.name != "" then [Close] else [])
  }

  /** The Streams element: the regrouped observations, when there are any. */
  function StreamsEvents(obs: seq<Observation>, streams: Registry): seq<Event>
  {
    [Open("Streams")] +
    (if |obs| > 0 then Run(obs, streams).1 + FinishEvents(Run(obs, streams).0) else []) +
    [Close]
  }

  // ---------------------------------------------------------------------
  // Nesting: every element the guards open is closed, innermost first.

  lemma DeviceChangeNested(g: Grouping, o: Observation)
    ensures NestedFrom(OpenCount(g), DeviceChange(g, o).1)
    ensures Depth(DeviceChange(g, o).1) == OpenCount(DeviceChange(g, o).0) - OpenCount(g)
  {
    if g.device.key != o.deviceId {
      var n := OpenCount(g);
      var dc, dm := Opened(g.category.name), Opened(g.component.name);
      var r1 := ResetEvents(g.category.name, g.category.key, "", "");
      var r2 := ResetEvents(g.component.name, g.component.key, "", "");
      var r3 := ResetEvents(g.device.name, g.device.key, "DeviceStream", o.deviceId);
      var a := DeviceAttributes(o);
      ResetDepth(g.category.name, g.category.key, "", "");
      ResetDepth(g.component.name, g.component.key, "", "");
      ResetDepth(g.device.name, g.device.key, "DeviceStream", o.deviceId);
      FlatBalanced(a);
      NestedFromRaise(dc, n, r1);
      NestedFromRaise(dm, n - dc, r2);
      NestedFromAppend(n, r1, r2);
      NestedFromAppend(n, r1 + r2, r3);
      NestedFromRaise(0, 1, a);
      NestedFromAppend(n, r1 + r2 + r3, a);
      assert DeviceChange(g, o).1 == r1 + r2 + r3 + a;
    } else {
      assert DeviceChange(g, o).1[..0] == [];
    }
  }

  lemma ComponentChangeNested(g: Grouping, o: Observation)
    ensures NestedFrom(OpenCount(g), ComponentChange(g, o).1)
    ensures Depth(ComponentChange(g, o).1) == OpenCount(ComponentChange(g, o).0) - OpenCount(g)
  {
    if g.component.key != o.componentId {
      var n := OpenCount(g);
      var dc, dm, dd := Opened(g.category.name), Opened(g.component.name), Opened(g.device.name);
      var r1 := ResetEvents(g.category.name, g.category.key, "", "");
      var r2 := ResetEvents(g.component.name, g.component.key, "ComponentStream", o.componentId);
      var a := ComponentAttributes(o);
      ResetDepth(g.category.name, g.category.key, "", "");
      ResetDepth(g.component.name, g.component.key, "ComponentStream", o.componentId);
      FlatBalanced(a);
      NestedFromRaise(dc, n, r1);
      NestedFromRaise(dm, n - dc, r2);
      NestedFromAppend(n, r1, r2);
      assert n + Depth(r1 + r2) == dd + 1;
      NestedFromRaise(0, dd + 1, a);
      NestedFromAppend(n, r1 + r2, a);
      assert ComponentChange(g, o).1 == r1 + r2 + a;
      assert OpenCount(ComponentChange(g, o).0) == dd + 1;
    } else {
      assert ComponentChange(g, o).1[..0] == [];
    }
  }

  lemma CategoryChangeNested(g: Grouping, o: Observation)
    ensures NestedFrom(OpenCount(g), CategoryChange(g, o).1)
    ensures Depth(CategoryChange(g, o).1) == OpenCount(CategoryChange(g, o).0) - OpenCount(g)
  {
    ResetDepth(g.category.name, g.category.key, o.category, "");
    NestedFromRaise(Opened(g.category.name), OpenCount(g), CategoryChange(g, o).1);
  }

  /** The regrouping changes the open depth exactly as the guards change, and never closes below it. */
  lemma RegroupNested(g: Grouping, o: Observation)
    ensures NestedFrom(OpenCount(g), Regroup(g, o).1)
    ensures Depth(Regroup(g, o).1) == OpenCount(Regroup(g, o).0) - OpenCount(g)
  {
    var (g1, e1) := DeviceChange(g, o);
    var (g2, e2) := ComponentChange(g1, o);
    var e3 := CategoryChange(g2, o).1;
    DeviceChangeNested(g, o);
    ComponentChangeNested(g1, o);
    CategoryChangeNested(g2, o);
    NestedFromAppend(OpenCount(g), e1, e2);
    NestedFromAppend(OpenCount(g), e1 + e2, e3);
  }

  /** One pass of the loop: the same, with the observation's balanced element after the regrouping. */
  lemma StepNested(g: Grouping, o: Observation, streams: Registry)
    ensures NestedFrom(OpenCount(g), Step(g, o, streams).1)
    ensures Depth(Step(g, o, streams).1) == OpenCount(Step(g, o, streams).0) - OpenCount(g)
  {
    var (g', r) := Regroup(g, o);
    var ob := ObservationEvents(o, streams);
    RegroupNested(g, o);
    ObservationBalanced(o, streams);
    NestedFromRaise(0, OpenCount(g'), ob);
    NestedFromAppend(OpenCount(g), r, ob);
  }

  /** The loop's output, one pass more. */
  lemma RunLast(obs: seq<Observation>, streams: Registry)
    requires |obs| > 0
    ensures var (g, es) := Run(obs[..|obs| - 1], streams);
      Run(obs, streams).0 == Step(g, obs[|obs| - 1], streams).0 &&
      Run(obs, streams).1 == es + Step(g, obs[|obs| - 1], streams).1
  {
  }

  lemma {:induction false} RunNested(obs: seq<Observation>, streams: Registry)
    ensures NestedFrom(0, Run(obs, streams).1)
    ensures Depth(Run(obs, streams).1) == OpenCount(Run(obs, streams).0)
    decreases |obs|
  {
    if obs == [] {
      assert Run(obs, streams).1[..0] == [];
    } else {
      var (g, es) := Run(obs[..|obs| - 1], streams);
      RunNested(obs[..|obs| - 1], streams);
      StepNested(g, obs[|obs| - 1], streams);
      RunLast(obs, streams);
      NestedFromAppend(0, es, Step(g, obs[|obs| - 1], streams).1);
    }
  }

  lemma FinishNested(g: Grouping)
    ensures NestedFrom(OpenCount(g), FinishEvents(g))
    ensures Depth(FinishEvents(g)) + OpenCount(g) == 0
  {
    var c1: seq<Event> := if g.category.name != "" then [Close] else [];
    var c2: seq<Event> := if g.component.name != "" then [Close] else [];
    var c3: seq<Event> := if g.device.name != "" then [Close] else [];
    var n := OpenCount(g);
    if c1 != [] { Single(n, Close); } else { assert c1[..0] == []; }
    if c2 != [] { Single(n - |c1|, Close); } else { assert c2[..0] == []; }
    if c3 != [] { Single(n - |c1| - |c2|, Close); } else { assert c3[..0] == []; }
    NestedFromAppend(n, c1, c2);
    NestedFromAppend(n, c1 + c2, c3);
  }

  /** The Streams element is balanced: every DeviceStream, ComponentStream and category element is closed. */
  lemma StreamsBalanced(obs: seq<Observation>, streams: Registry)
    ensures Balanced(StreamsEvents(obs, streams))
  {
    var inner := if |obs| > 0 then Run(obs, streams).1 + FinishEvents(Run(obs, streams).0) else [];
    if |obs| > 0 {
      RunNested(obs, streams);
      FinishNested(Run(obs, streams).0);
      NestedFromAppend(0, Run(obs, streams).1, FinishEvents(Run(obs, streams).0));
    } else {
      FlatBalanced([]);
    }
    BalancedWrap("Streams", inner);
  }

  // ---------------------------------------------------------------------
  // Regrouping and order.

  /** An empty list writes an empty Streams element and no DeviceStream. */
  lemma EmptySample(streams: Registry)
    ensures StreamsEvents([], streams) == [Open("Streams"), Close]
    ensures Open("DeviceStream") !in StreamsEvents([], streams)
  {
  }

  /**
   * A new device first closes every grouping element that is open (category,
   * component stream, device stream) and then opens its DeviceStream; after
   * the regrouping the guards hold the observation's device, component and
   * category.
   */
  lemma DeviceChangeClosesAll(g: Grouping, o: Observation)
    requires g.device.key != o.deviceId
    ensures var es := Regroup(g, o).1;
      |es| > OpenCount(g) && (forall i :: 0 <= i < OpenCount(g) ==> es[i] == Close) &&
      es[OpenCount(g)] == Open("DeviceStream")
    ensures var g' := Regroup(g, o).0;
      g'.device == Guard("DeviceStream", o.deviceId) && g'.component.key == o.componentId &&
      g'.category == Guard(o.category, "")
  {
    var device := DeviceChange(g, o);
    var component := ComponentChange(device.0, o);
    var category := CategoryChange(component.0, o);
    DeviceChangeEvents(g, o);
    assert Regroup(g, o).1 == device.1 + (component.1 + category.1);
  }

  lemma DeviceChangeEvents(g: Grouping, o: Observation)
    requires g.device.key != o.deviceId
    ensures var es := DeviceChange(g, o).1;
      |es| > OpenCount(g) && (forall i :: 0 <= i < OpenCount(g) ==> es[i] == Close) &&
      es[OpenCount(g)] == Open("DeviceStream")
  {
    var r1 := ResetEvents(g.category.name, g.category.key, "", "");
    var r2 := ResetEvents(g.component.name, g.component.key, "", "");
    var c3: seq<Event> := if g.device.name != "" then [Close] else [];
    var closes := r1 + r2 + c3;
    assert AllClose(closes) && |closes| == OpenCount(g) by {
      ClosesOnly(g.category.name, g.category.key);
      ClosesOnly(g.component.name, g.component.key);
      AllCloseAppend(r1, r2);
      AllCloseAppend(r1 + r2, c3);
    }
    assert DeviceChange(g, o).1 == closes + ([Open("DeviceStream")] + DeviceAttributes(o)) by {
      assert ResetEvents(g.device.name, g.device.key, "DeviceStream", o.deviceId) == c3 + [Open("DeviceStream")];
    }
    ClosesThen(closes, [Open("DeviceStream")] + DeviceAttributes(o), DeviceChange(g, o).1);
  }

  predicate AllClose(es: seq<Event>)
  {
    forall i :: 0 <= i < |es| ==> es[i] == Close
  }

  lemma AllCloseAppend(a: seq<Event>, b: seq<Event>)
    requires AllClose(a) && AllClose(b)
    ensures AllClose(a + b)
  {
  }

  /** Resetting a guard to nothing only closes its element, if it has one. */
  lemma ClosesOnly(name: string, key: string)
    ensures var r := ResetEvents(name, key, "", "");
      AllClose(r) && |r| == Opened(name)
  {
  }

  /**
   * A new component on the same device first closes the category and the
   * component stream, whichever are open, then opens its ComponentStream.
   */
  lemma ComponentChangeClosesCategory(g: Grouping, o: Observation)
    requires g.device.key == o.deviceId && g.component.key != o.componentId
    ensures var k := Opened(g.category.name) + Opened(g.component.name);
      var es := Regroup(g, o).1;
      |es| > k && (forall i :: 0 <= i < k ==> es[i] == Close) && es[k] == Open("ComponentStream")
    ensures var g' := Regroup(g, o).0;
      g'.device == g.device && g'.component == Guard("ComponentStream", o.componentId) &&
      g'.category == Guard(o.category, "")
  {
    var closes: seq<Event> :=
      (if g.category.name != "" then [Close] else []) + (if g.component.name != "" then [Close] else []);
    var c := ComponentChange(g, o);
    var k := CategoryChange(c.0, o);
    RegroupSameDevice(g, o);
    ComponentChangeEvents(g, o);
    ClosesThen(closes, [Open("ComponentStream")] + ComponentAttributes(o) + k.1, Regroup(g, o).1);
  }

  /** On the same device, regrouping is the component change followed by the category change. */
  lemma RegroupSameDevice(g: Grouping, o: Observation)
    requires g.device.key == o.deviceId
    ensures var c := ComponentChange(g, o);
      Regroup(g, o) == (CategoryChange(c.0, o).0, c.1 + CategoryChange(c.0, o).1)
  {
    var d := DeviceChange(g, o);
    assert d == (g, []);
    assert d.1 + ComponentChange(g, o).1 == ComponentChange(g, o).1;
  }

  /** A new component closes the category and the old component, then opens a ComponentStream. */
  lemma ComponentChangeEvents(g: Grouping, o: Observation)
    requires g.component.key != o.componentId
    ensures ComponentChange(g, o).1 ==
      (if g.category.name != "" then [Close] else []) + (if g.component.name != "" then [Close] else []) +
      [Open("ComponentStream")] + ComponentAttributes(o)
  {
    assert ResetEvents(g.component.name, g.component.key, "ComponentStream", o.componentId) ==
      (if g.component.name != "" then [Close] else []) + [Open("ComponentStream")];
  }

  /** Closes followed by anything: the closes come first, then what follows. */
  lemma ClosesThen(closes: seq<Event>, rest: seq<Event>, es: seq<Event>)
    requires es == closes + rest && rest != [] && AllClose(closes)
    ensures |es| > |closes| && (forall i :: 0 <= i < |closes| ==> es[i] == Close) && es[|closes|] == rest[0]
  {
  }

  /** An observation of the device, component and category already open is written without regrouping. */
  lemma SameGroupNoRegrouping(g: Grouping, o: Observation)
    requires g.device.key == o.deviceId && g.component.key == o.componentId && g.category == Guard(o.category, "")
    ensures Regroup(g, o) == (g, [])
  {
    assert DeviceChange(g, o) == (g, []);
    assert ComponentChange(g, o) == (g, []);
    assert CategoryChange(g, o) == (g, []);
    assert Regroup(g, o).0 == g;
    assert Regroup(g, o).1 == [];
  }

  /** The loop's output up to any observation is a prefix of its whole output. */
  lemma {:induction false} RunPrefix(obs: seq<Observation>, streams: Registry, i: nat)
    requires i <= |obs|
    ensures Run(obs[..i], streams).1 <= Run(obs, streams).1
    decreases |obs|
  {
    if i < |obs| {
      var init := obs[..|obs| - 1];
      RunPrefix(init, streams, i);
      RunLast(obs, streams);
      assert init[..i] == obs[..i];
    } else {
      assert obs[..i] == obs;
    }
  }

  /** One pass more, stated on the prefixes of the list. */
  lemma RunPass(obs: seq<Observation>, streams: Registry, i: nat)
    requires i < |obs|
    ensures Run(obs[..i + 1], streams).1 ==
      Run(obs[..i], streams).1 + Regroup(Run(obs[..i], streams).0, obs[i]).1 + ObservationEvents(obs[i], streams)
  {
    var q := obs[..i + 1];
    assert q[..|q| - 1] == obs[..i];
    assert q[|q| - 1] == obs[i];
    RunLast(q, streams);
  }

  /** A run that ends a prefix of `out` lies in `out` where the prefix ends. */
  lemma SuffixWithin(a: seq<Event>, b: seq<Event>, e: seq<Event>, p: seq<Event>, out: seq<Event>)
    requires p == a + b + e && p <= out
    ensures |a| + |e| <= |p| <= |out| && out[|p| - |e|..|p|] == e
  {
    assert out[..|p|] == p;
    assert p[|p| - |e|..] == e;
  }

  /** The element of the i-th observation ends the output of the first i+1 passes, after that of the first i. */
  lemma ObservationEnds(obs: seq<Observation>, streams: Registry, i: nat)
    requires i < |obs|
    ensures var out := Run(obs, streams).1;
      var e := ObservationEvents(obs[i], streams);
      var p := Run(obs[..i + 1], streams).1;
      |Run(obs[..i], streams).1| + |e| <= |p| <= |out| && out[|p| - |e|..|p|] == e
  {
    RunPass(obs, streams, i);
    RunPrefix(obs, streams, i + 1);
    SuffixWithin(Run(obs[..i], streams).1, Regroup(Run(obs[..i], streams).0, obs[i]).1,
      ObservationEvents(obs[i], streams), Run(obs[..i + 1], streams).1, Run(obs, streams).1);
  }

  /**
   * Observations are written in exactly the order of the list: the element of
   * an earlier observation lies wholly before the element of a later one.
   */
  lemma ObservationsInOrder(obs: seq<Observation>, streams: Registry, i: nat, j: nat)
    requires i < j < |obs|
    ensures var out := Run(obs, streams).1;
      var ei := ObservationEvents(obs[i], streams);
      var endI := |Run(obs[..i + 1], streams).1|;
      var ej := ObservationEvents(obs[j], streams);
      var endJ := |Run(obs[..j + 1], streams).1|;
      |ei| <= endI <= endJ - |ej| && endJ <= |out| &&
      out[endI - |ei|..endI] == ei && out[endJ - |ej|..endJ] == ej
  {
    var pi := Run(obs[..i + 1], streams).1;
    var mj := Run(obs[..j], streams).1;
    assert |pi| <= |mj| by {
      RunPrefix(obs[..j], streams, i + 1);
      assert obs[..j][..i + 1] == obs[..i + 1];
    }
    ObservationEnds(obs, streams, i);
    ObservationEnds(obs, streams, j);
  }

  // ---------------------------------------------------------------------
  // Each observation is written inside its own device, component and
  // category elements.

  /** The name a guard holds open, as a stack of at most one name. */
  function NameIf(name: string): seq<string>
  {
    if name != "" then [name] else []
  }

  /** The names of the elements the guards hold open, outermost first. */
  function GuardNames(g: Grouping): seq<string>
  {
    NameIf(g.device.name) + NameIf(g.component.name) + NameIf(g.category.name)
  }

  /**
   * The guards as printSample leaves them: the device guard holds a
   * DeviceStream or nothing, the component guard a ComponentStream or
   * nothing, and the category guard is keyed by the empty string.
   */
  predicate WellFormed(g: Grouping)
  {
    (g.device.name == "DeviceStream" || g.device == NoGuard) &&
    (g.component.name == "ComponentStream" || g.component == NoGuard) &&
    g.category.key == ""
  }

  /** A reset replaces the guard's name on top of the stack by the new one. */
  lemma ResetStack(stack: seq<string>, oldName: string, oldKey: string, name: string, key: string)
    ensures OpenAfter(stack + NameIf(oldName), ResetEvents(oldName, oldKey, name, key)) == stack + NameIf(name)
  {
    var before := stack + NameIf(oldName);
    if !(name == oldName && key == oldKey) {
      var c: seq<Event> := if oldName != "" then [Close] else [];
      var p: seq<Event> := if name != "" then [Open(name)] else [];
      assert ResetEvents(oldName, oldKey, name, key) == c + p;
      assert OpenAfter(before, c) == stack by {
        if oldName != "" {
          assert c[..0] == [];
          assert before[..|before| - 1] == stack;
        }
      }
      assert OpenAfter(stack, p) == stack + NameIf(name) by {
        if name != "" {
          assert p[..0] == [];
        }
      }
      OpenAfterAppend(before, c, p);
    }
  }

  /** Attributes leave the open names as they are. */
  lemma FlatKeepsStack(stack: seq<string>, es: seq<Event>)
    requires forall i :: 0 <= i < |es| ==> !es[i].Open? && !es[i].Close?
    ensures OpenAfter(stack, es) == stack
  {
    FlatBalanced(es);
    BalancedKeepsStack(stack, es);
  }

  lemma DeviceChangeStack(g: Grouping, o: Observation)
    ensures OpenAfter(GuardNames(g), DeviceChange(g, o).1) == GuardNames(DeviceChange(g, o).0)
  {
    if g.device.key != o.deviceId {
      var d, c := NameIf(g.device.name), NameIf(g.component.name);
      var r1 := ResetEvents(g.category.name, g.category.key, "", "");
      var r2 := ResetEvents(g.component.name, g.component.key, "", "");
      var r3 := ResetEvents(g.device.name, g.device.key, "DeviceStream", o.deviceId);
      var a := DeviceAttributes(o);
      assert DeviceChange(g, o).1 == r1 + r2 + r3 + a;
      assert GuardNames(DeviceChange(g, o).0) == ["DeviceStream"];
      assert OpenAfter(GuardNames(g), r1) == d + c by {
        ResetStack(d + c, g.category.name, g.category.key, "", "");
        assert d + c + NameIf("") == d + c;
      }
      assert OpenAfter(d + c, r2) == d by {
        ResetStack(d, g.component.name, g.component.key, "", "");
        assert d + NameIf("") == d;
      }
      assert OpenAfter(d, r3) == ["DeviceStream"] by {
        ResetStack([], g.device.name, g.device.key, "DeviceStream", o.deviceId);
        assert [] + d == d;
      }
      FlatKeepsStack(["DeviceStream"], a);
      OpenAfterAppend(GuardNames(g), r1, r2);
      OpenAfterAppend(GuardNames(g), r1 + r2, r3);
      OpenAfterAppend(GuardNames(g), r1 + r2 + r3, a);
    }
  }

  lemma ComponentChangeStack(g: Grouping, o: Observation)
    ensures OpenAfter(GuardNames(g), ComponentChange(g, o).1) == GuardNames(ComponentChange(g, o).0)
  {
    if g.component.key != o.componentId {
      var d, c := NameIf(g.device.name), NameIf(g.component.name);
      var r1 := ResetEvents(g.category.name, g.category.key, "", "");
      var r2 := ResetEvents(g.component.name, g.component.key, "ComponentStream", o.componentId);
      var a := ComponentAttributes(o);
      assert ComponentChange(g, o).1 == r1 + r2 + a;
      ResetStack(d + c, g.category.name, g.category.key, "", "");
      ResetStack(d, g.component.name, g.component.key, "ComponentStream", o.componentId);
      FlatKeepsStack(d + ["ComponentStream"], a);
      assert d + c + [] == d + c;
      assert GuardNames(ComponentChange(g, o).0) == d + ["ComponentStream"] + [];
      OpenAfterAppend(GuardNames(g), r1, r2);
      OpenAfterAppend(GuardNames(g), r1 + r2, a);
    }
  }

  lemma CategoryChangeStack(g: Grouping, o: Observation)
    ensures OpenAfter(GuardNames(g), CategoryChange(g, o).1) == GuardNames(CategoryChange(g, o).0)
  {
    ResetStack(NameIf(g.device.name) + NameIf(g.component.name), g.category.name, g.category.key, o.category, "");
  }

  /** Regrouping leaves open exactly the names of the guards it ends with. */
  lemma RegroupStack(g: Grouping, o: Observation)
    ensures OpenAfter(GuardNames(g), Regroup(g, o).1) == GuardNames(Regroup(g, o).0)
  {
    var device := DeviceChange(g, o);
    var component := ComponentChange(device.0, o);
    var category := CategoryChange(component.0, o);
    DeviceChangeStack(g, o);
    ComponentChangeStack(device.0, o);
    CategoryChangeStack(component.0, o);
    OpenAfterAppend(GuardNames(g), device.1, component.1);
    OpenAfterAppend(GuardNames(g), device.1 + component.1, category.1);
  }

  /**
   * After regrouping for an observation the guards are keyed by its device,
   * component and category, and a guard with a non-empty key holds its
   * stream open.
   */
  lemma RegroupKeys(g: Grouping, o: Observation)
    requires WellFormed(g)
    ensures var r := Regroup(g, o).0;
      WellFormed(r) &&
      r.device.key == o.deviceId && r.component.key == o.componentId && r.category == Guard(o.category, "") &&
      (o.deviceId != "" ==> r.device.name == "DeviceStream") &&
      (o.componentId != "" ==> r.component.name == "ComponentStream")
  {
  }

  /** The loop keeps the guards well formed, from idle guards on. */
  lemma {:induction false} RunWellFormed(obs: seq<Observation>, streams: Registry)
    ensures WellFormed(Run(obs, streams).0)
    decreases |obs|
  {
    if obs != [] {
      RunWellFormed(obs[..|obs| - 1], streams);
      RegroupKeys(Run(obs[..|obs| - 1], streams).0, obs[|obs| - 1]);
    }
  }

  /** One pass of the loop leaves open the names of the guards it ends with: the observation's element is balanced. */
  lemma StepStack(g: Grouping, o: Observation, streams: Registry)
    ensures OpenAfter(GuardNames(g), Step(g, o, streams).1) == GuardNames(Step(g, o, streams).0)
  {
    var (g', r) := Regroup(g, o);
    RegroupStack(g, o);
    ObservationBalanced(o, streams);
    BalancedKeepsStack(GuardNames(g'), ObservationEvents(o, streams));
    OpenAfterAppend(GuardNames(g), r, ObservationEvents(o, streams));
  }

  /** The names the loop leaves open are those of the guards it ends with. */
  lemma {:induction false} RunStack(obs: seq<Observation>, streams: Registry)
    ensures OpenAfter([], Run(obs, streams).1) == GuardNames(Run(obs, streams).0)
    decreases |obs|
  {
    if obs != [] {
      var (g, es) := Run(obs[..|obs| - 1], streams);
      RunStack(obs[..|obs| - 1], streams);
      StepStack(g, obs[|obs| - 1], streams);
      RunLast(obs, streams);
      OpenAfterAppend([], es, Step(g, obs[|obs| - 1], streams).1);
    }
  }

  /**
   * Every observation is written inside the elements of its own device,
   * component and category: just before its element the guards are keyed
   * by its device id, component id and category, and the elements left open
   * are those guards' elements, outermost first, inside Streams. With a
   * non-empty device id, component id and category they are a DeviceStream,
   * a ComponentStream and the category element.
   */
  lemma ObservationGrouped(obs: seq<Observation>, streams: Registry, i: nat)
    requires i < |obs|
    ensures var g := Run(obs[..i], streams).0;
      var r := Regroup(g, obs[i]).0;
      var before := Run(obs[..i], streams).1 + Regroup(g, obs[i]).1;
      Run(obs[..i + 1], streams).1 == before + ObservationEvents(obs[i], streams) &&
      r.device.key == obs[i].deviceId && r.component.key == obs[i].componentId &&
      r.category == Guard(obs[i].category, "") &&
      (obs[i].deviceId != "" ==> r.device == Guard("DeviceStream", obs[i].deviceId)) &&
      (obs[i].componentId != "" ==> r.component == Guard("ComponentStream", obs[i].componentId)) &&
      OpenAfter([], before) == GuardNames(r) &&
      OpenAfter([], [Open("Streams")] + before) == ["Streams"] + GuardNames(r)
    ensures var before := Run(obs[..i], streams).1 + Regroup(Run(obs[..i], streams).0, obs[i]).1;
      obs[i].deviceId != "" && obs[i].componentId != "" && obs[i].category != "" ==>
      OpenAfter([], before) == ["DeviceStream", "ComponentStream", obs[i].category]
  {
    var (g, es) := Run(obs[..i], streams);
    var (g', r) := Regroup(g, obs[i]);
    RunPass(obs, streams, i);
    RunWellFormed(obs[..i], streams);
    RegroupKeys(g, obs[i]);
    assert OpenAfter(GuardNames(g), r) == GuardNames(g') by {
      RegroupStack(g, obs[i]);
    }
    assert NestedFrom(0, es + r) by {
      RunNested(obs[..i], streams);
      RegroupNested(g, obs[i]);
      NestedFromAppend(0, es, r);
    }
    RunStack(obs[..i], streams);
    StackThrough(es, r, GuardNames(g), GuardNames(g'));
    FullGuardNames(g', obs[i]);
  }

  /** The names of guards that hold a DeviceStream, a ComponentStream and a category element. */
  lemma FullGuardNames(g: Grouping, o: Observation)
    requires o.deviceId != "" ==> g.device == Guard("DeviceStream", o.deviceId)
    requires o.componentId != "" ==> g.component == Guard("ComponentStream", o.componentId)
    requires g.category == Guard(o.category, "")
    ensures o.deviceId != "" && o.componentId != "" && o.category != "" ==>
      GuardNames(g) == ["DeviceStream", "ComponentStream", o.category]
  {
  }

  /** The names open after two runs, and after the same runs inside Streams. */
  lemma StackThrough(es: seq<Event>, r: seq<Event>, names: seq<string>, names': seq<string>)
    requires OpenAfter([], es) == names && OpenAfter(names, r) == names' && NestedFrom(0, es + r)
    ensures OpenAfter([], es + r) == names'
    ensures OpenAfter([], [Open("Streams")] + (es + r)) == ["Streams"] + names'
  {
    OpenAfterAppend([], es, r);
    NestedKeepsStack(["Streams"], es + r);
    assert [Open("Streams")][..0] == [];
    OpenAfterAppend([], [Open("Streams")], es + r);
  }

  /**
   * An observation of the device and component already open, under a
   * different category, only closes the old category element, if any, and
   * opens its own, if its category is non-empty; the same category writes
   * nothing.
   */
  lemma CategoryOnlyChange(g: Grouping, o: Observation)
    requires WellFormed(g)
    requires g.device.key == o.deviceId && g.component.key == o.componentId
    ensures Regroup(g, o).0 == Grouping(g.device, g.component, Guard(o.category, ""))
    ensures g.category.name == o.category ==> Regroup(g, o).1 == []
    ensures g.category.name != o.category ==>
      Regroup(g, o).1 ==
        (if g.category.name != "" then [Close] else []) + (if o.category != "" then [Open(o.category)] else [])
  {
    RegroupSameDevice(g, o);
    assert ComponentChange(g, o) == (g, []);
    assert [] + CategoryChange(g, o).1 == CategoryChange(g, o).1;
  }

  /** Between two observations the guards are keyed by the earlier one. */
  lemma GuardsAfter(obs: seq<Observation>, streams: Registry, i: nat)
    requires 0 < i <= |obs|
    ensures var g := Run(obs[..i], streams).0;
      g.device.key == obs[i - 1].deviceId && g.component.key == obs[i - 1].componentId &&
      g.category == Guard(obs[i - 1].category, "")
  {
    var q := obs[..i];
    assert q[..|q| - 1] == obs[..i - 1];
    RunLast(q, streams);
    RunWellFormed(obs[..i - 1], streams);
    RegroupKeys(Run(obs[..i - 1], streams).0, obs[i - 1]);
  }

  /** printSample resets the device guard before the i-th observation. */
  predicate DeviceReset(obs: seq<Observation>, streams: Registry, i: nat)
    requires i < |obs|
  {
    Run(obs[..i], streams).0.device.key != obs[i].deviceId
  }

  /** printSample resets the component guard before the i-th observation. */
  predicate ComponentReset(obs: seq<Observation>, streams: Registry, i: nat)
    requires i < |obs|
  {
    DeviceChange(Run(obs[..i], streams).0, obs[i]).0.component.key != obs[i].componentId
  }

  /**
   * The device guard is reset, and a DeviceStream opened, exactly when the
   * device id differs from the previous observation's (the first
   * observation's differs from the idle guard's empty key).
   */
  lemma DeviceResetWhen(obs: seq<Observation>, streams: Registry, i: nat)
    requires i < |obs|
    ensures DeviceReset(obs, streams, i) <==>
      if i == 0 then obs[0].deviceId != "" else obs[i - 1].deviceId != obs[i].deviceId
    ensures DeviceReset(obs, streams, i) <==>
      Open("DeviceStream") in DeviceChange(Run(obs[..i], streams).0, obs[i]).1
  {
    var g := Run(obs[..i], streams).0;
    if i > 0 {
      GuardsAfter(obs, streams, i);
    } else {
      assert obs[..0] == [];
    }
    if DeviceReset(obs, streams, i) {
      DeviceChangeEvents(g, obs[i]);
    }
  }

  /**
   * The component guard is reset, and a ComponentStream opened, exactly when
   * the device or the component id differs from the previous observation's;
   * after a new device (or at the first observation), exactly when the
   * component id is non-empty.
   */
  lemma ComponentResetWhen(obs: seq<Observation>, streams: Registry, i: nat)
    requires i < |obs|
    ensures ComponentReset(obs, streams, i) <==>
      if i == 0 || obs[i - 1].deviceId != obs[i].deviceId then obs[i].componentId != ""
      else obs[i - 1].componentId != obs[i].componentId
    ensures var d := DeviceChange(Run(obs[..i], streams).0, obs[i]).0;
      ComponentReset(obs, streams, i) <==> Open("ComponentStream") in ComponentChange(d, obs[i]).1
  {
    var g := Run(obs[..i], streams).0;
    DeviceResetWhen(obs, streams, i);
    if i > 0 {
      GuardsAfter(obs, streams, i);
    } else {
      assert obs[..0] == [];
    }
    var d := DeviceChange(g, obs[i]).0;
    if ComponentReset(obs, streams, i) {
      ComponentChangeEvents(d, obs[i]);
    }
  }

  /** The observations of each device are next to each other in the list. */
  predicate DevicesTogether(obs: seq<Observation>)
  {
    forall i, j, k :: 0 <= i < j < k < |obs| && obs[i].deviceId == obs[k].deviceId ==>
      obs[j].deviceId == obs[i].deviceId
  }

  /** The observations of each component of each device are next to each other in the list. */
  predicate ComponentsTogether(obs: seq<Observation>)
  {
    forall i, j, k ::
      (0 <= i < j < k < |obs| && obs[i].deviceId == obs[k].deviceId && obs[i].componentId == obs[k].componentId) ==>
      obs[j].deviceId == obs[i].deviceId && obs[j].componentId == obs[i].componentId
  }

  /** The list ordered by device id, then component id, then category, as strings. */
  predicate KeyOrdered(obs: seq<Observation>)
  {
    forall i, j :: 0 <= i < j < |obs| ==> GroupLe(obs[i], obs[j])
  }

  predicate GroupLe(a: Observation, b: Observation)
  {
    Less(a.deviceId, b.deviceId) ||
    (a.deviceId == b.deviceId &&
     (Less(a.componentId, b.componentId) ||
      (a.componentId == b.componentId && !Less(b.category, a.category))))
  }

  /** Ordering by the composite key keeps each device, and each component of a device, together. */
  lemma KeyOrderedTogether(obs: seq<Observation>)
    requires KeyOrdered(obs)
    ensures DevicesTogether(obs) && ComponentsTogether(obs)
  {
    forall i, j, k | 0 <= i < j < k < |obs| && obs[i].deviceId == obs[k].deviceId
      ensures obs[j].deviceId == obs[i].deviceId
    {
      Between(obs[i].deviceId, obs[j].deviceId, obs[k].deviceId);
    }
    forall i, j, k | 0 <= i < j < k < |obs| &&
      obs[i].deviceId == obs[k].deviceId && obs[i].componentId == obs[k].componentId
      ensures obs[j].deviceId == obs[i].deviceId && obs[j].componentId == obs[i].componentId
    {
      Between(obs[i].deviceId, obs[j].deviceId, obs[k].deviceId);
      LessIrreflexive(obs[i].deviceId);
      Between(obs[i].componentId, obs[j].componentId, obs[k].componentId);
    }
  }

  /** A string between two equal strings in the order equals them. */
  lemma Between(a: string, b: string, c: string)
    requires Less(a, b) || a == b
    requires Less(b, c) || b == c
    requires a == c
    ensures b == a
  {
    if Less(a, b) {
      LessAsymmetric(a, b);
    }
  }

  /** A device's first observation: the one not preceded by an observation of the same device. */
  lemma FirstOfDevice(obs: seq<Observation>, k: nat) returns (m: nat)
    requires k < |obs|
    ensures m <= k && obs[m].deviceId == obs[k].deviceId
    ensures m == 0 || obs[m - 1].deviceId != obs[k].deviceId
    decreases k
  {
    if k == 0 || obs[k - 1].deviceId != obs[k].deviceId {
      m := k;
    } else {
      m := FirstOfDevice(obs, k - 1);
    }
  }

  /** With each device's observations together, a device guard reset comes before any other observation of that device. */
  lemma DeviceResetFirst(obs: seq<Observation>, streams: Registry, j: nat)
    requires DevicesTogether(obs) && j < |obs| && DeviceReset(obs, streams, j)
    ensures forall i :: 0 <= i < j ==> obs[i].deviceId != obs[j].deviceId
  {
    DeviceResetWhen(obs, streams, j);
  }

  /**
   * When the list keeps each device's observations together, as a sort by
   * device does, the DeviceStream of a device is opened exactly once: before
   * its first observation, when its id is non-empty, and never again.
   */
  lemma OneDeviceStream(obs: seq<Observation>, streams: Registry, deviceId: string)
    requires DevicesTogether(obs)
    ensures forall i, j ::
      (0 <= i < |obs| && 0 <= j < |obs| && obs[i].deviceId == deviceId && obs[j].deviceId == deviceId &&
       DeviceReset(obs, streams, i) && DeviceReset(obs, streams, j)) ==> i == j
    ensures deviceId != "" && (exists k :: 0 <= k < |obs| && obs[k].deviceId == deviceId) ==>
      exists i :: 0 <= i < |obs| && obs[i].deviceId == deviceId && DeviceReset(obs, streams, i)
  {
    forall i, j | 0 <= i < |obs| && 0 <= j < |obs| &&
      obs[i].deviceId == deviceId && obs[j].deviceId == deviceId &&
      DeviceReset(obs, streams, i) && DeviceReset(obs, streams, j)
      ensures i == j
    {
      DeviceResetFirst(obs, streams, i);
      DeviceResetFirst(obs, streams, j);
    }
    if deviceId != "" && exists k :: 0 <= k < |obs| && obs[k].deviceId == deviceId {
      var k :| 0 <= k < |obs| && obs[k].deviceId == deviceId;
      var m := FirstOfDevice(obs, k);
      DeviceResetWhen(obs, streams, m);
    }
  }

  /** A component's first observation: the one not preceded by an observation of the same device and component. */
  lemma FirstOfComponent(obs: seq<Observation>, k: nat) returns (m: nat)
    requires k < |obs|
    ensures m <= k && obs[m].deviceId == obs[k].deviceId && obs[m].componentId == obs[k].componentId
    ensures m == 0 || obs[m - 1].deviceId != obs[k].deviceId || obs[m - 1].componentId != obs[k].componentId
    decreases k
  {
    if k == 0 || obs[k - 1].deviceId != obs[k].deviceId || obs[k - 1].componentId != obs[k].componentId {
      m := k;
    } else {
      m := FirstOfComponent(obs, k - 1);
    }
  }

  /** With each component's observations together, a component guard reset comes before any other observation of that component. */
  lemma ComponentResetFirst(obs: seq<Observation>, streams: Registry, j: nat)
    requires ComponentsTogether(obs) && j < |obs| && ComponentReset(obs, streams, j) && obs[j].componentId != ""
    ensures forall i :: 0 <= i < j ==>
      obs[i].deviceId != obs[j].deviceId || obs[i].componentId != obs[j].componentId
  {
    ComponentResetWhen(obs, streams, j);
  }

  /**
   * When the list keeps the observations of each component of a device
   * together, the ComponentStream of a component with a non-empty id is
   * opened exactly once: before its first observation, and never again.
   */
  lemma OneComponentStream(obs: seq<Observation>, streams: Registry, deviceId: string, componentId: string)
    requires ComponentsTogether(obs)
    ensures componentId != "" ==>
      forall i, j ::
        (0 <= i < |obs| && 0 <= j < |obs| && obs[i].deviceId == deviceId && obs[j].deviceId == deviceId &&
         obs[i].componentId == componentId && obs[j].componentId == componentId &&
         ComponentReset(obs, streams, i) && ComponentReset(obs, streams, j)) ==> i == j
    ensures (componentId != "" &&
             exists k :: 0 <= k < |obs| && obs[k].deviceId == deviceId && obs[k].componentId == componentId) ==>
      exists i :: 0 <= i < |obs| && obs[i].deviceId == deviceId && obs[i].componentId == componentId &&
        ComponentReset(obs, streams, i)
  {
    if componentId != "" {
      forall i, j | 0 <= i < |obs| && 0 <= j < |obs| &&
        obs[i].deviceId == deviceId && obs[j].deviceId == deviceId &&
        obs[i].componentId == componentId && obs[j].componentId == componentId &&
        ComponentReset(obs, streams, i) && ComponentReset(obs, streams, j)
        ensures i == j
      {
        ComponentResetFirst(obs, streams, i);
        ComponentResetFirst(obs, streams, j);
      }
      if exists k :: 0 <= k < |obs| && obs[k].deviceId == deviceId && obs[k].componentId == componentId {
        var k :| 0 <= k < |obs| && obs[k].deviceId == deviceId && obs[k].componentId == componentId;
        var m := FirstOfComponent(obs, k);
        ComponentResetWhen(obs, streams, m);
      }
    }
  }

  // ---------------------------------------------------------------------
  // The loop body as printSample runs it, on the three guard objects.

  function Guards(device: AutoElement, component: AutoElement, category: AutoElement): Grouping
    reads device, component, category
  {
    Grouping(Guard(device.name, device.key), Guard(component.name, component.key), Guard(category.name, category.key))
  }

  method ChangeDevice(w: Writer, device: AutoElement, component: AutoElement, category: AutoElement, o: Observation)
    requires device.writer == w && component.writer == w && category.writer == w
    requires device != component && device != category && component != category
    modifies w, device, component, category
    ensures Guards(device, component, category) == DeviceChange(old(Guards(device, component, category)), o).0
    ensures w.state == EmitAll(old(w.state), DeviceChange(old(Guards(device, component, category)), o).1)
  {
    ghost var g := Guards(device, component, category);
    ghost var s0 := w.state;
    if device.key != o.deviceId {
      var closedCategory := category.Reset("", "");
      var closedComponent := component.Reset("", "");
      ghost var r1 := ResetEvents(g.category.name, g.category.key, "", "");
      ghost var r2 := ResetEvents(g.component.name, g.component.key, "", "");
      EmitAllAppend(s0, r1, r2);
      var reopened := device.Reset("DeviceStream", o.deviceId);
      ghost var r3 := ResetEvents(g.device.name, g.device.key, "DeviceStream", o.deviceId);
      EmitAllAppend(s0, r1 + r2, r3);
      AddDeviceAttributes(w, o);
      EmitAllAppend(s0, r1 + r2 + r3, DeviceAttributes(o));
    }
  }

  method AddDeviceAttributes(w: Writer, o: Observation)
    modifies w
    ensures w.state == EmitAll(old(w.state), DeviceAttributes(o))
  {
    AddAttribute(w, "name", o.deviceName);
    AddAttribute(w, "uuid", o.deviceUuid);
    EmitAllAppend(old(w.state), AttributeEvents("name", o.deviceName), AttributeEvents("uuid", o.deviceUuid));
  }

  method AddComponentAttributes(w: Writer, o: Observation)
    modifies w
    ensures w.state == EmitAll(old(w.state), ComponentAttributes(o))
  {
    ghost var a1 := AttributeEvents("component", o.componentClass);
    ghost var a2 := AttributeEvents("name", o.componentName);
    AddAttribute(w, "component", o.componentClass);
    AddAttribute(w, "name", o.componentName);
    EmitAllAppend(old(w.state), a1, a2);
    AddAttribute(w, "componentId", o.componentId);
    EmitAllAppend(old(w.state), a1 + a2, AttributeEvents("componentId", o.componentId));
  }

  method ChangeComponent(w: Writer, device: AutoElement, component: AutoElement, category: AutoElement, o: Observation)
    requires device.writer == w && component.writer == w && category.writer == w
    requires device != component && device != category && component != category
    modifies w, device, component, category
    ensures Guards(device, component, category) == ComponentChange(old(Guards(device, component, category)), o).0
    ensures w.state == EmitAll(old(w.state), ComponentChange(old(Guards(device, component, category)), o).1)
  {
    ghost var g := Guards(device, component, category);
    ghost var s0 := w.state;
    if component.key != o.componentId {
      var closedCategory := category.Reset("", "");
      var reopened := component.Reset("ComponentStream", o.componentId);
      ghost var r1 := ResetEvents(g.category.name, g.category.key, "", "");
      ghost var r2 := ResetEvents(g.component.name, g.component.key, "ComponentStream", o.componentId);
      EmitAllAppend(s0, r1, r2);
      AddComponentAttributes(w, o);
      EmitAllAppend(s0, r1 + r2, ComponentAttributes(o));
    }
  }

  /** One pass of printSample's loop. */
  method SampleStep(w: Writer, device: AutoElement, component: AutoElement, category: AutoElement,
                    o: Observation, streams: Registry)
    requires device.writer == w && component.writer == w && category.writer == w
    requires device != component && device != category && component != category
    modifies w, device, component, category
    ensures Guards(device, component, category) == Step(old(Guards(device, component, category)), o, streams).0
    ensures w.state == EmitAll(old(w.state), Step(old(Guards(device, component, category)), o, streams).1)
  {
    ghost var g := Guards(device, component, category);
    ghost var s0 := w.state;
    ChangeDevice(w, device, component, category, o);
    ghost var (g1, e1) := DeviceChange(g, o);
    ChangeComponent(w, device, component, category, o);
    ghost var (g2, e2) := ComponentChange(g1, o);
    EmitAllAppend(s0, e1, e2);
    var changed := category.Reset(o.category, "");
    ghost var e3 := CategoryChange(g2, o).1;
    EmitAllAppend(s0, e1 + e2, e3);
    AddObservation(w, o, streams);
    EmitAllAppend(s0, e1 + e2 + e3, ObservationEvents(o, streams));
  }

  /** The loop of printSample over the (already sorted) observations, from three idle guards. */
  method SampleLoop(w: Writer, device: AutoElement, component: AutoElement, category: AutoElement,
                    obs: seq<Observation>, streams: Registry)
    requires device.writer == w && component.writer == w && category.writer == w
    requires device != component && device != category && component != category
    requires Guards(device, component, category) == Idle
    modifies w, device, component, category
    ensures Guards(device, component, category) == Run(obs, streams).0
    ensures w.state == EmitAll(old(w.state), Run(obs, streams).1)
  {
    for i := 0 to |obs|
      invariant Guards(device, component, category) == Run(obs[..i], streams).0
      invariant w.state == EmitAll(old(w.state), Run(obs[..i], streams).1)
    {
      ghost var before := Run(obs[..i], streams);
      SampleStep(w, device, component, category, obs[i], streams);
      assert obs[..i + 1][..i] == obs[..i];
      EmitAllAppend(old(w.state), before.1, Step(before.0, obs[i], streams).1);
    }
    assert obs[..|obs|] == obs;
  }

  /** The three guards going out of scope, innermost first. */
  method FinishGuards(w: Writer, device: AutoElement, component: AutoElement, category: AutoElement)
    requires device.writer == w && component.writer == w && category.writer == w
    modifies w
    ensures w.state == EmitAll(old(w.state), FinishEvents(Guards(device, component, category)))
  {
    ghost var g := Guards(device, component, category);
    ghost var s0 := w.state;
    ghost var c1: seq<Event> := if category.name != "" then [Close] else [];
    ghost var c2: seq<Event> := if component.name != "" then [Close] else [];
    ghost var c3: seq<Event> := if device.name != "" then [Close] else [];
    assert FinishEvents(g) == c1 + c2 + c3;
    category.Finish();
    component.Finish();
    ghost var s2 := w.state;
    assert s2 == EmitAll(s0, c1 + c2) by {
      EmitAllAppend(s0, c1, c2);
    }
    device.Finish();
    EmitAllAppend(s0, c1 + c2, c3);
  }
}
