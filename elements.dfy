/**
 * The element-level helpers of the XML printer: addAttribute, the two
 * addAttributes overloads, addSimpleElement and the AutoElement guard
 * (src/xml_printer.cpp:290-405).
 */
module XmlElements {
  import opened XmlWriter
  import opened OrderedMaps

  /** addAttribute: the attribute is written only when its value is non-empty. */
  function AttributeEvents(key: string, value: string): seq<Event>
  {
    if value == "" then [] else [Attr(key, value)]
  }

  /** addAttributes over a std::map: every entry with a non-empty value, in key order. */
  function MapAttributeEvents(m: Entries<string>): seq<Event>
    decreases |m|
  {
    if m == [] then []
    else MapAttributeEvents(m[..|m| - 1]) + AttributeEvents(m[|m| - 1].0, m[|m| - 1].1)
  }

  /** One entry of an AttributeList: a key, a value and whether to write it even when empty. */
  datatype ListAttribute = ListAttribute(key: string, value: string, force: bool)

  /** addAttributes over an AttributeList: entries with a value or the force flag, in list order. */
  function AttributeListEvents(attrs: seq<ListAttribute>): seq<Event>
    decreases |attrs|
  {
    if attrs == [] then []
    else
      var a := attrs[|attrs| - 1];
      AttributeListEvents(attrs[..|attrs| - 1]) +
      (if a.value != "" || a.force then [Attr(a.key, a.value)] else [])
  }

  /** The body of addSimpleElement: entity-escaped text, or the raw string when `raw` is set. */
  function BodyEvents(body: string, raw: bool): seq<Event>
  {
    if body == "" then [] else if raw then [Raw(body)] else [Text(body)]
  }

  /** addSimpleElement: the element, its non-empty attributes, its body, its end tag. */
  function SimpleElementEvents(element: string, body: string, attrs: Entries<string>, raw: bool): seq<Event>
  {
    [Open(element)] + MapAttributeEvents(attrs) + BodyEvents(body, raw) + [Close]
  }

  /** What AutoElement::reset writes when moving from (oldName, oldKey) to (name, key). */
  function ResetEvents(oldName: string, oldKey: string, name: string, key: string): seq<Event>
  {
    if name == oldName && key == oldKey then []
    else (if oldName != "" then [Close] else []) + (if name != "" then [Open(name)] else [])
  }

  // ---------------------------------------------------------------------
  // Properties of the helpers.

  /** addAttributes writes exactly the entries of the map whose value is non-empty. */
  lemma {:induction false} MapAttributesWritten(m: Entries<string>, k: string, v: string)
    ensures Attr(k, v) in MapAttributeEvents(m) <==> v != "" && exists i :: 0 <= i < |m| && m[i] == (k, v)
    decreases |m|
  {
    if m != [] {
      var init := m[..|m| - 1];
      MapAttributesWritten(init, k, v);
      if v != "" && exists i :: 0 <= i < |m| && m[i] == (k, v) {
        var i :| 0 <= i < |m| && m[i] == (k, v);
        if i < |m| - 1 { assert init[i] == m[i]; }
      }
      if exists i :: 0 <= i < |init| && init[i] == (k, v) {
        var i :| 0 <= i < |init| && init[i] == (k, v);
        assert m[i] == init[i];
      }
    }
  }

  /** Only attributes come out of addAttributes, so they add no nesting. */
  lemma {:induction false} MapAttributesFlat(m: Entries<string>)
    ensures forall i :: 0 <= i < |MapAttributeEvents(m)| ==> MapAttributeEvents(m)[i].Attr?
    decreases |m|
  {
    if m != [] { MapAttributesFlat(m[..|m| - 1]); }
  }

  /** The AttributeList overload writes an entry exactly when it has a value or is forced. */
  lemma {:induction false} ListAttributesWritten(attrs: seq<ListAttribute>, k: string, v: string)
    ensures Attr(k, v) in AttributeListEvents(attrs) <==>
      exists i :: 0 <= i < |attrs| && attrs[i].key == k && attrs[i].value == v && (v != "" || attrs[i].force)
    decreases |attrs|
  {
    if attrs != [] {
      var init := attrs[..|attrs| - 1];
      ListAttributesWritten(init, k, v);
      if exists i :: 0 <= i < |attrs| && attrs[i].key == k && attrs[i].value == v && (v != "" || attrs[i].force) {
        var i :| 0 <= i < |attrs| && attrs[i].key == k && attrs[i].value == v && (v != "" || attrs[i].force);
        if i < |attrs| - 1 { assert init[i] == attrs[i]; }
      }
      if exists i :: 0 <= i < |init| && init[i].key == k && init[i].value == v && (v != "" || init[i].force) {
        var i :| 0 <= i < |init| && init[i].key == k && init[i].value == v && (v != "" || init[i].force);
        assert attrs[i] == init[i];
      }
    }
  }

  lemma {:induction false} ListAttributesFlat(attrs: seq<ListAttribute>)
    ensures forall i :: 0 <= i < |AttributeListEvents(attrs)| ==> AttributeListEvents(attrs)[i].Attr?
    decreases |attrs|
  {
    if attrs != [] { ListAttributesFlat(attrs[..|attrs| - 1]); }
  }

  /** A simple element is one balanced element. */
  lemma SimpleElementBalanced(element: string, body: string, attrs: Entries<string>, raw: bool)
    ensures Balanced(SimpleElementEvents(element, body, attrs, raw))
  {
    MapAttributesFlat(attrs);
    var inner := MapAttributeEvents(attrs) + BodyEvents(body, raw);
    FlatBalanced(inner);
    BalancedWrap(element, inner);
    assert SimpleElementEvents(element, body, attrs, raw) == [Open(element)] + inner + [Close];
  }

  /** How many elements a guard holding `name` keeps open. */
  function Opened(name: string): nat
  {
    if name != "" then 1 else 0
  }

  /**
   * AutoElement::reset: a repeated (name, key) writes nothing; otherwise the
   * old element is closed if one was open and the new one opened if it has a
   * name, so the number of open guarded elements moves from the old name's
   * to the new name's, and the reset never closes more than its own element.
   */
  lemma ResetDepth(oldName: string, oldKey: string, name: string, key: string)
    ensures var r := ResetEvents(oldName, oldKey, name, key);
      (name == oldName && key == oldKey ==> r == []) &&
      NestedFrom(Opened(oldName), r) && Depth(r) == Opened(name) - Opened(oldName)
  {
    var r := ResetEvents(oldName, oldKey, name, key);
    if name == oldName && key == oldKey {
      assert r[..0] == [];
    } else {
      var c: seq<Event> := if oldName != "" then [Close] else [];
      var o: seq<Event> := if name != "" then [Open(name)] else [];
      assert r == c + o;
      if oldName != "" { Single(1, Close); } else { assert c[..0] == []; }
      if name != "" { Single(0, Open(name)); } else { assert o[..0] == []; }
      NestedFromAppend(Opened(oldName), c, o);
    }
  }

  // ---------------------------------------------------------------------
  // The helpers as the printer calls them, one writer call at a time.

  method AddAttribute(w: Writer, key: string, value: string)
    modifies w
    ensures w.state == EmitAll(old(w.state), AttributeEvents(key, value))
  {
    if value != "" {
      w.Write(Attr(key, value));
      assert EmitAll(old(w.state), [Attr(key, value)]) == Emit(EmitAll(old(w.state), []), Attr(key, value));
    }
  }

  method AddAttributes(w: Writer, attributes: Entries<string>)
    modifies w
    ensures w.state == EmitAll(old(w.state), MapAttributeEvents(attributes))
  {
    var i := 0;
    while i < |attributes|
      invariant 0 <= i <= |attributes|
      invariant w.state == EmitAll(old(w.state), MapAttributeEvents(attributes[..i]))
    {
      var (k, v) := attributes[i];
      ghost var before := w.state;
      AddAttribute(w, k, v);
      assert attributes[..i + 1][..i] == attributes[..i];
      EmitAllAppend(old(w.state), MapAttributeEvents(attributes[..i]), AttributeEvents(k, v));
      i := i + 1;
    }
    assert attributes[..i] == attributes;
  }

  method AddAttributeList(w: Writer, attributes: seq<ListAttribute>)
    modifies w
    ensures w.state == EmitAll(old(w.state), AttributeListEvents(attributes))
  {
    var i := 0;
    while i < |attributes|
      invariant 0 <= i <= |attributes|
      invariant w.state == EmitAll(old(w.state), AttributeListEvents(attributes[..i]))
    {
      var a := attributes[i];
      var written: seq<Event> := [];
      if a.value != "" || a.force {
        w.Write(Attr(a.key, a.value));
        written := [Attr(a.key, a.value)];
        assert EmitAll(old(w.state), AttributeListEvents(attributes[..i]) + written)
          == Emit(EmitAll(old(w.state), AttributeListEvents(attributes[..i])), Attr(a.key, a.value));
      } else {
        assert AttributeListEvents(attributes[..i]) + written == AttributeListEvents(attributes[..i]);
      }
      assert attributes[..i + 1][..i] == attributes[..i];
      assert AttributeListEvents(attributes[..i + 1]) == AttributeListEvents(attributes[..i]) + written;
      i := i + 1;
    }
    assert attributes[..i] == attributes;
  }

  method AddSimpleElement(w: Writer, element: string, body: string, attributes: Entries<string>, raw: bool)
    modifies w
    ensures w.state == EmitAll(old(w.state), SimpleElementEvents(element, body, attributes, raw))
  {
    ghost var s0 := w.state;
    w.Write(Open(element));
    EmitSingle(s0, Open(element));
    if |attributes| > 0 {
      AddAttributes(w, attributes);
    } else {
      assert MapAttributeEvents(attributes) == [];
    }
    EmitAllAppend(s0, [Open(element)], MapAttributeEvents(attributes));
    ghost var prefix := [Open(element)] + MapAttributeEvents(attributes);
    ghost var s1 := w.state;
    if body != "" {
      var e := if raw then Raw(body) else Text(body);
      w.Write(e);
      EmitSingle(s1, e);
    }
    EmitAllAppend(s0, prefix, BodyEvents(body, raw));
    ghost var s2 := w.state;
    w.Write(Close);
    EmitSingle(s2, Close);
    EmitAllAppend(s0, prefix + BodyEvents(body, raw), [Close]);
  }

  /** A guard opened on `name` and finished after `body`: the element's end tag follows when the name is not empty. */
  lemma GuardClosed(s0: WriterState, s2: WriterState, name: string, body: seq<Event>)
    requires s2 == EmitAll(s0, [Open(name)] + body)
    ensures EmitAll(s0, [Open(name)] + body + [Close]) == EmitAll(s2, if name != "" then [Close] else [])
  {
    if name != "" {
      EmitSingle(s2, Close);
    } else {
      assert Emit(s0, Open(name)).failed;
      EmitSingle(s0, Open(name));
      EmitAllAppend(s0, [Open(name)], body);
      EmitAllFailed(Emit(s0, Open(name)), body);
      EmitAllFailed(s2, [Close]);
    }
    EmitAllAppend(s0, [Open(name)] + body, [Close]);
  }

  /** A guard's element written in two parts and then finished. */
  lemma GuardedElement(s0: WriterState, s1: WriterState, s2: WriterState, s3: WriterState,
                       name: string, a: seq<Event>, b: seq<Event>)
    requires s1 == Emit(s0, Open(name)) && s2 == EmitAll(s1, a) && s3 == EmitAll(s2, b)
    ensures EmitAll(s0, [Open(name)] + a + b + [Close]) == EmitAll(s3, if name != "" then [Close] else [])
  {
    EmitSingle(s0, Open(name));
    EmitAllAppend(s0, [Open(name)], a);
    EmitAllAppend(s0, [Open(name)] + a, b);
    assert [Open(name)] + a + b == [Open(name)] + (a + b);
    GuardClosed(s0, s3, name, a + b);
  }

  /**
   * The scoped element guard. It remembers the name and key of the element it
   * has open (an empty name: none); the printer calls Finish where the C++
   * destructor would run.
   */
  class AutoElement {
    const writer: Writer
    var name: string
    var key: string

    /** AutoElement(writer): a guard with nothing open. */
    constructor Idle(w: Writer)
      ensures writer == w && name == "" && key == ""
    {
      writer := w;
      name := "";
      key := "";
    }

    /** AutoElement(writer, name, key): opens the element at once. */
    constructor (w: Writer, n: string, k: string)
      modifies w
      ensures writer == w && name == n && key == k
      ensures w.state == Emit(old(w.state), Open(n))
    {
      writer := w;
      name := n;
      key := k;
      new;
      w.Write(Open(n));
    }

    /** AutoElement::reset. */
    method Reset(n: string, k: string) returns (changed: bool)
      modifies this, writer
      ensures changed <==> n != old(name) || k != old(key)
      ensures writer.state == EmitAll(old(writer.state), ResetEvents(old(name), old(key), n, k))
      ensures name == n && key == k
    {
      ghost var s0 := writer.state;
      if n != name || key != k {
        if name != "" {
          writer.Write(Close);
          assert writer.state == EmitAll(s0, [Close]) by {
            assert EmitAll(s0, [Close]) == Emit(EmitAll(s0, []), Close);
          }
        }
        ghost var closes: seq<Event> := if name != "" then [Close] else [];
        assert writer.state == EmitAll(s0, closes);
        if n != "" {
          writer.Write(Open(n));
          assert EmitAll(s0, closes + [Open(n)]) == Emit(EmitAll(s0, closes), Open(n));
        }
        assert ResetEvents(name, key, n, k) == closes + (if n != "" then [Open(n)] else []);
        name := n;
        key := k;
        changed := true;
      } else {
        changed := false;
      }
    }

    /** ~AutoElement: closes the element if one is open. */
    method Finish()
      modifies writer
      ensures writer.state == EmitAll(old(writer.state), if name != "" then [Close] else [])
    {
      if name != "" {
        writer.Write(Close);
        assert EmitAll(old(writer.state), [Close]) == Emit(EmitAll(old(writer.state), []), Close);
      }
    }
  }
}
