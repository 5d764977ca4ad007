/**
 * The libxml2 text writer behind the XML printer, seen as an append-only
 * trace of events. Each call either records its event or, when the writer
 * refuses it, puts the writer in a failed state that later calls cannot
 * leave; a failed writer yields the empty document, which is what the
 * printer's entry points return after catching the error.
 */
module XmlWriter {

  datatype Event =
    | Open(name: string)                  // xmlTextWriterStartElement
    | Attr(key: string, value: string)    // xmlTextWriterWriteAttribute
    | Text(text: string)                  // character data, written entity-escaped
    | Raw(content: string)                // xmlTextWriterWriteRaw, passed through unchanged
    | Close                               // xmlTextWriterEndElement
    | Instruction(content: string)        // xmlTextWriterStartPI + xmlTextWriterEndPI
    | Declaration                         // xmlTextWriterStartDocument: the XML declaration, UTF-8

  /**
   * What the writer has produced so far: the events it accepted, the names of
   * the elements still open, whether the last accepted event left a start tag
   * open for attributes, whether a call has failed, and how many events its
   * buffer can hold.
   */
  datatype WriterState = WriterState(
    events: seq<Event>,
    open: seq<string>,
    inTag: bool,
    failed: bool,
    capacity: nat)

  function Fresh(capacity: nat): WriterState
  {
    WriterState([], [], false, false, capacity)
  }

  /**
   * The calls the writer refuses: an element or attribute without a name, an
   * attribute once the start tag is finished, an end tag with nothing open,
   * an instruction without a target, and a declaration after anything else.
   */
  predicate Accepts(s: WriterState, e: Event)
  {
    match e
    case Open(n) => n != ""
    case Attr(k, _) => k != "" && s.inTag
    case Close => |s.open| > 0
    case Instruction(c) => c != ""
    case Declaration => s.events == []
    case _ => true
  }

  /** One writer call. */
  function Emit(s: WriterState, e: Event): (r: WriterState)
    ensures r.capacity == s.capacity
    ensures s.failed ==> r == s
  {
    if s.failed then s
    else if !Accepts(s, e) || |s.events| >= s.capacity then s.(failed := true)
    else match e
      case Open(n) => s.(events := s.events + [e], open := s.open + [n], inTag := true)
      case Attr(_, _) => s.(events := s.events + [e])
      case Close => s.(events := s.events + [e], open := s.open[..|s.open| - 1], inTag := false)
      case _ => s.(events := s.events + [e], inTag := false)
  }

  /** A run of writer calls, in order. */
  function EmitAll(s: WriterState, es: seq<Event>): (r: WriterState)
    ensures r.capacity == s.capacity
    decreases |es|
  {
    if es == [] then s else Emit(EmitAll(s, es[..|es| - 1]), es[|es| - 1])
  }

  lemma {:induction false} EmitAllAppend(s: WriterState, a: seq<Event>, b: seq<Event>)
    ensures EmitAll(s, a + b) == EmitAll(EmitAll(s, a), b)
    decreases |b|
  {
    if b == [] {
      assert a + b == a;
    } else {
      assert (a + b)[..|a + b| - 1] == a + b[..|b| - 1];
      EmitAllAppend(s, a, b[..|b| - 1]);
    }
  }

  lemma EmitSingle(s: WriterState, e: Event)
    ensures EmitAll(s, [e]) == Emit(s, e)
  {
    assert [e][..0] == [];
  }

  /** Once a call has failed, later calls change nothing. */
  lemma {:induction false} EmitAllFailed(s: WriterState, es: seq<Event>)
    requires s.failed
    ensures EmitAll(s, es) == s
    decreases |es|
  {
    if es != [] { EmitAllFailed(s, es[..|es| - 1]); }
  }

  /** xmlTextWriterEndDocument, which closes what is still open, then the buffer's content. */
  function Content(s: WriterState): seq<Event>
  {
    if s.failed then [] else s.events + seq(|s.open|, _ => Close)
  }

  /** The document an entry point returns when it makes the calls `es` on a fresh writer. */
  function Document(capacity: nat, es: seq<Event>): seq<Event>
  {
    Content(EmitAll(Fresh(capacity), es))
  }

  /** True when every call of `es`, made in order from `s`, is accepted. */
  predicate AllAccepted(s: WriterState, es: seq<Event>)
    decreases |es|
  {
    es == [] ||
    (AllAccepted(s, es[..|es| - 1]) && !EmitAll(s, es[..|es| - 1]).failed &&
     Accepts(EmitAll(s, es[..|es| - 1]), es[|es| - 1]))
  }

  lemma {:induction false} EmitAllRecords(s: WriterState, es: seq<Event>)
    requires !s.failed && |s.events| <= s.capacity
    ensures var r := EmitAll(s, es);
      |r.events| <= r.capacity &&
      (r.failed <==> !AllAccepted(s, es) || |s.events| + |es| > s.capacity) &&
      (!r.failed ==> r.events == s.events + es)
    decreases |es|
  {
    if es != [] {
      var init := es[..|es| - 1];
      EmitAllRecords(s, init);
      var p := EmitAll(s, init);
      if !p.failed {
        assert p.events + [es[|es| - 1]] == s.events + es;
      }
    }
  }

  /**
   * Failure containment: a document is either the complete run of calls
   * (plus the end tags that ending the document adds) or empty, and it is
   * empty exactly when some call was refused or the buffer ran out.
   */
  lemma DocumentAllOrNothing(capacity: nat, es: seq<Event>)
    requires es != []
    ensures var d := Document(capacity, es);
      (d == [] <==> !AllAccepted(Fresh(capacity), es) || |es| > capacity) &&
      (d != [] ==> |d| >= |es| && d[..|es|] == es)
  {
    EmitAllRecords(Fresh(capacity), es);
    var r := EmitAll(Fresh(capacity), es);
    if !r.failed {
      assert r.events == es;
      assert Content(r) == es + seq(|r.open|, _ => Close);
    }
  }

  /** The writer as the printer holds it: one object whose state each call advances. */
  class Writer {
    var state: WriterState

    constructor (capacity: nat)
      ensures state == Fresh(capacity)
    {
      state := Fresh(capacity);
    }

    method Write(e: Event)
      modifies this
      ensures state == Emit(old(state), e)
    {
      state := Emit(state, e);
    }

    /** xmlTextWriterEndDocument followed by reading the buffer (XmlWriter::getContent). */
    method GetContent() returns (doc: seq<Event>)
      ensures doc == Content(state)
    {
      doc := Content(state);
    }
  }

  // ---------------------------------------------------------------------
  // Nesting of the events: every Open is matched by a later Close.

  function Delta(e: Event): int
  {
    match e
    case Open(_) => 1
    case Close => -1
    case _ => 0
  }

  /** Elements opened and not yet closed after `es`. */
  function Depth(es: seq<Event>): int
    decreases |es|
  {
    if es == [] then 0 else Depth(es[..|es| - 1]) + Delta(es[|es| - 1])
  }

  /**
   * Starting inside `base` open elements, no prefix of `es` closes more
   * elements than are open.
   */
  predicate NestedFrom(base: int, es: seq<Event>)
  {
    forall k :: 0 <= k <= |es| ==> base + Depth(es[..k]) >= 0
  }

  /** No prefix of `es` closes more elements than it opened. */
  predicate Nested(es: seq<Event>)
  {
    NestedFrom(0, es)
  }

  predicate Balanced(es: seq<Event>)
  {
    Nested(es) && Depth(es) == 0
  }

  lemma {:induction false} DepthAppend(a: seq<Event>, b: seq<Event>)
    ensures Depth(a + b) == Depth(a) + Depth(b)
    decreases |b|
  {
    if b == [] {
      assert a + b == a;
    } else {
      assert (a + b)[..|a + b| - 1] == a + b[..|b| - 1];
      DepthAppend(a, b[..|b| - 1]);
    }
  }

  /** Runs that each stay nested from where the previous one left off stay nested together. */
  lemma NestedFromAppend(base: int, a: seq<Event>, b: seq<Event>)
    requires NestedFrom(base, a) && NestedFrom(base + Depth(a), b)
    ensures NestedFrom(base, a + b) && Depth(a + b) == Depth(a) + Depth(b)
  {
    DepthAppend(a, b);
    forall k | 0 <= k <= |a + b| ensures base + Depth((a + b)[..k]) >= 0 {
      if k <= |a| {
        assert (a + b)[..k] == a[..k];
      } else {
        assert (a + b)[..k] == a + b[..k - |a|];
        assert a[..|a|] == a;
        DepthAppend(a, b[..k - |a|]);
      }
    }
  }

  /** One event, from `base` open elements. */
  lemma Single(base: int, e: Event)
    requires base >= 0 && base + Delta(e) >= 0
    ensures NestedFrom(base, [e]) && Depth([e]) == Delta(e)
  {
    assert [e][..0] == [];
    assert [e][..1] == [e];
  }

  lemma BalancedAppend(a: seq<Event>, b: seq<Event>)
    requires Balanced(a) && Balanced(b)
    ensures Balanced(a + b)
  {
    NestedFromAppend(0, a, b);
  }

  /** An element wrapped around content that is nested one level in stays nested. */
  lemma WrapFrom(base: int, n: string, inner: seq<Event>)
    requires base >= 0 && NestedFrom(base + 1, inner) && Depth(inner) == 0
    ensures NestedFrom(base, [Open(n)] + inner + [Close]) && Depth([Open(n)] + inner + [Close]) == 0
  {
    Single(base, Open(n));
    NestedFromAppend(base, [Open(n)], inner);
    Single(base + 1, Close);
    NestedFromAppend(base, [Open(n)] + inner, [Close]);
  }

  /** An element wrapped around balanced content is balanced. */
  lemma BalancedWrap(n: string, inner: seq<Event>)
    requires Balanced(inner)
    ensures Balanced([Open(n)] + inner + [Close])
  {
    NestedFromRaise(0, 1, inner);
    WrapFrom(0, n, inner);
  }

  lemma WrapTwo(n: string, a: seq<Event>, b: seq<Event>)
    requires Balanced(a + b)
    ensures Balanced([Open(n)] + a + b + [Close])
  {
    BalancedWrap(n, a + b);
    assert [Open(n)] + a + b + [Close] == [Open(n)] + (a + b) + [Close];
  }

  /** Being nested from fewer open elements implies being nested from more. */
  lemma NestedFromRaise(lo: int, hi: int, es: seq<Event>)
    requires NestedFrom(lo, es) && lo <= hi
    ensures NestedFrom(hi, es)
  {
    forall k | 0 <= k <= |es| ensures hi + Depth(es[..k]) >= 0 {
      assert lo + Depth(es[..k]) >= 0;
    }
  }

  /** Events that neither open nor close (attributes, text, raw content) are balanced. */
  lemma FlatBalanced(es: seq<Event>)
    requires forall i :: 0 <= i < |es| ==> !es[i].Open? && !es[i].Close?
    ensures Balanced(es)
  {
    forall k | 0 <= k <= |es| ensures Depth(es[..k]) == 0 {
      FlatDepth(es[..k]);
    }
    assert es[..|es|] == es;
  }

  /** While the writer has not failed, its stack of open elements is as deep as the events say. */
  lemma {:induction false} OpenDepth(capacity: nat, es: seq<Event>)
    ensures var r := EmitAll(Fresh(capacity), es); !r.failed ==> |r.open| == Depth(es)
    decreases |es|
  {
    if es != [] {
      var init := es[..|es| - 1];
      OpenDepth(capacity, init);
    }
  }

  /**
   * A balanced run of calls yields either exactly those events, with no end
   * tag added by ending the document, or the empty document.
   */
  lemma BalancedDocument(capacity: nat, es: seq<Event>)
    requires es != [] && Balanced(es)
    ensures var d := Document(capacity, es);
      (d == es || d == []) && (d == [] <==> !AllAccepted(Fresh(capacity), es) || |es| > capacity)
  {
    DocumentAllOrNothing(capacity, es);
    EmitAllRecords(Fresh(capacity), es);
    OpenDepth(capacity, es);
    var r := EmitAll(Fresh(capacity), es);
    if !r.failed {
      assert Content(r) == es + [];
    }
  }

  lemma {:induction false} FlatDepth(es: seq<Event>)
    requires forall i :: 0 <= i < |es| ==> !es[i].Open? && !es[i].Close?
    ensures Depth(es) == 0
    decreases |es|
  {
    if es != [] { FlatDepth(es[..|es| - 1]); }
  }
  // ---------------------------------------------------------------------
  // The names of the elements left open.

  /** The names of the elements open after `es`, starting inside `stack`, outermost first. */
  function OpenAfter(stack: seq<string>, es: seq<Event>): seq<string>
    decreases |es|
  {
    if es == [] then stack
    else
      var s := OpenAfter(stack, es[..|es| - 1]);
      match es[|es| - 1]
      case Open(n) => s + [n]
      case Close => if s == [] then s else s[..|s| - 1]
      case _ => s
  }

  lemma {:induction false} OpenAfterAppend(stack: seq<string>, a: seq<Event>, b: seq<Event>)
    ensures OpenAfter(stack, a + b) == OpenAfter(OpenAfter(stack, a), b)
    decreases |b|
  {
    if b == [] {
      assert a + b == a;
    } else {
      assert (a + b)[..|a + b| - 1] == a + b[..|b| - 1];
      OpenAfterAppend(stack, a, b[..|b| - 1]);
    }
  }

  /**
   * While the writer has not failed, the names it holds open are those the
   * events leave open: each Open pushes its name and each Close pops one.
   */
  lemma {:induction false} WriterOpenNames(s: WriterState, es: seq<Event>)
    ensures var r := EmitAll(s, es); !r.failed ==> r.open == OpenAfter(s.open, es)
    decreases |es|
  {
    if es != [] {
      var init := es[..|es| - 1];
      WriterOpenNames(s, init);
      if EmitAll(s, init).failed {
        assert EmitAll(s, es).failed;
      }
    }
  }

  /**
   * Events that never close more than they opened leave the outer stack in
   * place and push as many names as their depth.
   */
  lemma {:induction false} NestedKeepsStack(stack: seq<string>, es: seq<Event>)
    requires NestedFrom(0, es)
    ensures OpenAfter(stack, es) == stack + OpenAfter([], es)
    ensures |OpenAfter([], es)| == Depth(es)
    decreases |es|
  {
    if es == [] {
      assert stack + [] == stack;
    } else {
      var init := es[..|es| - 1];
      assert NestedFrom(0, init) by {
        forall k | 0 <= k <= |init| ensures Depth(init[..k]) >= 0 {
          assert init[..k] == es[..k];
        }
      }
      NestedKeepsStack(stack, init);
      assert es[..|es|] == es;
      var inner := OpenAfter([], init);
      match es[|es| - 1]
      case Open(n) =>
        assert stack + inner + [n] == stack + (inner + [n]);
      case Close =>
        assert |inner| > 0;
        assert (stack + inner)[..|stack + inner| - 1] == stack + inner[..|inner| - 1];
      case _ =>
    }
  }

  /** A balanced run leaves the names open before it exactly as they were. */
  lemma BalancedKeepsStack(stack: seq<string>, es: seq<Event>)
    requires Balanced(es)
    ensures OpenAfter(stack, es) == stack
  {
    NestedKeepsStack(stack, es);
    assert stack + OpenAfter([], es) == stack + [];
  }
}
