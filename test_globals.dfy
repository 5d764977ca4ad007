/**
 * The string helpers the printer's tests use to prepare expected documents
 * (test/test_globals.cpp): trim, fillAttribute and fillErrorText. Each
 * edits its string in place; here each takes the string and returns the
 * edited one.
 */
module TestStrings {
  import opened Wrappers
  import opened Strings

  /** The delimiters trim removes: " \t\r\n". */
  predicate IsDelim(c: char)
  {
    c == ' ' || c == '\t' || c == '\r' || c == '\n'
  }

  /** std::string::find_first_not_of(" \t\r\n", from). */
  function FirstNotDelim(s: string, from: nat): (r: Option<nat>)
    ensures r.Some? ==> (from <= r.value < |s| && !IsDelim(s[r.value]) &&
                         forall k :: from <= k < r.value ==> IsDelim(s[k]))
    ensures r.None? ==> forall k :: from <= k < |s| ==> IsDelim(s[k])
    decreases |s| - from
  {
    if from >= |s| then None
    else if !IsDelim(s[from]) then Some(from)
    else FirstNotDelim(s, from + 1)
  }

  /** std::string::find_last_not_of(" \t\r\n") over the first `upTo` characters. */
  function LastNotDelim(s: string, upTo: nat): (r: Option<nat>)
    requires upTo <= |s|
    ensures r.Some? ==> (r.value < upTo && !IsDelim(s[r.value]) &&
                         forall k :: r.value < k < upTo ==> IsDelim(s[k]))
    ensures r.None? ==> forall k :: 0 <= k < upTo ==> IsDelim(s[k])
  {
    if upTo == 0 then None
    else if !IsDelim(s[upTo - 1]) then Some(upTo - 1)
    else LastNotDelim(s, upTo - 1)
  }

  // ---------------------------------------------------------------------
  // trim

  function TrimStart(s: string): string
  {
    if s != [] && IsDelim(s[0]) then TrimStart(s[1..]) else s
  }

  function TrimEnd(s: string): string
  {
    if s != [] && IsDelim(s[|s| - 1]) then TrimEnd(s[..|s| - 1]) else s
  }

  /** The reference definition: delimiters dropped one at a time from the front, then from the back. */
  function Trimmed(s: string): string
  {
    TrimEnd(TrimStart(s))
  }

  /** A run of leading delimiters is what TrimStart drops. */
  lemma {:induction false} TrimStartDrops(s: string, i: nat)
    requires i <= |s| && (forall k :: 0 <= k < i ==> IsDelim(s[k])) && (i == |s| || !IsDelim(s[i]))
    ensures TrimStart(s) == s[i..]
    decreases i
  {
    if i > 0 {
      TrimStartDrops(s[1..], i - 1);
      assert s[1..][i - 1..] == s[i..];
    }
  }

  lemma {:induction false} TrimEndDrops(s: string, j: nat)
    requires j <= |s| && (forall k :: j <= k < |s| ==> IsDelim(s[k])) && (j == 0 || !IsDelim(s[j - 1]))
    ensures TrimEnd(s) == s[..j]
    decreases |s| - j
  {
    if j < |s| {
      TrimEndDrops(s[..|s| - 1], j);
      assert s[..|s| - 1][..j] == s[..j];
    } else {
      assert s[..j] == s;
    }
  }

  /**
   * trim's result: the input with its leading and trailing delimiters cut
   * off, a contiguous piece of it that starts and ends with a non-delimiter,
   * and empty exactly when the input holds only delimiters.
   */
  lemma TrimmedShape(s: string)
    ensures exists i, j ::
              (0 <= i <= j <= |s| && Trimmed(s) == s[i..j] &&
               (forall k :: 0 <= k < i ==> IsDelim(s[k])) && (forall k :: j <= k < |s| ==> IsDelim(s[k])))
    ensures Trimmed(s) != [] ==> !IsDelim(Trimmed(s)[0]) && !IsDelim(Trimmed(s)[|Trimmed(s)| - 1])
    ensures Trimmed(s) == [] <==> forall k :: 0 <= k < |s| ==> IsDelim(s[k])
  {
    match FirstNotDelim(s, 0)
    case None =>
      TrimStartDrops(s, |s|);
      TrimEndDrops([], 0);
      assert Trimmed(s) == s[|s|..|s|];
    case Some(i) =>
      TrimStartDrops(s, i);
      var t := s[i..];
      var j := LastNotDelim(s, |s|).value;
      assert i <= j;
      TrimEndDrops(t, j + 1 - i);
      assert t[..j + 1 - i] == s[i..j + 1];
      assert s[i..j + 1][0] == s[i];
  }

  /** Trimming twice is trimming once. */
  lemma TrimIdempotent(s: string)
    ensures Trimmed(Trimmed(s)) == Trimmed(s)
  {
    TrimmedShape(s);
    var t := Trimmed(s);
    if t != [] {
      TrimStartDrops(t, 0);
      TrimEndDrops(t, |t|);
      assert t[0..] == t && t[..|t|] == t;
    }
  }

  /** trim(str): erase the leading delimiters (or everything), then the trailing ones. */
  method Trim(s: string) returns (r: string)
    ensures r == Trimmed(s)
  {
    r := s;
    var notWhite := FirstNotDelim(r, 0);
    if notWhite.None? {
      r := [];
    } else if notWhite.value > 0 {
      r := r[notWhite.value..];
    }
    if notWhite.Some? {
      var last := LastNotDelim(r, |r|);
      assert !IsDelim(r[0]);
      if last.value < |r| - 1 {
        r := r[..last.value + 1];
      }
    }
    assert r == Trimmed(s) by {
      match FirstNotDelim(s, 0)
      case None =>
        TrimStartDrops(s, |s|);
      case Some(i) =>
        TrimStartDrops(s, i);
        var t := s[i..];
        var j := LastNotDelim(t, |t|).value;
        TrimEndDrops(t, j + 1);
    }
  }

  // ---------------------------------------------------------------------
  // fillAttribute

  /** The empty attribute `attribute=""` that fillAttribute looks for. */
  function EmptyAttribute(attribute: string): string
  {
    attribute + "=\"\""
  }

  /**
   * fillAttribute: with no `attribute=""` in the string nothing changes;
   * otherwise the value goes between the two quotes of the first one, and
   * everything else is kept in place around it.
   */
  method FillAttribute(s: string, attribute: string, value: string) returns (r: string)
    ensures Find(s, EmptyAttribute(attribute)).None? ==> r == s
    ensures Find(s, EmptyAttribute(attribute)).Some? ==>
      var k := Find(s, EmptyAttribute(attribute)).value + |attribute| + 2;
      |r| == |s| + |value| && r[..k] == s[..k] && r[k..k + |value|] == value && r[k + |value|..] == s[k..]
  {
    var pos := Find(s, EmptyAttribute(attribute));
    if pos.None? {
      r := s;
      return;
    }
    var at := pos.value + |attribute| + 2;
    r := s[..at] + value + s[at..];
    assert r[..at] == s[..at];
    assert r[at..at + |value|] == value;
    assert r[at + |value|..] == s[at..];
  }

  /** After fillAttribute the first empty attribute reads attribute="value". */
  lemma FillAttributeFills(s: string, attribute: string, value: string, r: string)
    requires Find(s, EmptyAttribute(attribute)).Some?
    requires var k := Find(s, EmptyAttribute(attribute)).value + |attribute| + 2;
      |r| == |s| + |value| && r[..k] == s[..k] && r[k..k + |value|] == value && r[k + |value|..] == s[k..]
    ensures OccursAt(r, attribute + "=\"" + value + "\"", Find(s, EmptyAttribute(attribute)).value)
  {
    FindIsFirst(s, EmptyAttribute(attribute));
    var q := Find(s, EmptyAttribute(attribute)).value;
    var k := q + |attribute| + 2;
    var filled := attribute + "=\"" + value + "\"";
    assert s[q..q + |attribute| + 3] == EmptyAttribute(attribute);
    assert r[q..k] == s[q..k] by {
      assert r[..k][q..k] == r[q..k];
      assert s[..k][q..k] == s[q..k];
    }
    assert s[q..k] == attribute + "=\"" by {
      assert s[q..k] == s[q..q + |attribute| + 3][..|attribute| + 2];
      assert EmptyAttribute(attribute)[..|attribute| + 2] == attribute + "=\"";
    }
    assert r[k + |value|] == s[k] == '"';
    assert r[q..q + |filled|] == r[q..k] + r[k..k + |value|] + [r[k + |value|]];
  }

  // ---------------------------------------------------------------------
  // fillErrorText

  const ErrorEnd: string := "</Error>"

  /** Where the Error element's text starts: just after the last '>' before position p. */
  function TextStart(s: string, p: nat): (g: nat)
    requires p <= |s| && exists k :: 0 <= k < p && s[k] == '>'
    ensures 0 < g <= p && s[g - 1] == '>' && forall k :: g <= k < p ==> s[k] != '>'
  {
    if s[p - 1] == '>' then p
    else
      assert exists k :: 0 <= k < p - 1 && s[k] == '>';
      TextStart(s, p - 1)
  }

  /**
   * After the text between the '>' and the first "</Error>" is erased, the
   * first "</Error>" is found right where the text began: no earlier match
   * can straddle the '>' that now precedes it.
   */
  lemma ErasedFindsTag(s: string, p: nat, g: nat)
    requires Find(s, ErrorEnd) == Some(p)
    requires 0 < g <= p && s[g - 1] == '>'
    ensures Find(s[..g] + s[p..], ErrorEnd) == Some(g)
  {
    FindIsFirst(s, ErrorEnd);
    var t := s[..g] + s[p..];
    assert |t| == g + (|s| - p);
    assert t[..g] == s[..g] && t[g..] == s[p..];
    assert OccursAt(t, ErrorEnd, g) by {
      assert t[g..g + 8] == t[g..][..8] == s[p..][..8] == s[p..p + 8];
    }
    forall q | 0 <= q < g ensures !OccursAt(t, ErrorEnd, q) {
      if q + 8 <= g {
        assert t[q..q + 8] == t[..g][q..q + 8] == s[..g][q..q + 8] == s[q..q + 8];
        assert !OccursAt(s, ErrorEnd, q);
      } else if q + 8 <= |t| {
        // a match here would have to hold the '>' at g - 1 among its first seven characters
        assert t[q..q + 8][g - 1 - q] == t[g - 1] == '>';
        assert ErrorEnd[g - 1 - q] != '>';
      }
    }
    FindIsFirst(t, ErrorEnd);
    var v := Find(t, ErrorEnd).value;
    assert !(v < g) && !(g < v);
  }

  /**
   * fillErrorText: with no "</Error>" nothing changes; otherwise the text
   * between the last '>' before the first "</Error>" and that tag is
   * replaced by `text`. The source walks back to a '>' without a bound, so
   * one must precede the tag.
   */
  method FillErrorText(s: string, text: string) returns (r: string)
    requires Find(s, ErrorEnd).Some? ==> exists k :: 0 <= k < Find(s, ErrorEnd).value && s[k] == '>'
    ensures Find(s, ErrorEnd).None? ==> r == s
    ensures Find(s, ErrorEnd).Some? ==>
      var p := Find(s, ErrorEnd).value;
      r == s[..TextStart(s, p)] + text + s[p..]
  {
    var pos := Find(s, ErrorEnd);
    if pos.None? {
      r := s;
      return;
    }
    var p := pos.value;
    var gT := p;
    while s[gT - 1] != '>'
      invariant 0 < gT <= p
      invariant exists k :: 0 <= k < gT && s[k] == '>'
      invariant forall k :: gT <= k < p ==> s[k] != '>'
      decreases gT
    {
      gT := gT - 1;
    }
    assert gT == TextStart(s, p) by {
      var g := TextStart(s, p);
      assert !(g < gT) && !(gT < g);
    }
    r := s[..gT] + s[p..];
    ErasedFindsTag(s, p, gT);
    var at := Find(r, ErrorEnd).value;
    assert r[..at] == s[..gT] && r[at..] == s[p..];
    r := r[..at] + text + r[at..];
  }

  /** After fillErrorText the given text sits right before the first "</Error>" and right after a '>'. */
  lemma ErrorTextPlaced(s: string, text: string)
    requires Find(s, ErrorEnd).Some? && exists k :: 0 <= k < Find(s, ErrorEnd).value && s[k] == '>'
    ensures var p := Find(s, ErrorEnd).value; var g := TextStart(s, p);
      var r := s[..g] + text + s[p..];
      r[g - 1] == '>' && OccursAt(r, text + ErrorEnd, g)
  {
    FindIsFirst(s, ErrorEnd);
    var p := Find(s, ErrorEnd).value;
    var g := TextStart(s, p);
    var tail := s[p..];
    var r := s[..g] + text + tail;
    assert OccursAt(s, ErrorEnd, p);
    assert |tail| >= 8 && tail[..8] == s[p..p + 8];
    assert r[g..] == text + tail;
    assert r[g..g + |text| + 8] == (text + tail)[..|text| + 8] == text + tail[..8];
    assert r[g - 1] == s[g - 1];
  }
}
