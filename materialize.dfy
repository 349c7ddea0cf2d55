/** The children-materialization step of MagazineBook: filter the children to valid
    elements, give each an ordinal index and a resolved density, and compact the
    positional slot array of mounted page nodes. */
module Materialization {
  import opened Types

  /** Which component a valid child element is. */
  datatype Kind = PageKind | CoverKind | OtherKind

  /** A valid element among the children, with the `density` prop it declares.
      `Page` may declare one (its own default 'soft' lives inside Page, not in the
      props); `PageCover` declares none. */
  datatype Element = Element(kind: Kind, densityProp: Option<PageDensity>)

  /** An entry of the flattened children: an element, or anything else (text, numbers). */
  datatype Child = ElementChild(element: Element) | TextChild

  /** A materialized page: its ordinal, the density its ref callback writes, and the element. */
  datatype Descriptor = Descriptor(index: nat, density: PageDensity, element: Element)

  // ---------------------------------------------------------------------------
  // Keeping the present entries of a sequence, in order

  /** The present entries of `s`, in order (the shape of both `filter` calls of the component). */
  function Compact<T>(s: seq<Option<T>>): seq<T> {
    if s == [] then []
    else (if s[0].Some? then [s[0].value] else []) + Compact(s[1..])
  }

  /** How many present entries come before position `j`. */
  function Rank<T>(s: seq<Option<T>>, j: nat): nat
    requires j <= |s|
  {
    |Compact(s[..j])|
  }

  lemma {:induction false} CompactAppend<T>(a: seq<Option<T>>, b: seq<Option<T>>)
    ensures Compact(a + b) == Compact(a) + Compact(b)
  {
    if a == [] {
      assert a + b == b;
    } else {
      assert (a + b)[1..] == a[1..] + b;
      CompactAppend(a[1..], b);
    }
  }

  /** A present entry lands at its rank in the compacted sequence, and the rank advances
      by one exactly at present entries: absent entries take no position. */
  lemma {:induction false} CompactAt<T>(s: seq<Option<T>>, j: nat)
    requires j < |s|
    ensures Rank(s, j + 1) == Rank(s, j) + (if s[j].Some? then 1 else 0)
    ensures s[j].Some? ==> Rank(s, j) < |Compact(s)| && Compact(s)[Rank(s, j)] == s[j].value
  {
    assert s[..j + 1] == s[..j] + [s[j]];
    CompactAppend(s[..j], [s[j]]);
    assert Compact([s[j]]) == if s[j].Some? then [s[j].value] else [] by {
      assert [s[j]][1..] == [];
    }
    assert s == s[..j + 1] + s[j + 1..];
    CompactAppend(s[..j + 1], s[j + 1..]);
  }

  /** When every slot is filled, compacting changes nothing but the wrapping. */
  lemma {:induction false} CompactFull<T>(s: seq<Option<T>>)
    requires forall j :: 0 <= j < |s| ==> s[j].Some?
    ensures |Compact(s)| == |s|
    ensures forall j :: 0 <= j < |s| ==> Compact(s)[j] == s[j].value
  {
    if s != [] {
      CompactFull(s[1..]);
    }
  }

  // ---------------------------------------------------------------------------
  // Children to elements

  function AsElements(cs: seq<Child>): (r: seq<Option<Element>>)
    ensures |r| == |cs|
  {
    seq(|cs|, i requires 0 <= i < |cs| => if cs[i].ElementChild? then Some(cs[i].element) else None)
  }

  /** The children that are valid elements, in order. */
  function ValidElements(cs: seq<Child>): seq<Element> {
    Compact(AsElements(cs))
  }

  /** Child `j`, when it is an element, gets as its ordinal the number of elements before
      it; a non-element child takes no ordinal. */
  lemma ElementOrdinal(cs: seq<Child>, j: nat)
    requires j < |cs|
    ensures Rank(AsElements(cs), j + 1) == Rank(AsElements(cs), j) + (if cs[j].ElementChild? then 1 else 0)
    ensures cs[j].ElementChild? ==>
              Rank(AsElements(cs), j) < |ValidElements(cs)| &&
              ValidElements(cs)[Rank(AsElements(cs), j)] == cs[j].element
  {
    CompactAt(AsElements(cs), j);
  }

  // ---------------------------------------------------------------------------
  // Density

  /** True when cover mode forces the page at `index` of `total` to be hard. */
  predicate ForcedHard(index: nat, total: nat, showCover: bool) {
    showCover && (index == 0 || index == total - 1)
  }

  /** The declared hint, or 'soft'; overridden to 'hard' at both ends in cover mode. */
  function ResolveDensity(hint: Option<PageDensity>, index: nat, total: nat, showCover: bool): (d: PageDensity)
    requires index < total
    ensures d == Hard <==> ForcedHard(index, total, showCover) || hint == Some(Hard)
  {
    if ForcedHard(index, total, showCover) then Hard else hint.GetOr(Soft)
  }

  /** One descriptor per valid element, in order, carrying its ordinal and resolved density. */
  function Materialize(cs: seq<Child>, showCover: bool): (r: seq<Descriptor>)
    ensures |r| == |ValidElements(cs)|
    ensures forall i :: 0 <= i < |r| ==> r[i].index == i && r[i].element == ValidElements(cs)[i]
    ensures forall i :: 0 <= i < |r| ==>
              r[i].density == ResolveDensity(ValidElements(cs)[i].densityProp, i, |r|, showCover)
  {
    var els := ValidElements(cs);
    seq(|els|, i requires 0 <= i < |els| =>
      Descriptor(i, ResolveDensity(els[i].densityProp, i, |els|, showCover), els[i]))
  }

  /** In cover mode the first and the last page are hard, also when they are the same page. */
  lemma CoverEndsAreHard(cs: seq<Child>)
    requires |ValidElements(cs)| >= 1
    ensures Materialize(cs, true)[0].density == Hard
    ensures Materialize(cs, true)[|ValidElements(cs)| - 1].density == Hard
  {
  }

  /** Without cover mode nothing is forced: each page has its hint, or 'soft'. */
  lemma NoCoverKeepsHint(cs: seq<Child>, i: nat)
    requires i < |ValidElements(cs)|
    ensures Materialize(cs, false)[i].density == ValidElements(cs)[i].densityProp.GetOr(Soft)
  {
  }

  /** The data-density attribute an element renders by itself, before its ref callback runs:
      Page renders its prop or 'soft', PageCover always 'hard', other elements none. */
  function RenderedDensity(e: Element): Option<PageDensity> {
    match e.kind
    case PageKind => Some(e.densityProp.GetOr(Soft))
    case CoverKind => Some(Hard)
    case OtherKind => None
  }

  /** A PageCover that cover mode does not force is written back as 'soft' by the ref
      callback, although it rendered itself 'hard': the callback's value wins. */
  lemma CoverOverwrittenUnlessForced(cs: seq<Child>, i: nat, showCover: bool)
    requires i < |ValidElements(cs)|
    requires ValidElements(cs)[i] == Element(CoverKind, None)
    ensures RenderedDensity(ValidElements(cs)[i]) == Some(Hard)
    ensures Materialize(cs, showCover)[i].density == Hard <==> ForcedHard(i, |ValidElements(cs)|, showCover)
  {
  }

  /** For a Page element that cover mode does not force, the callback writes what it rendered. */
  lemma PageKeepsRenderedDensity(cs: seq<Child>, i: nat, showCover: bool)
    requires i < |ValidElements(cs)|
    requires ValidElements(cs)[i].kind == PageKind
    requires !ForcedHard(i, |ValidElements(cs)|, showCover)
    ensures RenderedDensity(ValidElements(cs)[i]) == Some(Materialize(cs, showCover)[i].density)
  {
  }

  // ---------------------------------------------------------------------------
  // The positional slot array

  /** `slots[i] = node` on a JavaScript array: writing past the end extends it with holes. */
  function SetSlot(slots: seq<Option<NodeId>>, i: nat, node: NodeId): (r: seq<Option<NodeId>>)
    ensures |r| == if i < |slots| then |slots| else i + 1
    ensures r[i] == Some(node)
    ensures forall j :: 0 <= j < |r| && j != i ==> r[j] == if j < |slots| then slots[j] else None
  {
    if i < |slots| then slots[i := Some(node)]
    else slots + seq(i - |slots|, _ => None) + [Some(node)]
  }

  /** Mounting writes each node at its own ordinal, so once pages 0..n-1 are mounted, in
      whatever order, the compacted slots list the nodes in page order. */
  lemma MountedInPageOrder(slots: seq<Option<NodeId>>, nodes: seq<NodeId>)
    requires |slots| == |nodes|
    requires forall j :: 0 <= j < |slots| ==> slots[j] == Some(nodes[j])
    ensures Compact(slots) == nodes
  {
    CompactFull(slots);
  }

  /** The page-set decision of the children effect. */
  datatype Decision = Decision(replace: bool, clear: bool)

  /** Skip when the optimisation flag is set and the length is unchanged; otherwise replace
      the page set, clearing the engine first when the set shrinks and an engine exists. */
  function Decide(renderOnlyPageLengthChange: bool, oldLength: nat, newLength: nat, hasEngine: bool): (d: Decision)
    ensures !d.replace <==> renderOnlyPageLengthChange && newLength == oldLength
    ensures d.clear <==> d.replace && newLength < oldLength && hasEngine
    ensures d.clear ==> d.replace
  {
    if !renderOnlyPageLengthChange || oldLength != newLength then
      Decision(true, newLength < oldLength && hasEngine)
    else
      Decision(false, false)
  }
}
