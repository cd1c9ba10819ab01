/**
 * Bit-mask codecs: filter masks, event-category-type masks and change
 * masks, converted between a mask and the ordered list of flag constants
 * whose bits are set.
 *
 * A mask is given by the positions of its set bits: bit k stands for the
 * value 1 << k, so `a & b` is `a * b`, `a | b` is `a + b` and
 * `a & b != 0` is `Meets(a, b)`.
 */
module Types {

  /** Bit positions of a 32-bit word. */
  type Bit = k: int | 0 <= k < 32

  /** A `uint32` used as a set of flags. */
  type Mask = set<Bit>

  /** Bit positions of a 16-bit word. */
  type Bit16 = k: int | 0 <= k < 16

  /** A `uint16` (`WORD`) used as a set of flags. */
  type Mask16 = set<Bit16>

  type Filter = Mask

  const OPC_FILTER_BY_EVENT: Filter := {0}     // 0x1
  const OPC_FILTER_BY_CATEGORY: Filter := {1}  // 0x2
  const OPC_FILTER_BY_SEVERITY: Filter := {2}  // 0x4
  const OPC_FILTER_BY_AREA: Filter := {3}      // 0x8
  const OPC_FILTER_BY_SOURCE: Filter := {4}    // 0x10

  /** The five filters in ascending order. */
  const FilterList: seq<Filter> := [OPC_FILTER_BY_EVENT, OPC_FILTER_BY_CATEGORY,
    OPC_FILTER_BY_SEVERITY, OPC_FILTER_BY_AREA, OPC_FILTER_BY_SOURCE]

  /** 0x1F: the bits of the five filters. */
  const FilterBits: Mask := {0, 1, 2, 3, 4}

  type EventCategoryType = Mask

  const OPC_SIMPLE_EVENT: EventCategoryType := {0}        // 0x1
  const OPC_TRACKING_EVENT: EventCategoryType := {1}      // 0x2
  const OPC_CONDITION_EVENT: EventCategoryType := {2}     // 0x4
  const OPC_ALL_EVENTS: EventCategoryType := {0, 1, 2}    // 0x7

  /** The three kinds of event, in ascending order. */
  const EventKinds: seq<EventCategoryType> := [OPC_SIMPLE_EVENT, OPC_TRACKING_EVENT, OPC_CONDITION_EVENT]

  /** The list `UnmarshalEventCategoryType` walks: the three kinds, then their union. */
  const EventCategoryList: seq<EventCategoryType> := EventKinds + [OPC_ALL_EVENTS]

  type ChangeMask = Mask16

  const OPC_CHANGE_ACTIVE_STATE: ChangeMask := {0}  // 0x1
  const OPC_CHANGE_ACK_STATE: ChangeMask := {1}     // 0x2
  const OPC_CHANGE_ENABLE_STATE: ChangeMask := {2}  // 0x4
  const OPC_CHANGE_QUALITY: ChangeMask := {3}       // 0x8
  const OPC_CHANGE_SEVERITY: ChangeMask := {4}      // 0x10
  const OPC_CHANGE_SUBCONDITION: ChangeMask := {5}  // 0x20
  const OPC_CHANGE_MESSAGE: ChangeMask := {6}       // 0x40
  const OPC_CHANGE_ATTRIBUTE: ChangeMask := {7}     // 0x80

  /** The eight change flags in ascending order. */
  const ChangeMaskList: seq<ChangeMask> := [OPC_CHANGE_ACTIVE_STATE, OPC_CHANGE_ACK_STATE,
    OPC_CHANGE_ENABLE_STATE, OPC_CHANGE_QUALITY, OPC_CHANGE_SEVERITY,
    OPC_CHANGE_SUBCONDITION, OPC_CHANGE_MESSAGE, OPC_CHANGE_ATTRIBUTE]

  /** 0xFF: the bits of the eight change flags. */
  const ChangeMaskBits: Mask16 := {0, 1, 2, 3, 4, 5, 6, 7}

  const OPC_CONDITION_ENABLED: Mask16 := {0}  // 0x1
  const OPC_CONDITION_ACTIVE: Mask16 := {1}   // 0x2
  const OPC_CONDITION_ACKED: Mask16 := {2}    // 0x4

  // ---------------------------------------------------------------------
  // Folds over a constant flag list

  /** `mask & f != 0`. */
  predicate Meets<T(!new)>(mask: set<T>, f: set<T>) {
    !(mask !! f)
  }

  /** A flag with exactly one bit. */
  predicate SingleBit<T(!new)>(f: set<T>) {
    f != {} && forall a, b :: a in f && b in f ==> a == b
  }

  /** Distinct single-bit flags: the shape of every constant list a parser walks. */
  predicate SingleBits<T(!new)>(flags: seq<set<T>>) {
    (forall f :: f in flags ==> SingleBit(f)) &&
    forall i, j :: 0 <= i < j < |flags| ==> flags[i] != flags[j]
  }

  /** `r` is `s` with some elements left out and the rest kept in order. */
  predicate IsSubsequence<T(!new)>(r: seq<set<T>>, s: seq<set<T>>)
    decreases |s|
  {
    if r == [] then true
    else if s == [] then false
    else if r[0] == s[0] then IsSubsequence(r[1..], s[1..])
    else IsSubsequence(r, s[1..])
  }

  /** The flags of `flags` that meet `mask`, kept in the order of `flags`. */
  function Select<T(!new)>(mask: set<T>, flags: seq<set<T>>): (r: seq<set<T>>)
    ensures forall f :: f in r <==> f in flags && Meets(mask, f)
    ensures IsSubsequence(r, flags)
  {
    if flags == [] then []
    else
      var rest := Select(mask, flags[1..]);
      assert forall f :: f in flags <==> f == flags[0] || f in flags[1..];
      if Meets(mask, flags[0]) then
        assert ([flags[0]] + rest)[1..] == rest;
        [flags[0]] + rest
      else
        SubsequenceSkip(rest, flags);
        rest
  }

  /** The union of the bits of every element: `x |= f` over the list. */
  function Union<T(!new)>(xs: seq<set<T>>): set<T> {
    if xs == [] then {} else xs[0] + Union(xs[1..])
  }

  /** A subsequence of a list's tail is a subsequence of the list. */
  lemma {:induction false} SubsequenceSkip<T(!new)>(r: seq<set<T>>, s: seq<set<T>>)
    requires s != [] && IsSubsequence(r, s[1..])
    ensures IsSubsequence(r, s)
    decreases |s|, 1
  {
    if r != [] && r[0] == s[0] {
      SubsequenceDropHead(r, s[1..]);
    }
  }

  /** Leaving out the first element of a subsequence keeps it a subsequence. */
  lemma {:induction false} SubsequenceDropHead<T(!new)>(r: seq<set<T>>, t: seq<set<T>>)
    requires r != [] && IsSubsequence(r, t)
    ensures IsSubsequence(r[1..], t)
    decreases |t| + 1, 0
  {
    if r[0] == t[0] {
      if r[1..] != [] {
        SubsequenceSkip(r[1..], t);
      }
    } else {
      SubsequenceDropHead(r, t[1..]);
      SubsequenceSkip(r[1..], t);
    }
  }

  lemma {:induction false} SubsequenceMembers<T(!new)>(r: seq<set<T>>, s: seq<set<T>>)
    requires IsSubsequence(r, s)
    ensures forall x :: x in r ==> x in s
    decreases |s|
  {
    if r != [] {
      if r[0] == s[0] {
        SubsequenceMembers(r[1..], s[1..]);
        assert forall x :: x in r ==> x == r[0] || x in r[1..];
      } else {
        SubsequenceMembers(r, s[1..]);
      }
      assert forall x :: x in s[1..] ==> x in s;
    }
  }

  lemma {:induction false} SubsequenceLength<T(!new)>(r: seq<set<T>>, s: seq<set<T>>)
    requires IsSubsequence(r, s)
    ensures |r| <= |s|
    decreases |s|
  {
    if r != [] {
      if r[0] == s[0] {
        SubsequenceLength(r[1..], s[1..]);
      } else {
        SubsequenceLength(r, s[1..]);
      }
    }
  }

  /** Every element of a list is included in the union of the list. */
  lemma {:induction false} UnionContains<T(!new)>(xs: seq<set<T>>, x: set<T>)
    requires x in xs
    ensures x <= Union(xs)
  {
    if xs[0] != x {
      assert x in xs[1..];
      UnionContains(xs[1..], x);
    }
  }

  /** The union of a list whose elements all appear in another is included in that one's union. */
  lemma {:induction false} UnionMonotonic<T(!new)>(xs: seq<set<T>>, ys: seq<set<T>>)
    requires forall y :: y in ys ==> y in xs
    ensures Union(ys) <= Union(xs)
  {
    if ys != [] {
      assert ys[0] in ys;
      assert forall y :: y in ys[1..] ==> y in ys;
      UnionMonotonic(xs, ys[1..]);
      UnionContains(xs, ys[0]);
    }
  }

  lemma {:induction false} UnionAppend<T(!new)>(xs: seq<set<T>>, ys: seq<set<T>>)
    ensures Union(xs + ys) == Union(xs) + Union(ys)
  {
    if xs == [] {
      assert xs + ys == ys;
    } else {
      assert (xs + ys)[0] == xs[0];
      assert (xs + ys)[1..] == xs[1..] + ys;
      UnionAppend(xs[1..], ys);
      assert Union(xs + ys) == xs[0] + Union(xs[1..] + ys);
    }
  }

  /** A flag meets the union of a list exactly when it meets one of the list's elements. */
  lemma {:induction false} MeetsUnion<T(!new)>(xs: seq<set<T>>, f: set<T>)
    ensures Meets(Union(xs), f) <==> exists x :: x in xs && Meets(x, f)
  {
    if xs != [] {
      MeetsUnion(xs[1..], f);
      assert forall x :: x in xs[1..] ==> x in xs;
      if Meets(Union(xs), f) {
        if Meets(xs[0], f) {
          assert xs[0] in xs;
        } else {
          assert Meets(Union(xs[1..]), f);
        }
      } else {
        forall x | x in xs ensures !Meets(x, f) {
          if x != xs[0] {
            assert x in xs[1..];
            UnionContains(xs[1..], x);
          }
        }
      }
    }
  }

  lemma SingleBitsTail<T(!new)>(flags: seq<set<T>>)
    requires flags != [] && SingleBits(flags)
    ensures SingleBits(flags[1..]) && SingleBit(flags[0])
    ensures forall f :: f in flags[1..] ==> f != flags[0] && flags[0] !! f
  {
    assert flags[0] in flags;
    forall f | f in flags[1..] ensures f != flags[0] && flags[0] !! f {
      var j :| 0 <= j < |flags[1..]| && flags[1..][j] == f;
      assert flags[j + 1] == f && f in flags;
    }
  }

  /** Masks that agree on every flag select the same flags. */
  lemma {:induction false} SelectAgree<T(!new)>(m1: set<T>, m2: set<T>, flags: seq<set<T>>)
    requires forall f :: f in flags ==> (Meets(m1, f) <==> Meets(m2, f))
    ensures Select(m1, flags) == Select(m2, flags)
  {
    if flags != [] {
      assert flags[0] in flags;
      assert forall f :: f in flags[1..] ==> f in flags;
      SelectAgree(m1, m2, flags[1..]);
    }
  }

  /** The union of the selected single-bit flags is the mask restricted to the flags' bits. */
  lemma {:induction false} UnionSelect<T(!new)>(m: set<T>, flags: seq<set<T>>)
    requires SingleBits(flags)
    ensures Union(Select(m, flags)) == m * Union(flags)
  {
    if flags != [] {
      SingleBitsTail(flags);
      UnionSelect(m, flags[1..]);
      var rest := Select(m, flags[1..]);
      if Meets(m, flags[0]) {
        assert Select(m, flags) == [flags[0]] + rest;
        assert ([flags[0]] + rest)[1..] == rest;
        assert flags[0] <= m;
      } else {
        assert Select(m, flags) == rest;
      }
    }
  }

  /**
   * Selecting with the union of an ordered sub-list of distinct single-bit
   * flags gives that sub-list back.
   */
  lemma {:induction false} SelectUnion<T(!new)>(l: seq<set<T>>, flags: seq<set<T>>)
    requires SingleBits(flags) && IsSubsequence(l, flags)
    ensures Select(Union(l), flags) == l
  {
    if flags != [] {
      SingleBitsTail(flags);
      var f := flags[0];
      if l != [] && l[0] == f {
        SubsequenceMembers(l[1..], flags[1..]);
        SelectUnion(l[1..], flags[1..]);
        forall g | g in flags[1..] ensures Meets(Union(l), g) <==> Meets(Union(l[1..]), g) {
          assert Union(l) == f + Union(l[1..]);
        }
        SelectAgree(Union(l), Union(l[1..]), flags[1..]);
        assert Meets(Union(l), f) by { assert f <= Union(l); }
        assert l == [l[0]] + l[1..];
      } else {
        assert IsSubsequence(l, flags[1..]);
        SubsequenceMembers(l, flags[1..]);
        SelectUnion(l, flags[1..]);
        MeetsUnion(l, f);
        assert !Meets(Union(l), f);
      }
    }
  }

  // ---------------------------------------------------------------------
  // Filters

  /** The filters whose bits are set in `filter`, in ascending order, each at most once. */
  function ParseFilter(filter: Mask): (r: seq<Filter>)
    ensures forall f :: f in r <==> f in FilterList && Meets(filter, f)
    ensures IsSubsequence(r, FilterList)
    ensures |r| <= 5
  {
    var r := Select(filter, FilterList);
    SubsequenceLength(r, FilterList);
    r
  }

  /** The OR of the given filters. */
  function MarshalFilter(filters: seq<Filter>): (filter: Mask)
    ensures filters == [] ==> filter == {}
    ensures forall f :: f in filters ==> f <= filter
  {
    forall f | f in filters ensures f <= Union(filters) {
      UnionContains(filters, f);
    }
    Union(filters)
  }

  lemma FilterListFacts()
    ensures SingleBits(FilterList)
    ensures Union(FilterList) == FilterBits
  {
    var l := FilterList;
    assert Union(l[4..]) == {4} by { assert l[4..][1..] == l[|l|..]; }
    assert Union(l[3..]) == {3, 4} by { assert l[3..][1..] == l[4..]; }
    assert Union(l[2..]) == {2, 3, 4} by { assert l[2..][1..] == l[3..]; }
    assert Union(l[1..]) == {1, 2, 3, 4} by { assert l[1..][1..] == l[2..]; }
  }

  /** Bits outside the five filter bits are ignored. */
  lemma ParseFilterIgnoresHighBits(m: Mask)
    ensures ParseFilter(m) == ParseFilter(m * FilterBits)
  {
    FilterListFacts();
    forall f | f in FilterList ensures Meets(m, f) <==> Meets(m * FilterBits, f) {
      UnionContains(FilterList, f);
    }
    SelectAgree(m, m * FilterBits, FilterList);
  }

  /** Parsing and re-marshalling a filter mask keeps exactly its five filter bits. */
  lemma MarshalParseFilter(m: Mask)
    ensures MarshalFilter(ParseFilter(m)) == m * FilterBits
  {
    FilterListFacts();
    UnionSelect(m, FilterList);
  }

  /** An ascending list of filters survives marshalling and parsing. */
  lemma ParseMarshalFilter(filters: seq<Filter>)
    requires IsSubsequence(filters, FilterList)
    ensures ParseFilter(MarshalFilter(filters)) == filters
  {
    FilterListFacts();
    SelectUnion(filters, FilterList);
  }

  // ---------------------------------------------------------------------
  // Event category types

  /** The OR of the given event-category types; an empty list gives 0. */
  function MarshalEventCategoryType(categories: seq<EventCategoryType>): (category: Mask)
    ensures categories == [] ==> category == {}
    ensures forall c :: c in categories ==> c <= category
  {
    forall c | c in categories ensures c <= Union(categories) {
      UnionContains(categories, c);
    }
    Union(categories)
  }

  /** The marshalled mask depends only on which types are listed, not on their order or repetition. */
  lemma MarshalEventCategoryTypeSetOnly(xs: seq<EventCategoryType>, ys: seq<EventCategoryType>)
    requires forall x :: x in xs <==> x in ys
    ensures MarshalEventCategoryType(xs) == MarshalEventCategoryType(ys)
  {
    UnionMonotonic(xs, ys);
    UnionMonotonic(ys, xs);
  }

  lemma {:induction false} SelectAppend<T(!new)>(m: set<T>, xs: seq<set<T>>, ys: seq<set<T>>)
    ensures Select(m, xs + ys) == Select(m, xs) + Select(m, ys)
  {
    if xs == [] {
      assert xs + ys == ys;
    } else {
      assert (xs + ys)[0] == xs[0];
      assert (xs + ys)[1..] == xs[1..] + ys;
      SelectAppend(m, xs[1..], ys);
      if Meets(m, xs[0]) {
        assert Select(m, xs + ys) == [xs[0]] + Select(m, xs[1..] + ys);
        assert Select(m, xs) == [xs[0]] + Select(m, xs[1..]);
      } else {
        assert Select(m, xs + ys) == Select(m, xs[1..] + ys);
      }
    }
  }

  /**
   * SIMPLE, TRACKING and CONDITION for their set bits, in that order, then
   * OPC_ALL_EVENTS whenever any of the three bits is set.
   */
  function UnmarshalEventCategoryType(category: Mask): (categories: seq<EventCategoryType>)
    ensures categories == Select(category, EventKinds)
                          + (if Meets(category, OPC_ALL_EVENTS) then [OPC_ALL_EVENTS] else [])
  {
    SelectAppend(category, EventKinds, [OPC_ALL_EVENTS]);
    Select(category, EventCategoryList)
  }

  /** A server mask with all three bits reads back as the four-element list. */
  lemma UnmarshalAllEvents()
    ensures UnmarshalEventCategoryType(OPC_ALL_EVENTS)
            == [OPC_SIMPLE_EVENT, OPC_TRACKING_EVENT, OPC_CONDITION_EVENT, OPC_ALL_EVENTS]
  {
    assert Meets(OPC_ALL_EVENTS, OPC_ALL_EVENTS) by { assert 0 in OPC_ALL_EVENTS; }
    var l := EventKinds;
    assert Select(OPC_ALL_EVENTS, l[2..]) == l[2..] by {
      assert Meets(OPC_ALL_EVENTS, l[2]) by { assert 2 in l[2]; }
      assert l[2..][1..] == l[|l|..];
    }
    assert Select(OPC_ALL_EVENTS, l[1..]) == l[1..] by {
      assert Meets(OPC_ALL_EVENTS, l[1]) by { assert 1 in l[1]; }
      assert l[1..][1..] == l[2..];
      assert l[1..] == [l[1]] + l[2..];
    }
    assert Select(OPC_ALL_EVENTS, l) == l by {
      assert Meets(OPC_ALL_EVENTS, l[0]) by { assert 0 in l[0]; }
      assert l == [l[0]] + l[1..];
    }
  }

  /** Re-marshalling an unmarshalled mask yields all three bits or none: a partial mask is not kept. */
  lemma RemarshalEventCategoryType(c: Mask)
    ensures MarshalEventCategoryType(UnmarshalEventCategoryType(c))
            == if Meets(c, OPC_ALL_EVENTS) then OPC_ALL_EVENTS else {}
  {
    var tail := if Meets(c, OPC_ALL_EVENTS) then [OPC_ALL_EVENTS] else [];
    assert SingleBits(EventKinds);
    UnionSelect(c, EventKinds);
    UnionAppend(Select(c, EventKinds), tail);
    assert Union(EventKinds) == OPC_ALL_EVENTS by {
      var l := EventKinds;
      assert Union(l[2..]) == {2} by { assert l[2..][1..] == l[|l|..]; }
      assert Union(l[1..]) == {1, 2} by { assert l[1..][1..] == l[2..]; }
    }
    assert Union(tail) == if Meets(c, OPC_ALL_EVENTS) then OPC_ALL_EVENTS else {};
  }

  // ---------------------------------------------------------------------
  // Change masks

  /** The change flags whose bits are set in `mask`, in ascending order, each at most once. */
  function ParseChangeMask(mask: Mask16): (r: seq<ChangeMask>)
    ensures forall m :: m in r <==> m in ChangeMaskList && Meets(mask, m)
    ensures IsSubsequence(r, ChangeMaskList)
    ensures |r| <= 8
  {
    var r := Select(mask, ChangeMaskList);
    SubsequenceLength(r, ChangeMaskList);
    SubsequenceMembers(r, ChangeMaskList);
    r
  }

  /** The OR of a list of change flags. */
  function MarshalChangeMask(l: seq<ChangeMask>): (mask: Mask16)
    ensures forall m :: m in l ==> m <= mask
  {
    forall m | m in l ensures m <= Union(l) {
      UnionContains(l, m);
    }
    Union(l)
  }

  lemma ChangeMaskSingleBits()
    ensures SingleBits(ChangeMaskList)
  {
    var l := ChangeMaskList;
    assert forall i :: 0 <= i < |l| ==> l[i] == {i};
  }

  lemma ChangeMaskUnion()
    ensures Union(ChangeMaskList) == ChangeMaskBits
  {
    var l := ChangeMaskList;
    assert Union(l[7..]) == {7} by { assert l[7..][1..] == l[|l|..]; }
    assert Union(l[6..]) == {6, 7} by { assert l[6..][1..] == l[7..]; }
    assert Union(l[5..]) == {5, 6, 7} by { assert l[5..][1..] == l[6..]; }
    assert Union(l[4..]) == {4, 5, 6, 7} by { assert l[4..][1..] == l[5..]; }
    assert Union(l[3..]) == {3, 4, 5, 6, 7} by { assert l[3..][1..] == l[4..]; }
    assert Union(l[2..]) == {2, 3, 4, 5, 6, 7} by { assert l[2..][1..] == l[3..]; }
    assert Union(l[1..]) == {1, 2, 3, 4, 5, 6, 7} by { assert l[1..][1..] == l[2..]; }
  }

  /** The eight change flags are single, distinct bits whose OR is 0xFF. */
  lemma ChangeMaskListFacts()
    ensures SingleBits(ChangeMaskList)
    ensures Union(ChangeMaskList) == ChangeMaskBits
  {
    ChangeMaskSingleBits();
    ChangeMaskUnion();
  }

  /** The flags are independent: the OR of the parsed list gives back the low eight bits. */
  lemma MarshalParseChangeMask(mask: Mask16)
    ensures MarshalChangeMask(ParseChangeMask(mask)) == mask * ChangeMaskBits
  {
    ChangeMaskListFacts();
    UnionSelect(mask, ChangeMaskList);
  }

  /** An ascending list of change flags survives marshalling and parsing. */
  lemma ParseMarshalChangeMask(l: seq<ChangeMask>)
    requires IsSubsequence(l, ChangeMaskList)
    ensures ParseChangeMask(MarshalChangeMask(l)) == l
  {
    ChangeMaskListFacts();
    SelectUnion(l, ChangeMaskList);
  }
}
