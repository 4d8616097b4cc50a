/**
 The filter options a caller passes to the list operations, and the internal
 by-id option. Each is a value with a single `Apply`, matching the closure
 each Go constructor wraps.
 */
module Options {
  import opened Urls
  import opened Decimal
  import opened Wrappers

  const PageKey: string := "page"
  const HexKey: string := "hex_signature"
  const TextKey: string := "text_signature"

  datatype FilterOption =
    | Page(number: int)          // WithPageNumber
    | HexSignature(hex: string)  // WithHexSignature
    | TextSignature(text: string) // WithTextSignature
    | Id(id: int)                // withId (internal)

  /** What an option writes to: one query key, or the path. */
  datatype Target = QueryKey(key: string) | PathEnd

  function TargetOf(o: FilterOption): Target {
    match o
    case Page(_) => QueryKey(PageKey)
    case HexSignature(_) => QueryKey(HexKey)
    case TextSignature(_) => QueryKey(TextKey)
    case Id(_) => PathEnd
  }

  /**
   Applies one option. `Id` joins the decimal id onto the path; the rendering
   is never empty, never "." or "..", and holds no '/', so Go's path cleaning
   leaves it a single new segment, and the trailing slash goes because the
   joined element does not end in one.
   */
  function Apply(u: Url, o: FilterOption): (r: Url)
    ensures r.origin == u.origin
    ensures o.Id? ==> r.query == u.query && r.path == u.path + [Itoa(o.id)] && !r.trailingSlash
    ensures !o.Id? ==> r.path == u.path && r.trailingSlash == u.trailingSlash
    ensures forall k :: TargetOf(o) != QueryKey(k) ==> Values(r.query, k) == Values(u.query, k)
    ensures WellFormed(u.query) ==> WellFormed(r.query)
  {
    match o
    case Page(n) => SetQueryValue(u, PageKey, Itoa(n))
    case HexSignature(h) => AddQueryValue(u, HexKey, h)
    case TextSignature(t) => AddQueryValue(u, TextKey, t)
    case Id(n) => u.(path := u.path + [Itoa(n)], trailingSlash := false)
  }

  /** `WithPageNumber(n)` leaves exactly the decimal of `n` under "page". */
  lemma PageSetsDecimal(u: Url, n: int)
    ensures Values(Apply(u, Page(n)).query, PageKey) == [Itoa(n)]
    ensures n < 0 <==> Apply(u, Page(n)).query[PageKey][0][0] == '-'
    ensures ParseDecimal(Apply(u, Page(n)).query[PageKey][0]) == Some(n)
  {
    ItoaRoundTrip(n);
  }

  /** Two page options: only the later number survives. */
  lemma PageLastWriteWins(u: Url, a: int, b: int)
    ensures Values(Apply(Apply(u, Page(a)), Page(b)).query, PageKey) == [Itoa(b)]
    ensures Apply(Apply(u, Page(a)), Page(b)) == Apply(u, Page(b))
  {
  }

  /** Two hex filters: both values are sent, earlier first. */
  lemma HexAdditive(u: Url, s1: string, s2: string)
    ensures Values(Apply(Apply(u, HexSignature(s1)), HexSignature(s2)).query, HexKey)
         == Values(u.query, HexKey) + [s1, s2]
  {
  }

  /** Two text filters: both values are sent, earlier first. */
  lemma TextAdditive(u: Url, s1: string, s2: string)
    ensures Values(Apply(Apply(u, TextSignature(s1)), TextSignature(s2)).query, TextKey)
         == Values(u.query, TextKey) + [s1, s2]
  {
  }

  /** Options writing to different places may be applied in either order. */
  lemma DifferentTargetsCommute(u: Url, o1: FilterOption, o2: FilterOption)
    requires TargetOf(o1) != TargetOf(o2)
    ensures Apply(Apply(u, o1), o2) == Apply(Apply(u, o2), o1)
  {
    if !o1.Id? && !o2.Id? {
      QueryWritesCommute(u, TargetOf(o1).key, TargetOf(o2).key, o1, o2);
    }
  }

  /** The new value list an option puts under its key, given the old one. */
  function NewValues(prior: seq<string>, o: FilterOption): seq<string>
    requires !o.Id?
  {
    match o
    case Page(n) => [Itoa(n)]
    case HexSignature(h) => prior + [h]
    case TextSignature(t) => prior + [t]
  }

  lemma ApplyIsWrite(u: Url, o: FilterOption)
    requires !o.Id?
    ensures Apply(u, o) == u.(query := u.query[TargetOf(o).key := NewValues(Values(u.query, TargetOf(o).key), o)])
  {
  }

  lemma QueryWritesCommute(u: Url, k1: string, k2: string, o1: FilterOption, o2: FilterOption)
    requires k1 != k2 && !o1.Id? && !o2.Id?
    requires TargetOf(o1) == QueryKey(k1) && TargetOf(o2) == QueryKey(k2)
    ensures Apply(Apply(u, o1), o2) == Apply(Apply(u, o2), o1)
  {
    var q := u.query;
    var q1 := q[k1 := NewValues(Values(q, k1), o1)];
    var q2 := q[k2 := NewValues(Values(q, k2), o2)];
    assert Values(q1, k2) == Values(q, k2);
    assert Values(q2, k1) == Values(q, k1);
    assert q1[k2 := NewValues(Values(q, k2), o2)] == q2[k1 := NewValues(Values(q, k1), o1)];
    ApplyIsWrite(u, o1);
    ApplyIsWrite(u, o2);
    ApplyIsWrite(Apply(u, o1), o2);
    ApplyIsWrite(Apply(u, o2), o1);
  }

  /** Distinct options writing to the same place do not commute: order matters there. */
  lemma SameTargetOrderMatters(u: Url, o1: FilterOption, o2: FilterOption)
    requires TargetOf(o1) == TargetOf(o2)
    requires o1 != o2
    ensures Apply(Apply(u, o1), o2) != Apply(Apply(u, o2), o1)
  {
    var a := Apply(Apply(u, o1), o2);
    var b := Apply(Apply(u, o2), o1);
    match o1
    case Page(n1) =>
      ItoaInjective(n1, o2.number);
      assert a.query[PageKey] != b.query[PageKey];
    case HexSignature(h1) =>
      assert a.query[HexKey][|a.query[HexKey]| - 1] != b.query[HexKey][|b.query[HexKey]| - 1];
    case TextSignature(t1) =>
      assert a.query[TextKey][|a.query[TextKey]| - 1] != b.query[TextKey][|b.query[TextKey]| - 1];
    case Id(n1) =>
      ItoaInjective(n1, o2.id);
      assert a.path[|a.path| - 1] != b.path[|b.path| - 1];
  }
}
