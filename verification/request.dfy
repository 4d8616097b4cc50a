/**
 `newRequest`: the options are applied one after another, in the order the
 caller listed them, to a copy of the seed URL; nil entries are passed over.
 */
module Requests {
  import opened Wrappers
  import opened Urls
  import opened Decimal
  import opened Options

  function ApplyIfPresent(u: Url, o: Option<FilterOption>): Url {
    match o
    case None => u
    case Some(f) => Apply(u, f)
  }

  /**
   The URL once the loop has handled every entry of `opts`: the state after
   the first |opts| - 1 entries, then the last entry applied to it.
   */
  function NewRequest(u: Url, opts: seq<Option<FilterOption>>): (r: Url)
    ensures r.origin == u.origin
    ensures u.path <= r.path
    ensures WellFormed(u.query) ==> WellFormed(r.query)
  {
    if |opts| == 0 then u
    else ApplyIfPresent(NewRequest(u, opts[..|opts| - 1]), opts[|opts| - 1])
  }

  // Independent readings of what a list of options asks for.

  /** The hex filters, in caller order. */
  function HexValues(opts: seq<Option<FilterOption>>): seq<string> {
    if |opts| == 0 then []
    else
      var last := opts[|opts| - 1];
      HexValues(opts[..|opts| - 1])
        + (if last.Some? && last.value.HexSignature? then [last.value.hex] else [])
  }

  /** The text filters, in caller order. */
  function TextValues(opts: seq<Option<FilterOption>>): seq<string> {
    if |opts| == 0 then []
    else
      var last := opts[|opts| - 1];
      TextValues(opts[..|opts| - 1])
        + (if last.Some? && last.value.TextSignature? then [last.value.text] else [])
  }

  /** The page number of the last page option, if any. */
  function LastPage(opts: seq<Option<FilterOption>>): Option<int> {
    if |opts| == 0 then None
    else
      var last := opts[|opts| - 1];
      if last.Some? && last.value.Page? then Some(last.value.number)
      else LastPage(opts[..|opts| - 1])
  }

  /** The decimal ids of the id options, in caller order. */
  function IdSegments(opts: seq<Option<FilterOption>>): seq<string> {
    if |opts| == 0 then []
    else
      var last := opts[|opts| - 1];
      IdSegments(opts[..|opts| - 1])
        + (if last.Some? && last.value.Id? then [Itoa(last.value.id)] else [])
  }

  function PageValues(u: Url, opts: seq<Option<FilterOption>>): seq<string> {
    match LastPage(opts)
    case None => Values(u.query, PageKey)
    case Some(n) => [Itoa(n)]
  }

  /**
   The whole effect of `newRequest`: each hex and text filter adds its value
   once, in caller order, after what the URL already had; the last page
   option alone decides "page"; each id adds one path segment; no other key
   and nothing else of the URL changes.
   */
  lemma {:induction false} NewRequestEffect(u: Url, opts: seq<Option<FilterOption>>)
    ensures NewRequest(u, opts).origin == u.origin
    ensures NewRequest(u, opts).path == u.path + IdSegments(opts)
    ensures NewRequest(u, opts).trailingSlash == (u.trailingSlash && IdSegments(opts) == [])
    ensures Values(NewRequest(u, opts).query, HexKey) == Values(u.query, HexKey) + HexValues(opts)
    ensures Values(NewRequest(u, opts).query, TextKey) == Values(u.query, TextKey) + TextValues(opts)
    ensures Values(NewRequest(u, opts).query, PageKey) == PageValues(u, opts)
    ensures forall k :: k != PageKey && k != HexKey && k != TextKey ==>
      Values(NewRequest(u, opts).query, k) == Values(u.query, k)
  {
    PathEffect(u, opts);
    HexEffect(u, opts);
    TextEffect(u, opts);
    PageEffect(u, opts);
    forall k | k != PageKey && k != HexKey && k != TextKey
      ensures Values(NewRequest(u, opts).query, k) == Values(u.query, k)
    {
      OtherKeyEffect(u, opts, k);
    }
  }

  // One induction per part of the effect keeps each proof small.

  lemma {:induction false} PathEffect(u: Url, opts: seq<Option<FilterOption>>)
    ensures NewRequest(u, opts).path == u.path + IdSegments(opts)
    ensures NewRequest(u, opts).trailingSlash == (u.trailingSlash && IdSegments(opts) == [])
  {
    if |opts| > 0 {
      var init := opts[..|opts| - 1];
      PathEffect(u, init);
      var last := opts[|opts| - 1];
      if last.Some? && last.value.Id? {
        assert NewRequest(u, opts).path == u.path + IdSegments(init) + [Itoa(last.value.id)];
      }
    }
  }

  lemma {:induction false} HexEffect(u: Url, opts: seq<Option<FilterOption>>)
    ensures Values(NewRequest(u, opts).query, HexKey) == Values(u.query, HexKey) + HexValues(opts)
  {
    if |opts| > 0 {
      var init := opts[..|opts| - 1];
      HexEffect(u, init);
      var last := opts[|opts| - 1];
      if last.Some? && last.value.HexSignature? {
        assert Values(NewRequest(u, opts).query, HexKey)
            == Values(u.query, HexKey) + HexValues(init) + [last.value.hex];
      }
    }
  }

  lemma {:induction false} TextEffect(u: Url, opts: seq<Option<FilterOption>>)
    ensures Values(NewRequest(u, opts).query, TextKey) == Values(u.query, TextKey) + TextValues(opts)
  {
    if |opts| > 0 {
      var init := opts[..|opts| - 1];
      TextEffect(u, init);
      var last := opts[|opts| - 1];
      if last.Some? && last.value.TextSignature? {
        assert Values(NewRequest(u, opts).query, TextKey)
            == Values(u.query, TextKey) + TextValues(init) + [last.value.text];
      }
    }
  }

  lemma {:induction false} PageEffect(u: Url, opts: seq<Option<FilterOption>>)
    ensures Values(NewRequest(u, opts).query, PageKey) == PageValues(u, opts)
  {
    if |opts| > 0 {
      PageEffect(u, opts[..|opts| - 1]);
    }
  }

  lemma {:induction false} OtherKeyEffect(u: Url, opts: seq<Option<FilterOption>>, k: string)
    requires k != PageKey && k != HexKey && k != TextKey
    ensures Values(NewRequest(u, opts).query, k) == Values(u.query, k)
  {
    if |opts| > 0 {
      OtherKeyEffect(u, opts[..|opts| - 1], k);
    }
  }

  /** Running over `a + b` is running over `a`, then over `b` from there. */
  lemma {:induction false} NewRequestAppend(u: Url, a: seq<Option<FilterOption>>, b: seq<Option<FilterOption>>)
    ensures NewRequest(u, a + b) == NewRequest(NewRequest(u, a), b)
  {
    if |b| > 0 {
      assert (a + b)[..|a + b| - 1] == a + b[..|b| - 1];
      NewRequestAppend(u, a, b[..|b| - 1]);
    } else {
      assert a + b == a;
    }
  }

  /** The first option is applied first: a left fold in caller order. */
  lemma NewRequestFirstApplied(u: Url, o: Option<FilterOption>, rest: seq<Option<FilterOption>>)
    ensures NewRequest(u, [o] + rest) == NewRequest(ApplyIfPresent(u, o), rest)
  {
    NewRequestAppend(u, [o], rest);
    assert [o][..0] == [];
  }

  /** A nil entry anywhere in the list changes nothing. */
  lemma NilSkipped(u: Url, a: seq<Option<FilterOption>>, b: seq<Option<FilterOption>>)
    ensures NewRequest(u, a + [None] + b) == NewRequest(u, a + b)
  {
    NewRequestAppend(u, a + [None], b);
    NewRequestAppend(u, a, [None]);
    NewRequestAppend(u, a, b);
    var nil: seq<Option<FilterOption>> := [None];
    assert nil[..0] == [];
  }

  /** With no options the URL is the seed itself. */
  lemma {:induction false} NoOptionsNoChange(u: Url, opts: seq<Option<FilterOption>>)
    requires forall i :: 0 <= i < |opts| ==> opts[i] == None
    ensures NewRequest(u, opts) == u
  {
    if |opts| > 0 {
      NoOptionsNoChange(u, opts[..|opts| - 1]);
    }
  }
}
