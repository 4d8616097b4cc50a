/**
 The request's target URL, reduced to what the request builder touches: an
 opaque origin (scheme and host), the path as a sequence of segments with a
 flag for a trailing '/', and the query as a multimap from key to the ordered
 list of its values (Go's `url.Values`). The query-string encoding that Go
 re-parses and re-writes on every change is left to that library; the
 builder's observable effect is on the multimap, which is what is modelled.
 */
module Urls {

  type Query = map<string, seq<string>>

  datatype Url = Url(origin: string, path: seq<string>, trailingSlash: bool, query: Query)

  /** The values listed under `key`, in order; none when the key is absent. */
  function Values(q: Query, key: string): seq<string> {
    if key in q then q[key] else []
  }

  /** A parsed query never lists a key without at least one value. */
  predicate WellFormed(q: Query) {
    forall k :: k in q ==> |q[k]| > 0
  }

  /** `addQueryValue`: appends `val` after the values already under `key`. */
  function AddQueryValue(u: Url, key: string, val: string): (r: Url)
    ensures r.(query := u.query) == u
    ensures r.query.Keys == u.query.Keys + {key}
    ensures r.query[key] == Values(u.query, key) + [val]
    ensures |r.query[key]| == |Values(u.query, key)| + 1
    ensures forall k :: k in u.query && k != key ==> r.query[k] == u.query[k]
    ensures WellFormed(u.query) ==> WellFormed(r.query)
  {
    u.(query := u.query[key := Values(u.query, key) + [val]])
  }

  /** `setQueryValue`: whatever was under `key` is replaced by `val` alone. */
  function SetQueryValue(u: Url, key: string, val: string): (r: Url)
    ensures r.(query := u.query) == u
    ensures r.query.Keys == u.query.Keys + {key}
    ensures r.query[key] == [val]
    ensures forall k :: k in u.query && k != key ==> r.query[k] == u.query[k]
    ensures WellFormed(u.query) ==> WellFormed(r.query)
  {
    u.(query := u.query[key := [val]])
  }

  /** A second set on the same key overwrites the first entirely. */
  lemma SetThenSet(u: Url, key: string, v1: string, v2: string)
    ensures SetQueryValue(SetQueryValue(u, key, v1), key, v2) == SetQueryValue(u, key, v2)
  {
  }

  /** Setting the same value twice is the same as setting it once. */
  lemma SetIdempotent(u: Url, key: string, v: string)
    ensures SetQueryValue(SetQueryValue(u, key, v), key, v) == SetQueryValue(u, key, v)
  {
  }

  /** An add after a set on the same key keeps the set value first. */
  lemma SetThenAdd(u: Url, key: string, s: string, a: string)
    ensures AddQueryValue(SetQueryValue(u, key, s), key, a).query[key] == [s, a]
  {
  }

  /** Two adds on one key keep both values, in the order they were added. */
  lemma AddThenAdd(u: Url, key: string, a: string, b: string)
    ensures Values(AddQueryValue(AddQueryValue(u, key, a), key, b).query, key)
         == Values(u.query, key) + [a, b]
  {
  }
}
