/** The redirect target as a structured value. A URL is kept as the origin
    taken from the base it was resolved against, its path, and the ordered
    list of query pairs held by its search parameters. Serialisation of the
    URL to text is not part of this model. */
module Urls {
  import opened Wrappers

  type Query = seq<(string, string)>

  datatype Url = Url(origin: string, path: string, query: Query)

  /** `new URL(path, base)` for an absolute-path reference: the base supplies
      the origin, the reference supplies the path, and the query is empty. */
  function Resolve(path: string, base: string): (u: Url)
  {
    Url(base, path, [])
  }

  /** `searchParams.append(key, value)`: one pair added at the end of the query. */
  function Append(u: Url, key: string, value: string): (r: Url)
  {
    u.(query := u.query + [(key, value)])
  }

  /** `searchParams.get(key)`: the value of the first pair whose key is `key`,
      or `None` when there is none. */
  function Get(query: Query, key: string): (r: Option<string>)
    ensures r.None? <==> forall i :: 0 <= i < |query| ==> query[i].0 != key
    ensures r.Some? ==>
      exists i :: 0 <= i < |query| && query[i] == (key, r.value) &&
        forall j :: 0 <= j < i ==> query[j].0 != key
  {
    if query == [] then None
    else if query[0].0 == key then Some(query[0].1)
    else
      var r := Get(query[1..], key);
      assert forall i :: 1 <= i < |query| ==> query[i] == query[1..][i - 1];
      r
  }

  /** `searchParams.append` on any query, not only the empty one of a freshly
      resolved URL: appending a pair adds `value` under `key` only when `key`
      had no value yet; every other lookup is unchanged. */
  lemma {:induction false} GetAppend(query: Query, key: string, value: string, k: string)
    ensures Get(query + [(key, value)], k) ==
      if k == key && Get(query, k).None? then Some(value) else Get(query, k)
  {
    if query != [] {
      assert (query + [(key, value)])[1..] == query[1..] + [(key, value)];
      GetAppend(query[1..], key, value, k);
    }
  }

  /** Round trip: reading back a parameter appended to a freshly resolved URL
      gives the appended value, and the URL keeps its origin and path. */
  lemma ResolveAppendGet(path: string, base: string, key: string, value: string)
    ensures Append(Resolve(path, base), key, value).origin == base
    ensures Append(Resolve(path, base), key, value).path == path
    ensures Append(Resolve(path, base), key, value).query == [(key, value)]
    ensures Get(Append(Resolve(path, base), key, value).query, key) == Some(value)
  {
  }
}
