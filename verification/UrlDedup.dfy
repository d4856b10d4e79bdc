/** The canonical form of a URL under which repeated requests for one resource
    are recognised. */
module UrlDedup {
  import opened Wrappers
  import opened Sorting

  datatype Param = Param(name: string, value: string)

  /** A parsed URL: all before the query, the decoded query, the fragment. */
  datatype Url = Url(base: string, query: seq<Param>, fragment: string)

  /** The URL parser and serialiser, and lower-casing of names. */
  datatype Codec = Codec(parse: string -> Option<Url>, serialise: Url -> string, lower: string -> string)

  /** If a string parses, then whatever query replaces its own, parsing undoes
      serialising. Nothing is asked of strings that do not parse. */
  ghost predicate Inverse(c: Codec, s: string) {
    c.parse(s).Some? ==>
      forall q: seq<Param> ::
        c.parse(c.serialise(Url(c.parse(s).value.base, q, ""))) == Some(Url(c.parse(s).value.base, q, ""))
  }

  const STRIP_PARAMS: set<string> := {
    "_", "__", "t", "ts", "timestamp", "v", "ver", "version", "cache", "cb", "nocache", "rand", "random", "r", "bust",
    "token", "auth", "signature", "sig", "sign", "expire", "expires", "e", "st", "nva", "nvb",
    "utm_source", "utm_medium", "utm_campaign", "utm_term", "utm_content",
    "fbclid", "gclid", "msclkid", "twclid", "ref", "referer", "referrer", "source",
    "start", "end", "begin", "offset", "sq", "rn", "rbuf"
  }

  predicate Stripped(c: Codec, name: string) {
    c.lower(name) in STRIP_PARAMS
  }

  // ---- the order of names ------------------------------------------------------

  predicate Le(a: string, b: string) {
    a == "" || (b != "" && (a[0] < b[0] || (a[0] == b[0] && Le(a[1..], b[1..]))))
  }

  lemma {:induction false} LeTotal(a: string, b: string)
    ensures Le(a, b) || Le(b, a)
  {
    if a != "" && b != "" && a[0] == b[0] {
      LeTotal(a[1..], b[1..]);
    }
  }

  lemma {:induction false} LeAntisymmetric(a: string, b: string)
    requires Le(a, b) && Le(b, a)
    ensures a == b
  {
    if a != "" && b != "" {
      LeAntisymmetric(a[1..], b[1..]);
      assert a == [a[0]] + a[1..] && b == [b[0]] + b[1..];
    }
  }

  lemma {:induction false} LeTransitive(a: string, b: string, c: string)
    requires Le(a, b) && Le(b, c)
    ensures Le(a, c)
  {
    if a != "" && b != "" && c != "" && a[0] == b[0] && b[0] == c[0] {
      LeTransitive(a[1..], b[1..], c[1..]);
    }
  }

  // ---- stable sorting -------------------------------------------------------------

  /** Parameters are ordered by name alone. */
  predicate InOrder(p: Param, q: Param) {
    Le(p.name, q.name)
  }

  lemma NamesArePreordered()
    ensures Preorder(InOrder)
  {
    forall p: Param, q: Param ensures InOrder(p, q) || InOrder(q, p) {
      LeTotal(p.name, q.name);
    }
    forall p: Param, q: Param, r: Param | InOrder(p, q) && InOrder(q, r) ensures InOrder(p, r) {
      LeTransitive(p.name, q.name, r.name);
    }
  }

  /** The values given for a name, in order. */
  function Values(q: seq<Param>, name: string): seq<string> {
    if q == [] then [] else (if q[0].name == name then [q[0].value] else []) + Values(q[1..], name)
  }

  lemma {:induction false} ValuesConcat(a: seq<Param>, b: seq<Param>, name: string)
    ensures Values(a + b, name) == Values(a, name) + Values(b, name)
  {
    if a == [] {
      assert a + b == b;
    } else {
      assert (a + b)[1..] == a[1..] + b;
      ValuesConcat(a[1..], b, name);
    }
  }

  lemma {:induction false} InsertValues(sorted: seq<Param>, p: Param, name: string)
    ensures Values(Insert(sorted, p, InOrder), name) == Values(sorted, name) + Values([p], name)
  {
    if sorted == [] || InOrder(sorted[|sorted| - 1], p) {
      ValuesConcat(sorted, [p], name);
    } else {
      var front, last := sorted[..|sorted| - 1], sorted[|sorted| - 1];
      InsertValues(front, p, name);
      ValuesConcat(Insert(front, p, InOrder), [last], name);
      assert sorted == front + [last];
      ValuesConcat(front, [last], name);
      assert last.name != p.name by { LeTotal(last.name, p.name); }
    }
  }

  /** Sorting keeps the values of every name in their order. */
  lemma {:induction false} SortKeepsValues(q: seq<Param>, name: string)
    ensures Values(StableSort(q, InOrder), name) == Values(q, name)
  {
    if q != [] {
      var front, last := q[..|q| - 1], q[|q| - 1];
      SortKeepsValues(front, name);
      InsertValues(StableSort(front, InOrder), last, name);
      assert q == front + [last];
      ValuesConcat(front, [last], name);
    }
  }

  lemma {:induction false} FirstIsLeast(q: seq<Param>, name: string)
    requires Ascending(q, InOrder) && Values(q, name) != []
    ensures q != [] && Le(q[0].name, name)
  {
    if q[0].name == name {
      LeTotal(name, name);
    } else {
      FirstIsLeast(q[1..], name);
      assert InOrder(q[0], q[1]);
      LeTransitive(q[0].name, q[1].name, name);
    }
  }

  /** Two sorted lists that give every name the same values are the same list. */
  lemma {:induction false} SortedUnique(q: seq<Param>, r: seq<Param>)
    requires Ascending(q, InOrder) && Ascending(r, InOrder) && forall name :: Values(q, name) == Values(r, name)
    ensures q == r
  {
    if q == [] {
      if r != [] { assert Values(q, r[0].name) == Values(r, r[0].name); }
    } else {
      assert Values(q, q[0].name) == Values(r, q[0].name);
      FirstIsLeast(r, q[0].name);
      assert Values(q, r[0].name) == Values(r, r[0].name);
      FirstIsLeast(q, r[0].name);
      LeAntisymmetric(q[0].name, r[0].name);
      assert q[0].value == Values(q, q[0].name)[0] == r[0].value;
      forall name ensures Values(q[1..], name) == Values(r[1..], name) {
        assert Values(q, name) == Values(r, name);
        assert Values(q[1..], name) == Values(q, name)[|Values(q, name)| - |Values(q[1..], name)|..];
      }
      SortedUnique(q[1..], r[1..]);
    }
  }

  // ---- the canonical form ------------------------------------------------------------

  function Kept(c: Codec, q: seq<Param>): seq<Param> {
    if q == [] then [] else (if Stripped(c, q[0].name) then [] else [q[0]]) + Kept(c, q[1..])
  }

  lemma {:induction false} KeptValues(c: Codec, q: seq<Param>, name: string)
    ensures Values(Kept(c, q), name) == if Stripped(c, name) then [] else Values(q, name)
  {
    if q != [] {
      KeptValues(c, q[1..], name);
      ValuesConcat(if Stripped(c, q[0].name) then [] else [q[0]], Kept(c, q[1..]), name);
    }
  }

  function Normalised(c: Codec, u: Url): Url {
    Url(u.base, StableSort(Kept(c, u.query), InOrder), "")
  }

  function ResourceId(c: Codec, url: string): string {
    var u := c.parse(url);
    if u.Some? then c.serialise(Normalised(c, u.value)) else url
  }

  lemma NormalisedValues(c: Codec, u: Url, name: string)
    ensures Values(Normalised(c, u).query, name) == if Stripped(c, name) then [] else Values(u.query, name)
  {
    SortKeepsValues(Kept(c, u.query), name);
    KeptValues(c, u.query, name);
  }

  /** Two URLs stand for one resource: same place, and every parameter that
      counts has the same values in the same order. */
  ghost predicate SameResource(c: Codec, u: Url, v: Url) {
    u.base == v.base && forall name :: !Stripped(c, name) ==> Values(u.query, name) == Values(v.query, name)
  }

  lemma NormalisedExactly(c: Codec, u: Url, v: Url)
    ensures Normalised(c, u) == Normalised(c, v) <==> SameResource(c, u, v)
  {
    var nu, nv := Normalised(c, u), Normalised(c, v);
    if nu == nv {
      forall name | !Stripped(c, name) ensures Values(u.query, name) == Values(v.query, name) {
        NormalisedValues(c, u, name);
        NormalisedValues(c, v, name);
      }
    }
    if SameResource(c, u, v) {
      forall name ensures Values(nu.query, name) == Values(nv.query, name) {
        NormalisedValues(c, u, name);
        NormalisedValues(c, v, name);
      }
      NamesArePreordered();
      StableSortSorts(Kept(c, u.query), InOrder);
      StableSortSorts(Kept(c, v.query), InOrder);
      SortedUnique(nu.query, nv.query);
    }
  }

  /** A parameter makes no difference to a URL exactly when its name, in small
      letters, is in the table. */
  lemma OneParameterMore(c: Codec, u: Url, before: seq<Param>, p: Param, after: seq<Param>)
    requires u.query == before + after
    ensures Normalised(c, u.(query := before + [p] + after)) == Normalised(c, u) <==>
              c.lower(p.name) in STRIP_PARAMS
  {
    var v := u.(query := before + [p] + after);
    NormalisedExactly(c, v, u);
    forall name
      ensures Values(v.query, name)
           == Values(before, name) + (if p.name == name then [p.value] else []) + Values(after, name)
      ensures Values(u.query, name) == Values(before, name) + Values(after, name)
    {
      ValuesConcat(before + [p], after, name);
      ValuesConcat(before, [p], name);
      ValuesConcat(before, after, name);
      assert [p][1..] == [];
    }
    if Stripped(c, p.name) {
      assert SameResource(c, v, u);
    } else {
      assert |Values(v.query, p.name)| == |Values(u.query, p.name)| + 1;
    }
  }

  /** So a time stamp, a signature, a campaign, a referrer and a range are ignored
      in any spelling. */
  lemma StampsAreIgnored(c: Codec, u: Url, p: Param)
    ensures c.lower(p.name) in {"ts", "signature", "utm_source", "referer", "start"} ==>
              Normalised(c, u.(query := u.query + [p])) == Normalised(c, u)
  {
    OneParameterMore(c, u, u.query, p, []);
    assert u.query + [p] + [] == u.query + [p] && u.query + [] == u.query;
  }

  /** Two strings get the same id exactly when both are URLs of one resource,
      or neither is a URL and they are the same string. */
  lemma SameIdExactly(c: Codec, a: string, b: string)
    requires Inverse(c, a) && Inverse(c, b)
    ensures ResourceId(c, a) == ResourceId(c, b) <==>
              if c.parse(a).Some? && c.parse(b).Some? then SameResource(c, c.parse(a).value, c.parse(b).value)
              else a == b
  {
    var u, v := c.parse(a), c.parse(b);
    if u.Some? {
      assert c.parse(ResourceId(c, a)) == Some(Normalised(c, u.value));
    }
    if v.Some? {
      assert c.parse(ResourceId(c, b)) == Some(Normalised(c, v.value));
    }
    if u.Some? && v.Some? {
      NormalisedExactly(c, u.value, v.value);
    }
  }

  /** The id of an id is that id. */
  lemma IdIsIdempotent(c: Codec, url: string)
    requires Inverse(c, url)
    ensures ResourceId(c, ResourceId(c, url)) == ResourceId(c, url)
  {
    var u := c.parse(url);
    if u.Some? {
      var n := Normalised(c, u.value);
      forall name | !Stripped(c, name) ensures Values(n.query, name) == Values(u.value.query, name) {
        NormalisedValues(c, u.value, name);
      }
      NormalisedExactly(c, n, u.value);
    }
  }

  // ---- the URL object ------------------------------------------------------------------

  function Without(q: seq<Param>, name: string): seq<Param> {
    if q == [] then [] else (if q[0].name == name then [] else [q[0]]) + Without(q[1..], name)
  }

  /** What stays after deleting a list of names. */
  function WithoutAll(q: seq<Param>, names: seq<string>): seq<Param> {
    if q == [] then [] else (if q[0].name in names then [] else [q[0]]) + WithoutAll(q[1..], names)
  }

  lemma {:induction false} WithoutMore(q: seq<Param>, names: seq<string>, name: string)
    ensures Without(WithoutAll(q, names), name) == WithoutAll(q, names + [name])
  {
    if q != [] {
      WithoutMore(q[1..], names, name);
      var rest := WithoutAll(q[1..], names);
      if q[0].name !in names {
        assert WithoutAll(q, names) == [q[0]] + rest;
        assert ([q[0]] + rest)[1..] == rest;
      } else {
        assert WithoutAll(q, names) == rest;
      }
    }
  }

  lemma {:induction false} WithoutNone(q: seq<Param>)
    ensures WithoutAll(q, []) == q
  {
    if q != [] {
      WithoutNone(q[1..]);
    }
  }

  lemma {:induction false} WithoutStripped(c: Codec, q: seq<Param>, names: seq<string>)
    requires forall p :: p in q ==> (p.name in names <==> Stripped(c, p.name))
    ensures WithoutAll(q, names) == Kept(c, q)
  {
    if q != [] {
      assert q[0] in q;
      WithoutStripped(c, q[1..], names);
    }
  }

  class UrlObject {
    const base: string
    var params: seq<Param>
    var hash: string

    constructor (u: Url)
      ensures base == u.base && params == u.query && hash == u.fragment
    {
      base, params, hash := u.base, u.query, u.fragment;
    }

    method Delete(name: string)
      modifies this`params
      ensures params == Without(old(params), name)
    {
      params := Without(params, name);
    }
  }

  /** The names to delete, one entry per parameter that is to go. */
  method NamesToDelete(stripped: string -> bool, params: seq<Param>) returns (names: seq<string>)
    ensures forall p :: p in params ==> (p.name in names <==> stripped(p.name))
  {
    names := [];
    for i := 0 to |params|
      invariant forall p :: p in params[..i] ==> (p.name in names <==> stripped(p.name))
      invariant forall n :: n in names ==> stripped(n)
    {
      if stripped(params[i].name) {
        names := names + [params[i].name];
      }
      assert params[..i + 1] == params[..i] + [params[i]];
    }
    assert params[..|params|] == params;
  }

  method NormalizeUrlForDedup(c: Codec, url: string) returns (id: string)
    ensures id == ResourceId(c, url)
  {
    var parsed := c.parse(url);
    if parsed.None? {
      return url;
    }
    var u := new UrlObject(parsed.value);
    u.hash := "";
    var toDelete := NamesToDelete(name => Stripped(c, name), u.params);
    ghost var q := u.params;
    WithoutNone(q);
    for i := 0 to |toDelete|
      invariant u.params == WithoutAll(q, toDelete[..i]) && u.hash == ""
    {
      WithoutMore(q, toDelete[..i], toDelete[i]);
      assert toDelete[..i + 1] == toDelete[..i] + [toDelete[i]];
      u.Delete(toDelete[i]);
    }
    assert toDelete[..|toDelete|] == toDelete;
    WithoutStripped(c, q, toDelete);
    u.params := StableSort(u.params, InOrder);
    id := c.serialise(Url(u.base, u.params, u.hash));
  }
}
