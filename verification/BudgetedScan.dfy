/** Depth- and node-limited searches of parsed JSON: the media URL scan and the
    search for a DASH manifest. Both share one counter across the whole recursion;
    both are proved to see exactly a prefix of the tree's preorder. */
module BudgetedScan {
  import opened Wrappers

  /** Parsed JSON as a page script sees it; `keys[i]` names `items[i]`. */
  datatype Json =
    | Null
    | Bool(b: bool)
    | Number
    | String(s: string)
    | Array(items: seq<Json>)
    | Object(keys: seq<string>, items: seq<Json>)

  /** The tree cut below `maxDepth`, in preorder, starting at depth `d`. */
  function Preorder(v: Json, d: nat, maxDepth: nat): seq<Json>
    decreases v, 0
  {
    if d > maxDepth then []
    else if v.Array? || v.Object? then [v] + PreorderFrom(v.items, 0, d + 1, maxDepth)
    else [v]
  }

  /** The same for the values of a list from the `i`-th on. */
  function PreorderFrom(vs: seq<Json>, i: nat, d: nat, maxDepth: nat): seq<Json>
    requires i <= |vs|
    decreases vs, |vs| - i
  {
    if i == |vs| then [] else Preorder(vs[i], d, maxDepth) + PreorderFrom(vs, i + 1, d, maxDepth)
  }

  /** The whole tree in preorder, without any limit. */
  function Everything(v: Json): seq<Json>
    decreases v, 0
  {
    if v.Array? || v.Object? then [v] + EverythingFrom(v.items, 0) else [v]
  }

  function EverythingFrom(vs: seq<Json>, i: nat): seq<Json>
    requires i <= |vs|
    decreases vs, |vs| - i
  {
    if i == |vs| then [] else Everything(vs[i]) + EverythingFrom(vs, i + 1)
  }

  /** No value lies more than `levels` below this one. */
  ghost predicate Shallow(v: Json, levels: nat) {
    (v.Array? || v.Object?) && v.items != [] ==>
      levels > 0 && forall i | 0 <= i < |v.items| :: Shallow(v.items[i], levels - 1)
  }

  /** The depth limit is invisible on trees that do not reach it. */
  lemma {:induction false} ShallowPreorder(v: Json, d: nat, maxDepth: nat)
    requires d <= maxDepth && Shallow(v, maxDepth - d)
    ensures Preorder(v, d, maxDepth) == Everything(v)
    decreases v, 0
  {
    if (v.Array? || v.Object?) && v.items != [] {
      ShallowPreorderFrom(v.items, 0, d + 1, maxDepth);
    }
  }

  lemma {:induction false} ShallowPreorderFrom(vs: seq<Json>, i: nat, d: nat, maxDepth: nat)
    requires i <= |vs| && d <= maxDepth && forall j | 0 <= j < |vs| :: Shallow(vs[j], maxDepth - d)
    ensures PreorderFrom(vs, i, d, maxDepth) == EverythingFrom(vs, i)
    decreases vs, |vs| - i
  {
    if i < |vs| {
      ShallowPreorder(vs[i], d, maxDepth);
      ShallowPreorderFrom(vs, i + 1, d, maxDepth);
    }
  }

  /** Containers nested in one another, lists and objects as given. */
  function Nested(lists: seq<bool>): Json {
    if lists == [] then Null
    else if lists[0] then Array([Nested(lists[1..])])
    else Object(["in"], [Nested(lists[1..])])
  }

  /** Lists and objects count alike: of a value nested deeper than the limit the
      outermost levels are seen, one for each depth, and no more. */
  lemma {:induction false} NestingIsCut(lists: seq<bool>, d: nat, maxDepth: nat)
    requires d <= maxDepth
    ensures |Preorder(Nested(lists), d, maxDepth)| == 1 + Min(|lists|, maxDepth - d)
    decreases |lists|
  {
    if lists != [] {
      var items := Nested(lists).items;
      assert PreorderFrom(items, 1, d + 1, maxDepth) == [];
      assert PreorderFrom(items, 0, d + 1, maxDepth) == Preorder(items[0], d + 1, maxDepth);
      if d < maxDepth {
        NestingIsCut(lists[1..], d + 1, maxDepth);
      }
    }
  }

  function Min(a: nat, b: nat): nat { if a < b then a else b }

  /** The first `n` elements, or all of them. */
  function Take<T>(s: seq<T>, n: nat): seq<T> { s[..Min(n, |s|)] }

  /** A budget for two lists in a row goes to the first one first. */
  lemma TakeConcat<T>(a: seq<T>, b: seq<T>, n: nat)
    ensures |a| <= n ==> Take(a, n) == a && Take(a + b, n) == a + Take(b, n - |a|)
    ensures |a| > n ==> Take(a + b, n) == Take(a, n)
  {
  }

  // ---- media URLs ------------------------------------------------------------------

  const SCAN_DEPTH: nat := 20
  const SCAN_NODES: nat := 5000
  const STRING_LIMIT: nat := 4096

  predicate IsHttpUrl(url: string) { "http://" <= url || "https://" <= url }

  /** What a string value contributes: an absolute media URL or nothing. URL
      resolution (which may fail) and the media tables are parameters. */
  function MediaUrl(s: string, resolve: string -> Option<string>, isMedia: string -> bool): Option<string> {
    if |s| > STRING_LIMIT || '/' !in s then None
    else
      match resolve(s)
      case None => None
      case Some(abs) => if IsHttpUrl(abs) && isMedia(abs) then Some(abs) else None
  }

  /** The same as a function of the string alone. */
  function MediaOf(resolve: string -> Option<string>, isMedia: string -> bool): string -> Option<string> {
    s => MediaUrl(s, resolve, isMedia)
  }

  function Note(found: seq<string>, url: Option<string>): seq<string> {
    if url.Some? && url.value !in found then found + [url.value] else found
  }

  /** The URLs of a list of values, each once, in order of first appearance. */
  function Collect(found: seq<string>, vs: seq<Json>, media: string -> Option<string>): seq<string>
    decreases |vs|
  {
    if vs == [] then found
    else Collect(Note(found, if vs[0].String? then media(vs[0].s) else None), vs[1..], media)
  }

  lemma {:induction false} CollectConcat(found: seq<string>, a: seq<Json>, b: seq<Json>,
                                         media: string -> Option<string>)
    ensures Collect(found, a + b, media) == Collect(Collect(found, a, media), b, media)
    decreases |a|
  {
    if a == [] {
      assert a + b == b;
    } else {
      assert (a + b)[1..] == a[1..] + b;
      CollectConcat(Note(found, if a[0].String? then media(a[0].s) else None), a[1..], b, media);
    }
  }

  /** Collecting keeps what was found, adds exactly the URLs of the values, and
      repeats none. */
  lemma {:induction false} CollectExactly(found: seq<string>, vs: seq<Json>, media: string -> Option<string>)
    requires forall i, j :: 0 <= i < j < |found| ==> found[i] != found[j]
    ensures var r := Collect(found, vs, media);
            && (forall i, j :: 0 <= i < j < |r| ==> r[i] != r[j])
            && (forall u :: u in r <==> u in found || exists v :: v in vs && v.String? && media(v.s) == Some(u))
    decreases |vs|
  {
    if vs != [] {
      var next := Note(found, if vs[0].String? then media(vs[0].s) else None);
      CollectExactly(next, vs[1..], media);
      assert vs == [vs[0]] + vs[1..];
    }
  }

  /** After one child, whose values are `next`: either the scan of `next` and
      what follows it goes on from here, or the budget is spent and it is done. */
  lemma ScanRest(found: seq<string>, nodes: nat, next: seq<Json>, rest: seq<Json>, media: string -> Option<string>,
                 found': seq<string>, nodes': nat)
    requires nodes <= SCAN_NODES && nodes' == Min(nodes + |next|, SCAN_NODES + 1)
    requires found' == Collect(found, Take(next, SCAN_NODES - nodes), media)
    ensures Min(nodes' + |rest|, SCAN_NODES + 1) == Min(nodes + |next + rest|, SCAN_NODES + 1)
    ensures var whole := Collect(found, Take(next + rest, SCAN_NODES - nodes), media);
            whole == if nodes' <= SCAN_NODES then Collect(found', Take(rest, SCAN_NODES - nodes'), media) else found'
  {
    TakeConcat(next, rest, SCAN_NODES - nodes);
    if nodes' <= SCAN_NODES {
      CollectConcat(found, next, Take(rest, SCAN_NODES - nodes'), media);
    }
  }

  /** The count and the URLs at the end of a scan that still has the values of
      `rest` before it. */
  function Ending(found: seq<string>, nodes: nat, rest: seq<Json>, media: string -> Option<string>)
    : (nat, seq<string>)
  {
    (Min(nodes + |rest|, SCAN_NODES + 1),
     if nodes <= SCAN_NODES then Collect(found, Take(rest, SCAN_NODES - nodes), media) else found)
  }

  /** Scanning the `i`-th value of a list leaves the ending as it was. */
  lemma ScanOne(items: seq<Json>, i: nat, depth: nat, found: seq<string>, nodes: nat,
                media: string -> Option<string>, found': seq<string>, nodes': nat)
    requires i < |items| && nodes <= SCAN_NODES
    requires (nodes', found') == Ending(found, nodes, Preorder(items[i], depth, SCAN_DEPTH), media)
    ensures Ending(found', nodes', PreorderFrom(items, i + 1, depth, SCAN_DEPTH), media)
         == Ending(found, nodes, PreorderFrom(items, i, depth, SCAN_DEPTH), media)
  {
    var next, rest := Preorder(items[i], depth, SCAN_DEPTH), PreorderFrom(items, i + 1, depth, SCAN_DEPTH);
    ScanRest(found, nodes, next, rest, media, found', nodes');
  }

  /** A container spends one node and contributes no URL of its own. */
  lemma ScanContainer(found: seq<string>, v: Json, rest: seq<Json>, budget: nat, media: string -> Option<string>)
    requires !v.String? && budget > 0
    ensures Collect(found, Take([v] + rest, budget), media) == Collect(found, Take(rest, budget - 1), media)
  {
    assert Take([v] + rest, budget) == [v] + Take(rest, budget - 1);
  }

  class Scanner {
    const resolve: string -> Option<string>
    const isMedia: string -> bool
    var nodes: nat
    var found: seq<string>

    constructor (resolve: string -> Option<string>, isMedia: string -> bool)
      ensures this.resolve == resolve && this.isMedia == isMedia && nodes == 0 && found == []
    {
      this.resolve, this.isMedia := resolve, isMedia;
      nodes, found := 0, [];
    }

    /** What a string contributes, under the rules of this scan. */
    ghost function Media(): string -> Option<string> { MediaOf(resolve, isMedia) }

    /** Visits one value. However the recursion unfolds, the values processed are
        the next ones of the cut tree's preorder, as many as the budget allows. */
    method Visit(value: Json, depth: nat)
      requires nodes <= SCAN_NODES
      modifies this
      ensures nodes == Min(old(nodes) + |Preorder(value, depth, SCAN_DEPTH)|, SCAN_NODES + 1)
      ensures found == Collect(old(found), Take(Preorder(value, depth, SCAN_DEPTH), SCAN_NODES - old(nodes)), Media())
      decreases value, 1
    {
      if depth > SCAN_DEPTH {
        return;
      }
      nodes := nodes + 1;
      if nodes > SCAN_NODES {
        return;
      }
      if value.String? {
        found := Note(found, MediaUrl(value.s, resolve, isMedia));
        assert Take([value], SCAN_NODES - old(nodes)) == [value];
      } else if value.Array? || value.Object? {
        VisitEach(value.items, depth + 1);
        ghost var inside := PreorderFrom(value.items, 0, depth + 1, SCAN_DEPTH);
        ScanContainer(old(found), value, inside, SCAN_NODES - old(nodes), Media());
      } else {
        assert Take([value], SCAN_NODES - old(nodes)) == [value];
      }
    }

    /** The loop over an array's elements or an object's values. */
    method VisitEach(items: seq<Json>, depth: nat)
      requires nodes <= SCAN_NODES
      modifies this
      ensures nodes == Min(old(nodes) + |PreorderFrom(items, 0, depth, SCAN_DEPTH)|, SCAN_NODES + 1)
      ensures found
           == Collect(old(found), Take(PreorderFrom(items, 0, depth, SCAN_DEPTH), SCAN_NODES - old(nodes)), Media())
      decreases items, 0
    {
      ghost var ending := Ending(found, nodes, PreorderFrom(items, 0, depth, SCAN_DEPTH), Media());
      for i := 0 to |items|
        invariant nodes <= SCAN_NODES
        invariant Ending(found, nodes, PreorderFrom(items, i, depth, SCAN_DEPTH), Media()) == ending
      {
        ghost var was, spent := found, nodes;
        Visit(items[i], depth);
        ScanOne(items, i, depth, was, spent, Media(), found, nodes);
        if nodes > SCAN_NODES {
          return;
        }
      }
    }
  }

  method ScanForMediaUrls(root: Json, resolve: string -> Option<string>, isMedia: string -> bool)
    returns (urls: seq<string>)
    ensures urls == Collect([], Take(Preorder(root, 0, SCAN_DEPTH), SCAN_NODES), MediaOf(resolve, isMedia))
  {
    var scanner := new Scanner(resolve, isMedia);
    scanner.Visit(root, 0);
    urls := scanner.found;
  }

  /** Some value of the list is a string of at most 4096 characters with a slash
      that resolves to this URL. */
  ghost predicate Names(vs: seq<Json>, resolve: string -> Option<string>, u: string) {
    exists v :: v in vs && v.String? && |v.s| <= 4096 && '/' in v.s && resolve(v.s) == Some(u)
  }

  /** The URL begins with "http", perhaps an "s", and "://". */
  ghost predicate OverHttp(u: string) {
    exists rest: string :: u == "http" + "://" + rest || u == "https" + "://" + rest
  }

  lemma HttpExactly(u: string)
    ensures IsHttpUrl(u) <==> OverHttp(u)
  {
    if "http://" <= u {
      assert u == "http" + "://" + u[7..];
    } else if "https://" <= u {
      assert u == "https" + "://" + u[8..];
    }
    if rest: string :| u == "http" + "://" + rest || u == "https" + "://" + rest {
      assert u == "http://" + rest || u == "https://" + rest;
    }
  }

  /** The URLs collected from a list of values, each once, are exactly the media
      URLs over http that its strings name. */
  lemma CollectsMediaUrls(vs: seq<Json>, resolve: string -> Option<string>, isMedia: string -> bool)
    ensures var urls := Collect([], vs, MediaOf(resolve, isMedia));
            && (forall i, j :: 0 <= i < j < |urls| ==> urls[i] != urls[j])
            && (forall u :: u in urls <==> OverHttp(u) && isMedia(u) && Names(vs, resolve, u))
  {
    var media := MediaOf(resolve, isMedia);
    CollectExactly([], vs, media);
    forall v: Json, u | v.String?
      ensures media(v.s) == Some(u) <==>
                |v.s| <= 4096 && '/' in v.s && resolve(v.s) == Some(u) && OverHttp(u) && isMedia(u)
    {
      HttpExactly(u);
    }
  }

  /** For every tree the scan reports exactly the media URLs named by the first
      5000 values in preorder of the tree cut at depth 20. */
  lemma ScanReportsExactly(root: Json, resolve: string -> Option<string>, isMedia: string -> bool, u: string)
    ensures u in Collect([], Take(Preorder(root, 0, SCAN_DEPTH), SCAN_NODES), MediaOf(resolve, isMedia))
            <==> OverHttp(u) && isMedia(u) && Names(Take(Preorder(root, 0, 20), 5000), resolve, u)
  {
    CollectsMediaUrls(Take(Preorder(root, 0, SCAN_DEPTH), SCAN_NODES), resolve, isMedia);
  }

  /** On a tree within the two limits of the walk that is every string, and the
      report has each URL once, in order of first appearance. */
  lemma SmallTreesAreScannedWhole(root: Json, resolve: string -> Option<string>, isMedia: string -> bool)
    requires Shallow(root, 20) && |Everything(root)| <= 5000
    ensures var urls := Collect([], Take(Preorder(root, 0, SCAN_DEPTH), SCAN_NODES), MediaOf(resolve, isMedia));
            && urls == Collect([], Everything(root), MediaOf(resolve, isMedia))
            && (forall i, j :: 0 <= i < j < |urls| ==> urls[i] != urls[j])
            && (forall u :: u in urls <==> OverHttp(u) && isMedia(u) && Names(Everything(root), resolve, u))
  {
    ShallowPreorder(root, 0, SCAN_DEPTH);
    assert Take(Everything(root), SCAN_NODES) == Everything(root);
    CollectsMediaUrls(Everything(root), resolve, isMedia);
  }

  // ---- DASH manifests -----------------------------------------------------------------

  const DASH_DEPTH: nat := 12
  const DASH_NODES: nat := 3000

  function Field(v: Json, key: string): Option<Json> {
    if v.Object? then Find(v.keys, v.items, key) else None
  }

  function Find(keys: seq<string>, items: seq<Json>, key: string): Option<Json> {
    if keys == [] || items == [] then None
    else if keys[0] == key then Some(items[0])
    else Find(keys[1..], items[1..], key)
  }

  predicate HasString(v: Json, key: string) { Field(v, key).Some? && Field(v, key).value.String? }
  predicate HasNumber(v: Json, key: string) { Field(v, key).Some? && Field(v, key).value.Number? }

  /** A URL and at least one field that only a track carries. */
  predicate IsTrackLike(item: Json) {
    && (HasString(item, "baseUrl") || HasString(item, "base_url") || HasString(item, "url"))
    && (HasNumber(item, "bandwidth") || HasString(item, "codecs") || Field(item, "id").Some?
        || HasNumber(item, "width") || HasNumber(item, "height"))
  }

  datatype DashArrays = DashArrays(video: Option<seq<Json>>, audio: Option<seq<Json>>)

  function ArrayField(v: Json, key: string): Option<seq<Json>> {
    var f := Field(v, key);
    if f.Some? && f.value.Array? then Some(f.value.items) else None
  }

  predicate SomeTrack(items: Option<seq<Json>>) {
    items.Some? && exists k | 0 <= k < |items.value| :: IsTrackLike(items.value[k])
  }

  /** The manifest an object holds, if it has the shape of one. */
  function DashOf(v: Json): Option<DashArrays> {
    var arrays := DashArrays(ArrayField(v, "video"), ArrayField(v, "audio"));
    if v.Object? && (SomeTrack(arrays.video) || SomeTrack(arrays.audio)) then Some(arrays) else None
  }

  /** The first manifest among a list of values. */
  function FirstDash(vs: seq<Json>): Option<DashArrays>
    decreases |vs|
  {
    if vs == [] then None else if DashOf(vs[0]).Some? then DashOf(vs[0]) else FirstDash(vs[1..])
  }

  lemma {:induction false} FirstDashConcat(a: seq<Json>, b: seq<Json>)
    ensures FirstDash(a + b) == if FirstDash(a).Some? then FirstDash(a) else FirstDash(b)
    decreases |a|
  {
    if a == [] {
      assert a + b == b;
    } else {
      assert (a + b)[1..] == a[1..] + b;
      FirstDashConcat(a[1..], b);
    }
  }

  /** After one child, whose values are `next`: its manifest is the answer, or
      the search goes on from here, or the budget is spent and there is none. */
  lemma SearchRest(count: nat, next: seq<Json>, rest: seq<Json>, inner: Option<DashArrays>, count': nat)
    requires count <= DASH_NODES && inner == FirstDash(Take(next, DASH_NODES - count))
    requires inner.None? ==> count' == Min(count + |next|, DASH_NODES + 1)
    ensures inner.None? ==> Min(count' + |rest|, DASH_NODES + 1) == Min(count + |next + rest|, DASH_NODES + 1)
    ensures FirstDash(Take(next + rest, DASH_NODES - count))
         == if inner.Some? || count' > DASH_NODES then inner else FirstDash(Take(rest, DASH_NODES - count'))
  {
    TakeConcat(next, rest, DASH_NODES - count);
    if |next| <= DASH_NODES - count {
      FirstDashConcat(next, Take(rest, DASH_NODES - count - |next|));
    }
  }

  /** A value that is no manifest spends one node. */
  lemma SearchContainer(v: Json, rest: seq<Json>, budget: nat)
    requires budget > 0
    ensures FirstDash(Take([v] + rest, budget))
         == if DashOf(v).Some? then DashOf(v) else FirstDash(Take(rest, budget - 1))
  {
    assert Take([v] + rest, budget) == [v] + Take(rest, budget - 1);
  }

  class Budget {
    var count: nat

    constructor ()
      ensures count == 0
    {
      count := 0;
    }
  }

  /** Returns the first manifest among the values the shared budget still allows;
      when there is none, it has used exactly as much of the budget as it saw. */
  method FindDashNode(value: Json, depth: nat, budget: Budget) returns (found: Option<DashArrays>)
    requires budget.count <= DASH_NODES
    modifies budget
    ensures found == FirstDash(Take(Preorder(value, depth, DASH_DEPTH), DASH_NODES - old(budget.count)))
    ensures found.None? ==>
              budget.count == Min(old(budget.count) + |Preorder(value, depth, DASH_DEPTH)|, DASH_NODES + 1)
    decreases value, 1
  {
    if depth > DASH_DEPTH {
      return None;
    }
    budget.count := budget.count + 1;
    if budget.count > DASH_NODES {
      return None;
    }
    ghost var left := DASH_NODES - old(budget.count);
    SearchContainer(value, [], left);
    assert [value] + [] == [value];
    if !value.Array? && !value.Object? {
      return None;
    }
    SearchContainer(value, PreorderFrom(value.items, 0, depth + 1, DASH_DEPTH), left);
    if value.Object? {
      var dash := DashOf(value);
      if dash.Some? {
        return dash;
      }
    }
    found := FindInChildren(value.items, depth + 1, budget);
  }

  /** The loop over the children. */
  method FindInChildren(children: seq<Json>, depth: nat, budget: Budget) returns (found: Option<DashArrays>)
    requires budget.count <= DASH_NODES
    modifies budget
    ensures found == FirstDash(Take(PreorderFrom(children, 0, depth, DASH_DEPTH), DASH_NODES - old(budget.count)))
    ensures found.None? ==>
              budget.count == Min(old(budget.count) + |PreorderFrom(children, 0, depth, DASH_DEPTH)|, DASH_NODES + 1)
    decreases children, 0
  {
    ghost var rest := PreorderFrom(children, 0, depth, DASH_DEPTH);
    ghost var whole := FirstDash(Take(rest, DASH_NODES - budget.count));
    ghost var total := Min(budget.count + |rest|, DASH_NODES + 1);
    for i := 0 to |children|
      invariant rest == PreorderFrom(children, i, depth, DASH_DEPTH)
      invariant budget.count <= DASH_NODES && Min(budget.count + |rest|, DASH_NODES + 1) == total
      invariant FirstDash(Take(rest, DASH_NODES - budget.count)) == whole
    {
      ghost var spent, next := budget.count, Preorder(children[i], depth, DASH_DEPTH);
      rest := PreorderFrom(children, i + 1, depth, DASH_DEPTH);
      var inner := FindDashNode(children[i], depth, budget);
      SearchRest(spent, next, rest, inner, budget.count);
      if inner.Some? {
        return inner;
      }
      if budget.count > DASH_NODES {
        return None;
      }
    }
    found := None;
  }

  method FindDash(root: Json) returns (found: Option<DashArrays>)
    ensures found == FirstDash(Take(Preorder(root, 0, DASH_DEPTH), DASH_NODES))
  {
    var budget := new Budget();
    found := FindDashNode(root, 0, budget);
  }

  /** The first field of this name has this value. */
  ghost predicate FieldIs(v: Json, key: string, w: Json) {
    v.Object? && exists i :: 0 <= i < |v.keys| && i < |v.items| && v.keys[i] == key && v.items[i] == w
                             && forall j :: 0 <= j < i ==> v.keys[j] != key
  }

  lemma {:induction false} FindExactly(keys: seq<string>, items: seq<Json>, key: string) returns (k: nat)
    ensures k <= |keys| && k <= |items| && forall j :: 0 <= j < k ==> keys[j] != key
    ensures if k < |keys| && k < |items| then keys[k] == key && Find(keys, items, key) == Some(items[k])
            else Find(keys, items, key) == None
  {
    if keys == [] || items == [] || keys[0] == key {
      k := 0;
    } else {
      k := FindExactly(keys[1..], items[1..], key);
      k := k + 1;
    }
  }

  lemma FieldExactly(v: Json, key: string, w: Json)
    ensures Field(v, key) == Some(w) <==> FieldIs(v, key, w)
  {
    if v.Object? {
      var k := FindExactly(v.keys, v.items, key);
    }
  }

  ghost predicate TextAt(v: Json, key: string) { exists t: string :: FieldIs(v, key, String(t)) }
  ghost predicate NumberAt(v: Json, key: string) { exists w: Json :: w.Number? && FieldIs(v, key, w) }
  ghost predicate SomethingAt(v: Json, key: string) { exists w: Json :: FieldIs(v, key, w) }

  /** An address and something else that only a track has. */
  ghost predicate Track(v: Json) {
    && (TextAt(v, "baseUrl") || TextAt(v, "base_url") || TextAt(v, "url"))
    && (NumberAt(v, "bandwidth") || TextAt(v, "codecs") || SomethingAt(v, "id") || NumberAt(v, "width")
        || NumberAt(v, "height"))
  }

  lemma FieldKinds(v: Json, key: string)
    ensures HasString(v, key) <==> TextAt(v, key)
    ensures HasNumber(v, key) <==> NumberAt(v, key)
    ensures Field(v, key).Some? <==> SomethingAt(v, key)
  {
    forall w: Json ensures Field(v, key) == Some(w) <==> FieldIs(v, key, w) {
      FieldExactly(v, key, w);
    }
    if Field(v, key).Some? {
      assert FieldIs(v, key, Field(v, key).value);
      assert HasString(v, key) ==> Field(v, key).value == String(Field(v, key).value.s);
    }
  }

  lemma TrackExactly(v: Json)
    ensures IsTrackLike(v) <==> Track(v)
  {
    FieldKinds(v, "baseUrl"); FieldKinds(v, "base_url"); FieldKinds(v, "url");
    FieldKinds(v, "bandwidth"); FieldKinds(v, "codecs"); FieldKinds(v, "id");
    FieldKinds(v, "width"); FieldKinds(v, "height");
  }

  /** A list of this name with a track in it. */
  ghost predicate TracksAt(v: Json, key: string) {
    exists tracks: seq<Json>, k: nat :: k < |tracks| && FieldIs(v, key, Array(tracks)) && Track(tracks[k])
  }

  lemma TracksExactly(v: Json, key: string)
    ensures SomeTrack(ArrayField(v, key)) <==> TracksAt(v, key)
    ensures forall items: seq<Json> :: ArrayField(v, key) == Some(items) <==> FieldIs(v, key, Array(items))
  {
    forall items: seq<Json> ensures ArrayField(v, key) == Some(items) <==> FieldIs(v, key, Array(items)) {
      FieldExactly(v, key, Array(items));
    }
    forall t: Json ensures IsTrackLike(t) <==> Track(t) { TrackExactly(t); }
    if SomeTrack(ArrayField(v, key)) {
      var tracks := ArrayField(v, key).value;
      var k :| 0 <= k < |tracks| && IsTrackLike(tracks[k]);
      assert k as nat < |tracks| && FieldIs(v, key, Array(tracks)) && Track(tracks[k]);
    }
  }

  /** An object counts as a manifest exactly when its "video" or its "audio" is a
      list with a track in it; what is taken from it are those two lists. */
  lemma ManifestExactly(v: Json)
    ensures DashOf(v).Some? <==> TracksAt(v, "video") || TracksAt(v, "audio")
    ensures DashOf(v).Some? ==>
              forall items: seq<Json> ::
                && (DashOf(v).value.video == Some(items) <==> FieldIs(v, "video", Array(items)))
                && (DashOf(v).value.audio == Some(items) <==> FieldIs(v, "audio", Array(items)))
  {
    TracksExactly(v, "video");
    TracksExactly(v, "audio");
  }

  lemma {:induction false} FirstDashAt(vs: seq<Json>) returns (k: nat)
    ensures k <= |vs| && forall j :: 0 <= j < k ==> DashOf(vs[j]).None?
    ensures if k < |vs| then DashOf(vs[k]).Some? && FirstDash(vs) == DashOf(vs[k]) else FirstDash(vs) == None
  {
    if vs == [] || DashOf(vs[0]).Some? {
      k := 0;
    } else {
      k := FirstDashAt(vs[1..]);
      k := k + 1;
    }
  }

  ghost predicate Manifest(v: Json) { TracksAt(v, "video") || TracksAt(v, "audio") }

  /** What the search over a list finds is its first manifest. */
  lemma FirstDashIsFirst(vs: seq<Json>) returns (k: nat)
    ensures k <= |vs| && forall j :: 0 <= j < k ==> !Manifest(vs[j])
    ensures if k < |vs| then Manifest(vs[k]) && FirstDash(vs) == DashOf(vs[k]) else FirstDash(vs) == None
  {
    k := FirstDashAt(vs);
    forall j | 0 <= j < |vs| ensures DashOf(vs[j]).Some? <==> Manifest(vs[j]) {
      ManifestExactly(vs[j]);
    }
  }

  /** For every tree the search finds the first manifest among the first 3000
      values in preorder of the tree cut at depth 12. */
  lemma SearchFindsExactly(root: Json) returns (k: nat)
    ensures var seen := Take(Preorder(root, 0, 12), 3000);
            var found := FirstDash(Take(Preorder(root, 0, DASH_DEPTH), DASH_NODES));
            && k <= |seen| && (forall j :: 0 <= j < k ==> !Manifest(seen[j]))
            && if k < |seen| then Manifest(seen[k]) && found == DashOf(seen[k])
               else found == None
  {
    k := FirstDashIsFirst(Take(Preorder(root, 0, 12), 3000));
  }

  /** Within both limits the search is the unlimited one. */
  lemma SmallTreesAreSearchedWhole(root: Json)
    requires Shallow(root, 12) && |Everything(root)| <= 3000
    ensures FirstDash(Take(Preorder(root, 0, DASH_DEPTH), DASH_NODES)) == FirstDash(Everything(root))
  {
    ShallowPreorder(root, 0, DASH_DEPTH);
    assert Take(Everything(root), DASH_NODES) == Everything(root);
  }
}
