/** Keyed reconciliation of the popup's task list: the children of a container
    are rewritten in place, reusing the element of every task that stays. */
module Reconcile {

  datatype Item = Item(taskId: string, data: nat)

  /** A child element. Its `taskId` is the empty string when it carries none. */
  class Element {
    const taskId: string
    var shown: Item

    constructor (item: Item)
      ensures taskId == item.taskId && shown == item
    {
      taskId, shown := item.taskId, item;
    }
  }

  // ---- child lists as values ---------------------------------------------------

  predicate Distinct(s: seq<Element>) {
    forall i, j :: 0 <= i < j < |s| ==> s[i] != s[j]
  }

  /** A list without the elements of `drop`, order kept. */
  function Minus(s: seq<Element>, drop: set<Element>): seq<Element> {
    if s == [] then [] else (if s[0] in drop then [] else [s[0]]) + Minus(s[1..], drop)
  }

  lemma {:induction false} MinusHas(s: seq<Element>, drop: set<Element>, e: Element)
    ensures e in Minus(s, drop) <==> e in s && e !in drop
  {
    if s != [] {
      MinusHas(s[1..], drop, e);
      assert e in s <==> e == s[0] || e in s[1..];
    }
  }

  lemma {:induction false} MinusConcat(a: seq<Element>, b: seq<Element>, drop: set<Element>)
    ensures Minus(a + b, drop) == Minus(a, drop) + Minus(b, drop)
  {
    if a == [] {
      assert a + b == b;
    } else {
      assert (a + b)[1..] == a[1..] + b;
      MinusConcat(a[1..], b, drop);
    }
  }

  lemma {:induction false} MinusNothing(s: seq<Element>, drop: set<Element>)
    requires forall e :: e in s ==> e !in drop
    ensures Minus(s, drop) == s
  {
    if s != [] {
      MinusNothing(s[1..], drop);
    }
  }

  lemma {:induction false} MinusAll(s: seq<Element>, drop: set<Element>)
    requires forall e :: e in s ==> e in drop
    ensures Minus(s, drop) == []
  {
    if s != [] {
      MinusAll(s[1..], drop);
    }
  }

  /** Taking one element out of the tail of a list. */
  lemma TakeOut(before: seq<Element>, after: seq<Element>, el: Element)
    requires el !in before
    ensures Minus(before + after, {el}) == before + Minus(after, {el})
    ensures after != [] && after[0] != el ==> Minus(after, {el}) == [after[0]] + Minus(after[1..], {el})
  {
    MinusConcat(before, after, {el});
    MinusNothing(before, {el});
  }

  lemma {:induction false} MinusTwice(s: seq<Element>, a: set<Element>, b: set<Element>)
    ensures Minus(Minus(s, a), b) == Minus(s, a + b)
  {
    if s != [] {
      MinusTwice(s[1..], a, b);
      MinusConcat(if s[0] in a then [] else [s[0]], Minus(s[1..], a), b);
    }
  }

  lemma {:induction false} MinusDistinct(s: seq<Element>, drop: set<Element>)
    requires Distinct(s)
    ensures Distinct(Minus(s, drop))
  {
    if s != [] {
      MinusDistinct(s[1..], drop);
      MinusHas(s[1..], drop, s[0]);
    }
  }

  /** Which element stands for an id: of the children that carry it, the last. */
  function OwnerTable(children: seq<Element>): map<string, Element> {
    if children == [] then map[]
    else
      var t := OwnerTable(children[..|children| - 1]);
      var last := children[|children| - 1];
      if last.taskId == "" then t else t[last.taskId := last]
  }

  lemma {:induction false} OwnerTableIsLast(children: seq<Element>, id: string)
    ensures id in OwnerTable(children) <==> id != "" && exists e | e in children :: e.taskId == id
    ensures id in OwnerTable(children) ==>
              exists k :: 0 <= k < |children| && children[k] == OwnerTable(children)[id] && children[k].taskId == id
                          && forall j :: k < j < |children| ==> children[j].taskId != id
  {
    if children != [] {
      var front := children[..|children| - 1];
      OwnerTableIsLast(front, id);
      assert children == front + [children[|children| - 1]];
      if children[|children| - 1].taskId == id && id != "" {
        assert children[|children| - 1] == OwnerTable(children)[id];
      } else if id in OwnerTable(front) {
        var k :| 0 <= k < |front| && front[k] == OwnerTable(front)[id] && front[k].taskId == id
                 && forall j :: k < j < |front| ==> front[j].taskId != id;
        assert children[k] == OwnerTable(children)[id];
      }
    }
  }

  /** A table files elements under their own ids and only lists children. */
  ghost predicate Files(table: map<string, Element>, kids: seq<Element>) {
    forall id :: id in table ==> table[id].taskId == id && table[id] in kids
  }

  lemma OwnerTableFiles(children: seq<Element>)
    ensures Files(OwnerTable(children), children)
  {
    forall id | id in OwnerTable(children)
      ensures OwnerTable(children)[id].taskId == id && OwnerTable(children)[id] in children
    {
      OwnerTableIsLast(children, id);
    }
  }

  /** With distinct, non-empty ids every child stands for its id. */
  lemma DistinctIdsAllOwn(children: seq<Element>)
    requires forall i, j :: 0 <= i < j < |children| ==> children[i].taskId != children[j].taskId
    requires forall e :: e in children ==> e.taskId != ""
    ensures Minus(children, OwnerTable(children).Values) == []
  {
    forall e | e in children ensures e in OwnerTable(children).Values {
      OwnerTableIsLast(children, e.taskId);
      assert OwnerTable(children)[e.taskId] == e;
    }
    MinusAll(children, OwnerTable(children).Values);
  }

  /** An element has one first occurrence. */
  lemma OneFirst(s: seq<Element>, e: Element, i: nat, k: nat)
    requires i < |s| && k < |s| && s[i] == e && s[k] == e && e !in s[..i] && e !in s[..k]
    ensures i == k
  {
  }

  // ---- the container --------------------------------------------------------------

  class Container {
    var children: seq<Element>
    /** Calls of insertBefore so far, the only thing that moves an element. */
    var moves: nat

    constructor (children: seq<Element>)
      ensures this.children == children && moves == 0
    {
      this.children := children;
      moves := 0;
    }

    method IndexOf(e: Element) returns (i: nat)
      requires e in children
      ensures i < |children| && children[i] == e && e !in children[..i]
    {
      i := 0;
      while children[i] != e
        invariant i < |children| && e !in children[..i]
        decreases |children| - i
      {
        i := i + 1;
      }
    }

    /** The element that follows `anchor`, or the first when there is no anchor. */
    method NextSibling(anchor: Element?, ghost at: nat) returns (next: Element?)
      requires if anchor == null then at == 0
               else 0 < at <= |children| && children[at - 1] == anchor && anchor !in children[..at - 1]
      ensures next == if at < |children| then children[at] else null
    {
      var i := 0;
      if anchor != null {
        i := IndexOf(anchor);
        OneFirst(children, anchor, i, at - 1);
        i := i + 1;
      }
      next := if i < |children| then children[i] else null;
    }

    /** Takes `el` out of the list if it is in it, then puts it before `next`. */
    method InsertBefore(el: Element, next: Element?, ghost before: seq<Element>, ghost after: seq<Element>)
      requires children == before + after && el !in before && el != next
      requires if after == [] then next == null else next == after[0] && after[0] !in before
      modifies this
      ensures children == before + [el] + Minus(after, {el}) && moves == old(moves) + 1
    {
      TakeOut(before, after, el);
      moves := moves + 1;
      children := Minus(children, {el});
      if next == null {
        children := children + [el];
        return;
      }
      assert children[|before|] == next && children[..|before|] == before;
      var i := IndexOf(next);
      OneFirst(children, next, i, |before|);
      children := children[..i] + [el] + children[i..];
    }

    method Remove(el: Element)
      modifies this`children
      ensures children == Minus(old(children), {el})
    {
      children := Minus(children, {el});
    }
  }

  // ---- reconciliation -----------------------------------------------------------------

  /** An item takes over the element of its id when it is the first to ask. */
  predicate TakesOver(kids: seq<Element>, items: seq<Item>, k: nat)
    requires k < |items|
  {
    items[k].taskId in OwnerTable(kids) && forall j | 0 <= j < k :: items[j].taskId != items[k].taskId
  }

  /** The element of each item: taken over where possible, otherwise a new one. */
  ghost predicate Assigned(kids: seq<Element>, items: seq<Item>, nodes: seq<Element>) {
    && |nodes| == |items| && Distinct(nodes)
    && forall k :: 0 <= k < |nodes| ==>
         && nodes[k].taskId == items[k].taskId
         && (if TakesOver(kids, items, k) then nodes[k] == OwnerTable(kids)[items[k].taskId] else nodes[k] !in kids)
  }

  /** Scans the children once; a later child with the same id wins. */
  method ExistingById(children: seq<Element>) returns (existing: map<string, Element>)
    ensures existing == OwnerTable(children)
  {
    existing := map[];
    for i := 0 to |children|
      invariant existing == OwnerTable(children[..i])
    {
      var el := children[i];
      assert children[..i + 1][..i] == children[..i];
      if el.taskId != "" {
        existing := existing[el.taskId := el];
      }
    }
    assert children[..|children|] == children;
  }

  /** The elements of a list, as a set. */
  function ElementsOf(s: seq<Element>): set<Element> {
    if s == [] then {} else ElementsOf(s[..|s| - 1]) + {s[|s| - 1]}
  }

  lemma {:induction false} ElementsOfAre(s: seq<Element>, e: Element)
    ensures e in ElementsOf(s) <==> e in s
  {
    if s != [] {
      ElementsOfAre(s[..|s| - 1], e);
      assert s == s[..|s| - 1] + [s[|s| - 1]];
    }
  }

  lemma ElementsOfMore(s: seq<Element>, e: Element)
    ensures ElementsOf(s + [e]) == ElementsOf(s) + {e}
  {
    assert (s + [e])[..|s|] == s;
  }

  /** The ids that items ask for. */
  function IdsOf(items: seq<Item>): set<string> {
    if items == [] then {} else IdsOf(items[..|items| - 1]) + {items[|items| - 1].taskId}
  }

  lemma {:induction false} IdsOfAre(items: seq<Item>, id: string)
    ensures id in IdsOf(items) <==> exists k :: 0 <= k < |items| && items[k].taskId == id
  {
    if items != [] {
      var n := |items| - 1;
      IdsOfAre(items[..n], id);
      if id in IdsOf(items[..n]) {
        var k :| 0 <= k < n && items[..n][k].taskId == id;
        assert items[k].taskId == id;
      } else if exists k :: 0 <= k < |items| && items[k].taskId == id {
        var k :| 0 <= k < |items| && items[k].taskId == id;
        assert k < n ==> items[..n][k].taskId == id;
      }
    }
  }

  lemma IdsOfMore(items: seq<Item>, i: nat)
    requires i < |items|
    ensures IdsOf(items[..i + 1]) == IdsOf(items[..i]) + {items[i].taskId}
  {
    assert items[..i + 1][..i] == items[..i];
  }

  /** What is left of the old children once some elements took their places. */
  function Rest(kids: seq<Element>, nodes: seq<Element>): seq<Element> {
    Minus(kids, ElementsOf(nodes))
  }

  /** Taking one more element out of what is left of the old children. */
  lemma NextRest(kids: seq<Element>, nodes: seq<Element>, el: Element)
    requires Distinct(kids)
    ensures var rest := Rest(kids, nodes);
            var now := Rest(kids, nodes + [el]);
            && Minus(rest, {el}) == now
            && (rest != [] && rest[0] == el ==> rest == [el] + now)
  {
    var rest := Rest(kids, nodes);
    ElementsOfMore(nodes, el);
    MinusTwice(kids, ElementsOf(nodes), {el});
    MinusDistinct(kids, ElementsOf(nodes));
    if rest != [] && rest[0] == el {
      MinusNothing(rest[1..], {el});
    }
  }

  lemma RestAvoidsNodes(kids: seq<Element>, nodes: seq<Element>, e: Element)
    ensures e in Rest(kids, nodes) ==> e !in nodes
  {
    ElementsOfAre(nodes, e);
    MinusHas(kids, ElementsOf(nodes), e);
  }

  /** As long as the nodes lead the old list, the rest is its remainder. */
  lemma RestOfPrefix(kids: seq<Element>, nodes: seq<Element>)
    requires Distinct(kids) && nodes <= kids
    ensures Rest(kids, nodes) == kids[|nodes|..]
  {
    var placed := ElementsOf(nodes);
    assert kids == nodes + kids[|nodes|..];
    MinusConcat(nodes, kids[|nodes|..], placed);
    forall e | e in nodes ensures e in placed { ElementsOfAre(nodes, e); }
    MinusAll(nodes, placed);
    forall e | e in kids[|nodes|..] ensures e !in placed {
      var j :| |nodes| <= j < |kids| && kids[j] == e;
      assert forall i :: 0 <= i < |nodes| ==> nodes[i] == kids[i] != e;
      ElementsOfAre(nodes, e);
    }
    MinusNothing(kids[|nodes|..], placed);
  }

  lemma LeadsOn(kids: seq<Element>, nodes: seq<Element>, el: Element)
    requires Distinct(kids)
    ensures var rest := Rest(kids, nodes);
            nodes + [el] <= kids <==> nodes <= kids && rest != [] && rest[0] == el
  {
    if nodes <= kids {
      RestOfPrefix(kids, nodes);
    }
  }

  /** The container while it is being rewritten: the nodes placed so far, then
      the rest of the old children; untouched so far exactly if they led those. */
  ghost predicate Arranged(container: Container, kids: seq<Element>, nodes: seq<Element>, moves: nat)
    reads container
  {
    && container.children == nodes + Rest(kids, nodes)
    && container.moves >= moves
    && (container.moves == moves <==> nodes <= kids)
  }

  /** Brings `el` to its place behind `anchor`, unless it is already there. */
  method Place(container: Container, el: Element, anchor: Element?,
               ghost kids: seq<Element>, ghost nodes: seq<Element>, ghost moves: nat)
    requires Distinct(kids) && el !in nodes
    requires Arranged(container, kids, nodes, moves)
    requires if nodes == [] then anchor == null
             else anchor == nodes[|nodes| - 1] && anchor !in nodes[..|nodes| - 1]
    modifies container
    ensures Arranged(container, kids, nodes + [el], moves)
  {
    ghost var rest := Rest(kids, nodes);
    NextRest(kids, nodes, el);
    LeadsOn(kids, nodes, el);
    assert nodes != [] ==> (nodes + rest)[..|nodes| - 1] == nodes[..|nodes| - 1];
    var next := container.NextSibling(anchor, |nodes|);
    if next != el {
      if rest != [] {
        RestAvoidsNodes(kids, nodes, rest[0]);
      }
      container.InsertBefore(el, next, nodes, rest);
    }
  }

  /** The choice of an element for one item, after the earlier ones. */
  ghost predicate Fitting(kids: seq<Element>, items: seq<Item>, front: seq<Element>, el: Element) {
    && |front| < |items| && el !in front
    && var item := items[|front|];
    && el.taskId == item.taskId
    && if item.taskId in OwnerTable(kids) && item.taskId !in IdsOf(items[..|front|])
       then el == OwnerTable(kids)[item.taskId] else el !in kids
  }

  /** `Assigned`, step by step. */
  ghost predicate Chosen(kids: seq<Element>, items: seq<Item>, nodes: seq<Element>) {
    nodes == [] || (var n := |nodes| - 1; Chosen(kids, items, nodes[..n]) && Fitting(kids, items, nodes[..n], nodes[n]))
  }

  lemma ChosenMore(kids: seq<Element>, items: seq<Item>, nodes: seq<Element>, el: Element)
    requires Chosen(kids, items, nodes) && Fitting(kids, items, nodes, el)
    ensures Chosen(kids, items, nodes + [el])
  {
    assert (nodes + [el])[..|nodes|] == nodes;
  }

  lemma TakesOverUnused(kids: seq<Element>, items: seq<Item>, i: nat)
    requires i < |items|
    ensures TakesOver(kids, items, i) <==>
              items[i].taskId in OwnerTable(kids) && items[i].taskId !in IdsOf(items[..i])
  {
    IdsOfAre(items[..i], items[i].taskId);
    assert forall j | 0 <= j < i :: items[..i][j] == items[j];
  }

  lemma {:induction false} ChosenAt(kids: seq<Element>, items: seq<Item>, nodes: seq<Element>, k: nat)
    requires Chosen(kids, items, nodes) && k < |nodes|
    ensures |nodes| <= |items| && Fitting(kids, items, nodes[..k], nodes[k])
  {
    var n := |nodes| - 1;
    if k < n {
      ChosenAt(kids, items, nodes[..n], k);
      assert nodes[..n][..k] == nodes[..k];
    }
  }

  lemma ChosenIsAssigned(kids: seq<Element>, items: seq<Item>, nodes: seq<Element>)
    requires Chosen(kids, items, nodes) && |nodes| == |items|
    ensures Assigned(kids, items, nodes)
  {
    forall k | 0 <= k < |nodes|
      ensures nodes[k].taskId == items[k].taskId
      ensures if TakesOver(kids, items, k) then nodes[k] == OwnerTable(kids)[items[k].taskId] else nodes[k] !in kids
    {
      ChosenAt(kids, items, nodes, k);
      TakesOverUnused(kids, items, k);
    }
    forall i, j | 0 <= i < j < |nodes| ensures nodes[i] != nodes[j] {
      ChosenAt(kids, items, nodes, j);
      assert nodes[..j][i] == nodes[i];
    }
  }

  /** An element whose id nobody asked for yet is not among the nodes. */
  lemma UnusedIsNew(kids: seq<Element>, items: seq<Item>, nodes: seq<Element>, el: Element)
    requires Chosen(kids, items, nodes) && |nodes| <= |items| && el.taskId !in IdsOf(items[..|nodes|])
    ensures el !in nodes
  {
    forall k | 0 <= k < |nodes| ensures nodes[k].taskId in IdsOf(items[..|nodes|]) {
      ChosenAt(kids, items, nodes, k);
      IdsOfAre(items[..|nodes|], nodes[k].taskId);
      assert items[..|nodes|][k] == items[k];
    }
  }

  /** The entries that no item asked for. */
  function Waiting(kids: seq<Element>, items: seq<Item>): map<string, Element> {
    OwnerTable(kids) - IdsOf(items)
  }

  lemma WaitingStep(kids: seq<Element>, items: seq<Item>, i: nat)
    requires i < |items|
    ensures var now := Waiting(kids, items[..i]);
            Waiting(kids, items[..i + 1]) == if items[i].taskId in now then now - {items[i].taskId} else now
  {
    IdsOfMore(items, i);
  }

  /** Each element shows the item it stands for. */
  ghost predicate ShowItems(nodes: seq<Element>, items: seq<Item>)
    reads nodes
  {
    |nodes| <= |items| && forall k :: 0 <= k < |nodes| ==> nodes[k].shown == items[k]
  }

  /** The element of one item: the one that waits under its id, or a new one. */
  method Obtain(existing: map<string, Element>, item: Item, ghost kids: seq<Element>, ghost items: seq<Item>,
                ghost nodes: seq<Element>)
    returns (el: Element, remaining: map<string, Element>)
    requires |nodes| < |items| && items[|nodes|] == item && Chosen(kids, items, nodes)
    requires existing == Waiting(kids, items[..|nodes|]) && ShowItems(nodes, items)
    modifies kids
    ensures Fitting(kids, items, nodes, el)
    ensures el in kids || fresh(el)
    ensures remaining == Waiting(kids, items[..|nodes| + 1])
    ensures ShowItems(nodes + [el], items)
  {
    OwnerTableFiles(kids);
    WaitingStep(kids, items, |nodes|);
    if item.taskId in existing {
      el := existing[item.taskId];
      remaining := existing - {item.taskId};
      UnusedIsNew(kids, items, nodes, el);
      el.shown := item;
    } else {
      el := new Element(item);
      remaining := existing;
    }
  }

  /** Removes the elements whose ids no item used. */
  method RemoveLeftovers(container: Container, existing: map<string, Element>,
                         ghost kids: seq<Element>, ghost items: seq<Item>, ghost nodes: seq<Element>)
    requires Chosen(kids, items, nodes) && |nodes| == |items|
    requires existing == Waiting(kids, items)
    requires container.children == nodes + Rest(kids, nodes)
    modifies container`children
    ensures container.children == nodes + Minus(kids, OwnerTable(kids).Values)
  {
    OwnerTableFiles(kids);
    ghost var placed := ElementsOf(nodes);
    var leftover := existing.Values;
    ghost var gone: set<Element> := {};
    assert placed + {} == placed;
    while leftover != {}
      invariant leftover + gone == existing.Values
      invariant container.children == nodes + Minus(kids, placed + gone)
      decreases leftover
    {
      var el :| el in leftover;
      assert el in existing.Values;
      assert items[..|nodes|] == items;
      UnusedIsNew(kids, items, nodes, el);
      TakeOut(nodes, Minus(kids, placed + gone), el);
      MinusTwice(kids, placed + gone, {el});
      assert placed + gone + {el} == placed + (gone + {el});
      container.Remove(el);
      leftover := leftover - {el};
      gone := gone + {el};
    }
    assert gone == existing.Values;
    ChosenIsAssigned(kids, items, nodes);
    AllAccountedFor(kids, items, nodes);
    MinusSame(kids, placed + gone, OwnerTable(kids).Values);
  }

  /** Of the old children, those placed or left over are those that own an id. */
  lemma AllAccountedFor(kids: seq<Element>, items: seq<Item>, nodes: seq<Element>)
    requires Assigned(kids, items, nodes)
    ensures forall e | e in kids ::
              e in OwnerTable(kids).Values <==> e in ElementsOf(nodes) || e in Waiting(kids, items).Values
  {
    OwnerTableFiles(kids);
    var table := OwnerTable(kids);
    var waiting := Waiting(kids, items);
    forall e | e in kids && e in table.Values ensures e in ElementsOf(nodes) || e in waiting.Values {
      assert table[e.taskId] == e;
      IdsOfAre(items, e.taskId);
      if e.taskId in IdsOf(items) {
        var k := FirstUse(items, |nodes|, e.taskId);
        assert TakesOver(kids, items, k) && nodes[k] == e;
        ElementsOfAre(nodes, e);
      } else {
        assert waiting[e.taskId] == e;
      }
    }
    forall e | e in kids && e in ElementsOf(nodes) ensures e in table.Values {
      ElementsOfAre(nodes, e);
      var k :| 0 <= k < |nodes| && nodes[k] == e;
      assert TakesOver(kids, items, k);
    }
  }

  lemma FirstUse(items: seq<Item>, n: nat, id: string) returns (k: nat)
    requires n <= |items| && exists k :: 0 <= k < n && items[k].taskId == id
    ensures k < n && items[k].taskId == id && forall j :: 0 <= j < k ==> items[j].taskId != id
  {
    k := 0;
    while items[k].taskId != id
      invariant k < n && forall j :: 0 <= j < k ==> items[j].taskId != id
      decreases n - k
    {
      k := k + 1;
    }
  }

  lemma {:induction false} MinusSame(s: seq<Element>, a: set<Element>, b: set<Element>)
    requires forall e :: e in s ==> (e in a <==> e in b)
    ensures Minus(s, a) == Minus(s, b)
  {
    if s != [] {
      MinusSame(s[1..], a, b);
    }
  }

  /** Everything that holds between two items of the loop. */
  ghost predicate Placing(container: Container, kids: seq<Element>, items: seq<Item>, nodes: seq<Element>,
                          existing: map<string, Element>, moves: nat)
    reads container, nodes
  {
    && |nodes| <= |items| && Chosen(kids, items, nodes)
    && existing == Waiting(kids, items[..|nodes|]) && ShowItems(nodes, items)
    && Arranged(container, kids, nodes, moves)
  }

  /** One round of the loop: obtain the element of the next item, then place it. */
  method PlaceItem(container: Container, existing: map<string, Element>, items: seq<Item>, i: nat, anchor: Element?,
                   ghost kids: seq<Element>, ghost nodes: seq<Element>, ghost moves: nat)
    returns (el: Element, remaining: map<string, Element>)
    requires Distinct(kids) && |nodes| == i < |items|
    requires Placing(container, kids, items, nodes, existing, moves)
    requires anchor == if nodes == [] then null else nodes[|nodes| - 1]
    modifies container, kids
    ensures Placing(container, kids, items, nodes + [el], remaining, moves)
    ensures el in kids || fresh(el)
  {
    el, remaining := Obtain(existing, items[i], kids, items, nodes);
    ChosenMore(kids, items, nodes, el);
    Place(container, el, anchor, kids, nodes, moves);
  }

  /** The loop over the items. */
  method PlaceAll(container: Container, table: map<string, Element>, items: seq<Item>, ghost kids: seq<Element>)
    returns (nodes: seq<Element>, existing: map<string, Element>)
    requires container.children == kids && Distinct(kids) && table == OwnerTable(kids)
    modifies container, kids
    ensures |nodes| == |items| && (forall e | e in nodes :: e in kids || fresh(e))
    ensures Placing(container, kids, items, nodes, existing, old(container.moves))
  {
    nodes, existing := [], table;
    MinusNothing(kids, {});
    var anchor: Element? := null;
    for i := 0 to |items|
      invariant |nodes| == i && (forall e | e in nodes :: e in kids || fresh(e))
      invariant Placing(container, kids, items, nodes, existing, old(container.moves))
      invariant anchor == if nodes == [] then null else nodes[|nodes| - 1]
    {
      anchor, existing := PlaceItem(container, existing, items, i, anchor, kids, nodes, old(container.moves));
      nodes := nodes + [anchor];
    }
  }

  /** Rewrites the children into the items' order. The result is the items'
      elements in item order, followed by whatever belonged to no id (untouched,
      in its old order); elements of vanished ids are gone. Nothing is moved
      exactly when the items' elements already led the list in that order. */
  method ReconcileTaskList(container: Container, items: seq<Item>) returns (nodes: seq<Element>)
    requires Distinct(container.children)
    modifies container, container.children
    ensures Assigned(old(container.children), items, nodes)
    ensures forall e | e in nodes :: e in old(container.children) || fresh(e)
    ensures container.children == nodes + Minus(old(container.children), OwnerTable(old(container.children)).Values)
    ensures ShowItems(nodes, items)
    ensures container.moves == old(container.moves) <==> nodes <= old(container.children)
  {
    ghost var kids := container.children;
    var existing := ExistingById(container.children);
    nodes, existing := PlaceAll(container, existing, items, kids);
    assert items[..|nodes|] == items;
    ChosenIsAssigned(kids, items, nodes);
    RemoveLeftovers(container, existing, kids, items, nodes);
  }

  /** With distinct ids on both sides, every task that stays keeps its element. */
  lemma SurvivorsKeepTheirElements(kids: seq<Element>, items: seq<Item>, nodes: seq<Element>)
    requires forall i, j :: 0 <= i < j < |kids| ==> kids[i].taskId != kids[j].taskId
    requires forall e :: e in kids ==> e.taskId != ""
    requires forall i, j :: 0 <= i < j < |items| ==> items[i].taskId != items[j].taskId
    requires Assigned(kids, items, nodes)
    ensures forall k, j | 0 <= k < |items| && 0 <= j < |kids| && kids[j].taskId == items[k].taskId ::
              nodes[k] == kids[j]
  {
    forall k, j | 0 <= k < |items| && 0 <= j < |kids| && kids[j].taskId == items[k].taskId
      ensures nodes[k] == kids[j]
    {
      OwnerTableIsLast(kids, kids[j].taskId);
      assert kids[j] in kids;
      assert OwnerTable(kids)[kids[j].taskId] == kids[j];
      assert TakesOver(kids, items, k);
    }
  }

  /** Then items in the order of the children get exactly those children. */
  lemma UnchangedOrder(kids: seq<Element>, items: seq<Item>, nodes: seq<Element>)
    requires forall i, j :: 0 <= i < j < |kids| ==> kids[i].taskId != kids[j].taskId
    requires forall e :: e in kids ==> e.taskId != ""
    requires |items| <= |kids| && forall k :: 0 <= k < |items| ==> items[k].taskId == kids[k].taskId
    requires Assigned(kids, items, nodes)
    ensures nodes == kids[..|items|]
  {
    SurvivorsKeepTheirElements(kids, items, nodes);
  }
}
