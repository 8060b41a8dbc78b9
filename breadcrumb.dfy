/**
 * The breadcrumb trail: its items, the structured-data script it keeps in
 * the document head (at most one), and the rendered list with a separator
 * between neighbouring items. The head is a sequence of nodes, each with an
 * identity; the script's JSON text is kept as the schema it encodes.
 */
module Breadcrumb {
  import opened Wrappers
  import opened Js
  import Seo

  /** A breadcrumb item; `url` is optional. */
  datatype BreadcrumbItem = BreadcrumbItem(caption: string, url: Option<string>)

  /** The schema's inputs: the label as name, and the url or the site's home page. */
  function SchemaItems(items: seq<BreadcrumbItem>): (r: seq<Seo.Crumb>)
    ensures |r| == |items|
    ensures forall i :: 0 <= i < |items| ==> r[i].name == items[i].caption
    ensures forall i :: 0 <= i < |items| ==> r[i].url == if Present(items[i].url) then items[i].url.value else Seo.SiteUrl
  {
    seq(|items|, i requires 0 <= i < |items| => Seo.Crumb(items[i].caption, PresentOr(items[i].url, Seo.SiteUrl)))
  }

  /** The structured data of a trail lists its items in order, numbered from 1, each linking to a page. */
  lemma TrailSchema(items: seq<BreadcrumbItem>, i: nat)
    requires i < |items|
    ensures var schema := Seo.BreadcrumbSchema(SchemaItems(items));
      |schema| == |items|
      && schema[i].position == i + 1
      && schema[i].name == items[i].caption
      && schema[i].item != ""
  {
    assert Seo.SiteUrl != "";
  }

  /** A node of the document head: a breadcrumb-schema script carries its schema; any other node has none. */
  datatype HeadNode = HeadNode(id: nat, isBreadcrumbScript: bool, schema: seq<Seo.ListItem>)

  /** `document.querySelector('script[data-breadcrumb-schema]')`: the first such script. */
  function FirstBreadcrumbScript(nodes: seq<HeadNode>): (r: Option<nat>)
    ensures r.Some? ==> r.value < |nodes| && nodes[r.value].isBreadcrumbScript
    ensures r.Some? ==> forall j :: 0 <= j < r.value ==> !nodes[j].isBreadcrumbScript
    ensures r.None? ==> forall j :: 0 <= j < |nodes| ==> !nodes[j].isBreadcrumbScript
  {
    if nodes == [] then None
    else if nodes[0].isBreadcrumbScript then Some(0)
    else match FirstBreadcrumbScript(nodes[1..])
      case None => None
      case Some(j) => Some(j + 1)
  }

  /** How many breadcrumb-schema scripts the head holds. */
  function BreadcrumbCount(nodes: seq<HeadNode>): nat {
    if nodes == [] then 0
    else (if nodes[0].isBreadcrumbScript then 1 else 0) + BreadcrumbCount(nodes[1..])
  }

  lemma {:induction false} BreadcrumbCountConcat(a: seq<HeadNode>, b: seq<HeadNode>)
    ensures BreadcrumbCount(a + b) == BreadcrumbCount(a) + BreadcrumbCount(b)
  {
    if a == [] {
      assert a + b == b;
    } else {
      assert (a + b)[1..] == a[1..] + b;
      BreadcrumbCountConcat(a[1..], b);
    }
  }

  lemma {:induction false} NoBreadcrumbCountsZero(nodes: seq<HeadNode>)
    requires forall j :: 0 <= j < |nodes| ==> !nodes[j].isBreadcrumbScript
    ensures BreadcrumbCount(nodes) == 0
  {
    if nodes != [] {
      NoBreadcrumbCountsZero(nodes[1..]);
    }
  }

  /** `existingScript.remove()` when there is one: exactly one breadcrumb script goes, and nothing else. */
  function WithoutFirstBreadcrumb(nodes: seq<HeadNode>): (r: seq<HeadNode>)
    ensures BreadcrumbCount(r) == if BreadcrumbCount(nodes) == 0 then 0 else BreadcrumbCount(nodes) - 1
    ensures forall n :: n in nodes && !n.isBreadcrumbScript ==> n in r
    ensures forall n :: n in r ==> n in nodes
    ensures FirstBreadcrumbScript(nodes).None? ==> r == nodes
    ensures FirstBreadcrumbScript(nodes).Some? ==>
      multiset(r) == multiset(nodes) - multiset{nodes[FirstBreadcrumbScript(nodes).value]}
  {
    match FirstBreadcrumbScript(nodes)
    case None =>
      NoBreadcrumbCountsZero(nodes);
      nodes
    case Some(i) =>
      var r := nodes[..i] + nodes[i + 1..];
      assert nodes == nodes[..i] + ([nodes[i]] + nodes[i + 1..]);
      BreadcrumbCountConcat(nodes[..i], [nodes[i]] + nodes[i + 1..]);
      BreadcrumbCountConcat([nodes[i]], nodes[i + 1..]);
      BreadcrumbCountConcat(nodes[..i], nodes[i + 1..]);
      NoBreadcrumbCountsZero(nodes[..i]);
      assert BreadcrumbCount([nodes[i]]) == 1;
      r
  }

  /** The effect: drop the existing script, then append the new one carrying this trail's schema. */
  function EffectApplied(nodes: seq<HeadNode>, items: seq<BreadcrumbItem>, scriptId: nat): (r: seq<HeadNode>)
    ensures |r| > 0 && r[|r| - 1] == HeadNode(scriptId, true, Seo.BreadcrumbSchema(SchemaItems(items)))
    ensures BreadcrumbCount(r) == if BreadcrumbCount(nodes) == 0 then 1 else BreadcrumbCount(nodes)
    ensures forall n :: n in nodes && !n.isBreadcrumbScript ==> n in r
  {
    var script := HeadNode(scriptId, true, Seo.BreadcrumbSchema(SchemaItems(items)));
    var kept := WithoutFirstBreadcrumb(nodes);
    BreadcrumbCountConcat(kept, [script]);
    assert BreadcrumbCount([script]) == 1;
    kept + [script]
  }

  /** Starting from at most one breadcrumb script, the head holds exactly one after the effect, and it is this trail's. */
  lemma AtMostOneBreadcrumbScript(nodes: seq<HeadNode>, items: seq<BreadcrumbItem>, scriptId: nat)
    requires BreadcrumbCount(nodes) <= 1
    ensures BreadcrumbCount(EffectApplied(nodes, items, scriptId)) == 1
  {
  }

  /** `script.parentNode.removeChild(script)` when it is still attached: that node goes, the rest stay in order. */
  function WithoutNode(nodes: seq<HeadNode>, id: nat): (r: seq<HeadNode>)
    ensures forall n :: n in r <==> n in nodes && n.id != id
  {
    if nodes == [] then []
    else if nodes[0].id == id then WithoutNode(nodes[1..], id)
    else [nodes[0]] + WithoutNode(nodes[1..], id)
  }

  lemma {:induction false} WithoutNodeConcat(a: seq<HeadNode>, b: seq<HeadNode>, id: nat)
    ensures WithoutNode(a + b, id) == WithoutNode(a, id) + WithoutNode(b, id)
  {
    if a == [] {
      assert a + b == b;
    } else {
      assert (a + b)[0] == a[0];
      assert (a + b)[1..] == a[1..] + b;
      WithoutNodeConcat(a[1..], b, id);
    }
  }

  lemma {:induction false} WithoutAbsentNode(nodes: seq<HeadNode>, id: nat)
    requires forall n :: n in nodes ==> n.id != id
    ensures WithoutNode(nodes, id) == nodes
  {
    if nodes != [] {
      WithoutAbsentNode(nodes[1..], id);
      assert [nodes[0]] + nodes[1..] == nodes;
    }
  }

  /** The effect's cleanup, run right after it, leaves the head as it was minus the script the effect replaced. */
  lemma CleanupUndoesAppend(nodes: seq<HeadNode>, items: seq<BreadcrumbItem>, scriptId: nat)
    requires forall n :: n in nodes ==> n.id != scriptId
    ensures WithoutNode(EffectApplied(nodes, items, scriptId), scriptId) == WithoutFirstBreadcrumb(nodes)
  {
    var kept := WithoutFirstBreadcrumb(nodes);
    var script := HeadNode(scriptId, true, Seo.BreadcrumbSchema(SchemaItems(items)));
    WithoutNodeConcat(kept, [script], scriptId);
    WithoutAbsentNode(kept, scriptId);
    assert WithoutNode([script], scriptId) == [];
  }

  /** The document head as the trail's effect sees it; `nextId` is the identity the next created script gets. */
  class Head {
    var nodes: seq<HeadNode>
    var nextId: nat

    /** Every node was created before the next identity was handed out. */
    predicate Valid()
      reads this
    {
      forall n :: n in nodes ==> n.id < nextId
    }

    constructor (initial: seq<HeadNode>, nextId: nat)
      requires forall n :: n in initial ==> n.id < nextId
      ensures Valid() && nodes == initial && this.nextId == nextId
    {
      this.nodes := initial;
      this.nextId := nextId;
    }

    /** The mount or `items` effect; returns the created script's identity for its cleanup. */
    method ApplyEffect(items: seq<BreadcrumbItem>) returns (scriptId: nat)
      requires Valid()
      modifies this
      ensures Valid()
      ensures scriptId == old(nextId) && nextId == old(nextId) + 1
      ensures nodes == EffectApplied(old(nodes), items, scriptId)
    {
      scriptId := nextId;
      var script := HeadNode(scriptId, true, Seo.BreadcrumbSchema(SchemaItems(items)));
      match FirstBreadcrumbScript(nodes) {
        case None =>
        case Some(i) =>
          nodes := nodes[..i] + nodes[i + 1..];
      }
      nodes := nodes + [script];
      nextId := nextId + 1;
    }

    /** The effect's cleanup for the script it created. */
    method Cleanup(scriptId: nat)
      requires Valid()
      modifies this
      ensures Valid()
      ensures nodes == WithoutNode(old(nodes), scriptId) && nextId == old(nextId)
    {
      nodes := WithoutNode(nodes, scriptId);
    }
  }

  /** A rendered entry: a link for an item with a url, plain text otherwise. */
  datatype Content = Link(href: string, text: string) | Plain(text: string)

  datatype Entry = Entry(content: Content, separator: bool)

  /** The list items: each item's label, linked when it has a url, and a chevron after every item but the last. */
  function Rendered(items: seq<BreadcrumbItem>): (r: seq<Entry>)
    ensures |r| == |items|
    ensures forall i :: 0 <= i < |items| ==> r[i].content.text == items[i].caption
    ensures forall i :: 0 <= i < |items| ==> (r[i].content.Link? <==> Present(items[i].url))
    ensures forall i :: 0 <= i < |items| && Present(items[i].url) ==> r[i].content.href == items[i].url.value
    ensures forall i :: 0 <= i < |items| ==> (r[i].separator <==> i < |items| - 1)
  {
    seq(|items|, i requires 0 <= i < |items| =>
      Entry(if Present(items[i].url) then Link(items[i].url.value, items[i].caption) else Plain(items[i].caption),
            i < |items| - 1))
  }

  function SeparatorCount(entries: seq<Entry>): nat {
    if entries == [] then 0
    else SeparatorCount(entries[..|entries| - 1]) + (if entries[|entries| - 1].separator then 1 else 0)
  }

  lemma {:induction false} SeparatorsInPrefix(entries: seq<Entry>, k: nat)
    requires k <= |entries|
    requires forall i :: 0 <= i < |entries| ==> (entries[i].separator <==> i < |entries| - 1)
    ensures SeparatorCount(entries[..k]) == if k == |entries| && k > 0 then k - 1 else k
  {
    if k > 0 {
      SeparatorsInPrefix(entries, k - 1);
      assert entries[..k][..k - 1] == entries[..k - 1];
    }
  }

  /** `n` items give `n - 1` separators (none for an empty trail). */
  lemma SeparatorsBetweenItems(items: seq<BreadcrumbItem>)
    ensures SeparatorCount(Rendered(items)) == if |items| == 0 then 0 else |items| - 1
  {
    var r := Rendered(items);
    SeparatorsInPrefix(r, |r|);
    assert r[..|r|] == r;
  }
}
