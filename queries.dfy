/** The derived queries of the entities: a node's outgoing, incoming and
    attached links and the neighbours at their far ends, a link's parallel
    links and its end nodes, and a detail's anchor. Each query walks the
    graph's link list in order and keeps what matches, so each is specified
    by a filter over that list; the loops that build the answers are methods
    proved equal to the filters. */
module Queries {
  import opened Wrappers
  import opened JsRuntime
  import opened Entities
  import opened Collections

  // ---------------------------------------------------------------------------
  // Order-preserving filters
  // ---------------------------------------------------------------------------

  /** The elements of `s` that satisfy `keep`, in their order in `s`. */
  function Filter<T>(s: seq<T>, keep: T -> bool): (r: seq<T>)
    ensures |r| <= |s|
    decreases |s|
  {
    if s == [] then []
    else if keep(s[|s| - 1]) then Filter(s[..|s| - 1], keep) + [s[|s| - 1]]
    else Filter(s[..|s| - 1], keep)
  }

  /** A filter keeps every occurrence of a matching element and no
      occurrence of any other. */
  lemma {:induction false} FilterContents<T>(s: seq<T>, keep: T -> bool)
    ensures forall x :: multiset(Filter(s, keep))[x] == if keep(x) then multiset(s)[x] else 0
    ensures forall x :: x in Filter(s, keep) <==> x in s && keep(x)
    ensures forall i :: 0 <= i < |Filter(s, keep)| ==> Filter(s, keep)[i] in s && keep(Filter(s, keep)[i])
    ensures forall i :: 0 <= i < |s| && keep(s[i]) ==> s[i] in Filter(s, keep)
    decreases |s|
  {
    if s != [] {
      var init, last := s[..|s| - 1], s[|s| - 1];
      assert s == init + [last];
      FilterContents(init, keep);
      forall x ensures multiset(Filter(s, keep))[x] == if keep(x) then multiset(s)[x] else 0 {
        assert multiset(s)[x] == multiset(init)[x] + multiset([last])[x];
      }
      forall x ensures x in Filter(s, keep) <==> x in s && keep(x) {
        assert (x in Filter(s, keep)) == (multiset(Filter(s, keep))[x] > 0);
        assert (x in s) == (multiset(s)[x] > 0);
      }
    }
  }

  /** Filtering distributes over concatenation: the filter keeps the relative
      order of what it keeps. */
  lemma {:induction false} FilterAppend<T>(a: seq<T>, b: seq<T>, keep: T -> bool)
    ensures Filter(a + b, keep) == Filter(a, keep) + Filter(b, keep)
    decreases |b|
  {
    if b == [] {
      assert a + b == a;
    } else {
      var init, last := b[..|b| - 1], b[|b| - 1];
      assert (a + b)[..|a + b| - 1] == a + init;
      assert (a + b)[|a + b| - 1] == last;
      FilterAppend(a, init, keep);
    }
  }

  /** Inclusion-exclusion: a filter on `p || q` keeps as many elements as the
      filters on `p` and on `q` together, less those both keep. */
  lemma {:induction false} FilterUnion<T>(s: seq<T>, p: T -> bool, q: T -> bool, either: T -> bool, both: T -> bool)
    requires forall x :: either(x) == (p(x) || q(x))
    requires forall x :: both(x) == (p(x) && q(x))
    ensures |Filter(s, either)| + |Filter(s, both)| == |Filter(s, p)| + |Filter(s, q)|
    decreases |s|
  {
    if s != [] {
      FilterUnion(s[..|s| - 1], p, q, either, both);
    }
  }

  // ---------------------------------------------------------------------------
  // Links at a node: outLinks, inLinks, allLinks
  // ---------------------------------------------------------------------------

  /** Which links a node query follows: `outLinks`/`outNeighbors` follow
      links leaving the node, `inLinks`/`inNeighbors` links entering it, and
      `allLinks`/`allNeighbors` both. */
  datatype Direction = Outgoing | Incoming | Either

  /** `link.origin_uid === uid`: strict equality, so only the text `uid`
      itself matches. */
  predicate Leaves(l: Link, uid: string)
  {
    l.origin_uid == Str(uid)
  }

  /** `link.terminus_uid === uid`. */
  predicate Enters(l: Link, uid: string)
  {
    l.terminus_uid == Str(uid)
  }

  predicate Follows(l: Link, uid: string, d: Direction)
  {
    match d
    case Outgoing => Leaves(l, uid)
    case Incoming => Enters(l, uid)
    case Either => Enters(l, uid) || Leaves(l, uid)
  }

  /** The links of the list a node query with direction `d` returns for the
      node with uid `uid`, in list order. */
  function Along(links: seq<Link>, uid: string, d: Direction): (r: seq<Link>)
    ensures forall i :: 0 <= i < |r| ==> r[i] in links && Follows(r[i], uid, d)
    ensures forall i :: 0 <= i < |links| && Follows(links[i], uid, d) ==> links[i] in r
  {
    var keep := (l: Link) => Follows(l, uid, d);
    FilterContents(links, keep);
    Filter(links, keep)
  }

  /** A link that both leaves and enters the node (a self-loop) is listed
      once by `allLinks` but by both `outLinks` and `inLinks`. */
  lemma AllLinksCount(links: seq<Link>, uid: string)
    ensures |Along(links, uid, Either)| + |Filter(links, (l: Link) => Leaves(l, uid) && Enters(l, uid))|
            == |Along(links, uid, Outgoing)| + |Along(links, uid, Incoming)|
  {
    FilterUnion(links, (l: Link) => Follows(l, uid, Incoming), (l: Link) => Follows(l, uid, Outgoing),
                (l: Link) => Follows(l, uid, Either), (l: Link) => Leaves(l, uid) && Enters(l, uid));
  }

  /** The order-preserving filter step the query loops rely on. */
  lemma AlongSnoc(links: seq<Link>, uid: string, d: Direction, i: nat)
    requires i < |links|
    ensures Along(links[..i + 1], uid, d)
            == Along(links[..i], uid, d) + (if Follows(links[i], uid, d) then [links[i]] else [])
  {
    assert links[..i + 1][..i] == links[..i];
  }

  /** `outLinks()`, `inLinks()` and `allLinks()` of the node `me` over the
      graph's link list. */
  method LinksAt(me: Node, links: seq<Link>, d: Direction) returns (ls: seq<Link>)
    ensures ls == Along(links, me.uid, d)
  {
    ls := [];
    var i := 0;
    while i < |links|
      invariant i <= |links|
      invariant ls == Along(links[..i], me.uid, d)
    {
      AlongSnoc(links, me.uid, d, i);
      if Follows(links[i], me.uid, d) {
        ls := ls + [links[i]];
      }
      i := i + 1;
    }
    assert links[..i] == links;
  }

  // ---------------------------------------------------------------------------
  // Neighbours
  // ---------------------------------------------------------------------------

  /** `graph.nodes()[key]`: the node filed under `key`, or `undefined`. A
      present answer is one of the index's entries, the one under `key`. */
  function Lookup<T(==)>(index: map<string, T>, key: string): (r: Option<T>)
    ensures r.Some? <==> key in index
    ensures r.Some? ==> r.value in index.Values && r.value == index[key]
  {
    if key in index then Some(index[key]) else None
  }

  /** The end of a followed link a neighbour query reports: the terminus of
      an outgoing link, the origin of an incoming one; `allNeighbors` tests
      the terminus first, so a link entering the node (a self-loop included)
      reports its origin. */
  function FarEnd(l: Link, uid: string, d: Direction): Param
  {
    match d
    case Outgoing => l.terminus_uid
    case Incoming => l.origin_uid
    case Either => if Enters(l, uid) then l.origin_uid else l.terminus_uid
  }

  /** What a neighbour query collects for node uid `uid`: for each followed
      link, in list order, the node indexed under its far end's key. */
  function Neighbours(js: Js, nodeIndex: map<string, Node>, links: seq<Link>, uid: string, d: Direction)
    : (ns: seq<Option<Node>>)
    ensures |ns| == |Along(links, uid, d)|
    ensures forall i :: 0 <= i < |ns| ==> ns[i] == Lookup(nodeIndex, Text(js, FarEnd(Along(links, uid, d)[i], uid, d)))
    decreases |links|
  {
    if links == [] then []
    else
      var init, last := links[..|links| - 1], links[|links| - 1];
      assert links == init + [last];
      FilterAppend(init, [last], (l: Link) => Follows(l, uid, d));
      var ns := Neighbours(js, nodeIndex, init, uid, d);
      if Follows(last, uid, d) then ns + [Lookup(nodeIndex, Text(js, FarEnd(last, uid, d)))] else ns
  }

  /** A neighbour that is present is the node whose uid is the far end's
      key; an absent one (`undefined` in the result) is a far end with no
      node indexed under its key. */
  lemma NeighbourIsFarEnd(js: Js, nodeIndex: map<string, Node>, links: seq<Link>, uid: string, d: Direction, i: nat)
    requires Keyed(nodeIndex, (n: Node) => n.uid)
    requires i < |Along(links, uid, d)|
    ensures var ns := Neighbours(js, nodeIndex, links, uid, d);
            var far := Text(js, FarEnd(Along(links, uid, d)[i], uid, d));
            && (ns[i].Some? ==> ns[i].value.uid == far && ns[i].value in nodeIndex.Values)
            && (ns[i].None? <==> far !in nodeIndex)
  {
  }

  /** One more link of the list adds at most one neighbour. */
  lemma NeighboursSnoc(js: Js, nodeIndex: map<string, Node>, links: seq<Link>, uid: string, d: Direction, i: nat)
    requires i < |links|
    ensures Neighbours(js, nodeIndex, links[..i + 1], uid, d)
            == Neighbours(js, nodeIndex, links[..i], uid, d)
               + (if Follows(links[i], uid, d) then [Lookup(nodeIndex, Text(js, FarEnd(links[i], uid, d)))] else [])
  {
    assert links[..i + 1][..i] == links[..i];
  }

  /** `outNeighbors()`, `inNeighbors()` and `allNeighbors()` of the node
      `me`, given the graph's link list and node index. */
  method NeighboursOf(js: Js, me: Node, links: seq<Link>, nodeIndex: map<string, Node>, d: Direction)
    returns (ns: seq<Option<Node>>)
    ensures ns == Neighbours(js, nodeIndex, links, me.uid, d)
  {
    ns := [];
    var i := 0;
    while i < |links|
      invariant i <= |links|
      invariant ns == Neighbours(js, nodeIndex, links[..i], me.uid, d)
    {
      NeighboursSnoc(js, nodeIndex, links, me.uid, d, i);
      if Follows(links[i], me.uid, d) {
        ns := ns + [Lookup(nodeIndex, Text(js, FarEnd(links[i], me.uid, d)))];
      }
      i := i + 1;
    }
    assert links[..i] == links;
  }

  // ---------------------------------------------------------------------------
  // Links: parallel, origin, terminus
  // ---------------------------------------------------------------------------

  /** `l` joins the same two endpoint values as `me`, in either direction. */
  predicate ParallelTo(l: Link, me: Link)
  {
    || (l.origin_uid == me.origin_uid && l.terminus_uid == me.terminus_uid)
    || (l.origin_uid == me.terminus_uid && l.terminus_uid == me.origin_uid)
  }

  /** `me.parallel()` over the graph's link list. */
  function Parallel(links: seq<Link>, me: Link): (r: seq<Link>)
    ensures forall i :: 0 <= i < |r| ==> r[i] in links && ParallelTo(r[i], me)
    ensures forall i :: 0 <= i < |links| && ParallelTo(links[i], me) ==> links[i] in r
    ensures me in links ==> me in r
  {
    var keep := (l: Link) => ParallelTo(l, me);
    FilterContents(links, keep);
    Filter(links, keep)
  }

  /** Being parallel is symmetric: among listed links, `a` is in `b`'s
      parallel set exactly when `b` is in `a`'s. */
  lemma ParallelSymmetric(links: seq<Link>, a: Link, b: Link)
    requires a in links && b in links
    ensures a in Parallel(links, b) <==> b in Parallel(links, a)
  {
  }

  /** The loop of `parallel()`. */
  method ParallelOf(me: Link, links: seq<Link>) returns (ls: seq<Link>)
    ensures ls == Parallel(links, me)
  {
    var keep := (l: Link) => ParallelTo(l, me);
    ls := [];
    var i := 0;
    while i < |links|
      invariant i <= |links|
      invariant ls == Filter(links[..i], keep)
    {
      assert links[..i + 1][..i] == links[..i];
      if ParallelTo(links[i], me) {
        ls := ls + [links[i]];
      }
      i := i + 1;
    }
    assert links[..i] == links;
  }

  /** `link.origin()`: `graph.node(origin_uid)`, absent (`-1`) when no node
      is indexed under that key. */
  function Origin(js: Js, nodeIndex: map<string, Node>, l: Link): (r: Option<Node>)
    requires Keyed(nodeIndex, (n: Node) => n.uid)
    ensures r.Some? <==> Text(js, l.origin_uid) in nodeIndex
    ensures r.Some? ==> r.value in nodeIndex.Values && r.value.uid == Text(js, l.origin_uid)
  {
    Lookup(nodeIndex, Text(js, l.origin_uid))
  }

  /** `link.terminus()`. */
  function Terminus(js: Js, nodeIndex: map<string, Node>, l: Link): (r: Option<Node>)
    requires Keyed(nodeIndex, (n: Node) => n.uid)
    ensures r.Some? <==> Text(js, l.terminus_uid) in nodeIndex
    ensures r.Some? ==> r.value in nodeIndex.Values && r.value.uid == Text(js, l.terminus_uid)
  {
    Lookup(nodeIndex, Text(js, l.terminus_uid))
  }

  // ---------------------------------------------------------------------------
  // Details: anchor
  // ---------------------------------------------------------------------------

  /** What `detail.anchor()` returns: a node lookup, a link lookup (each
      `-1` when missing), or `undefined` for any other anchor type. */
  datatype Anchor = NodeAnchor(node: Option<Node>) | LinkAnchor(link: Option<Link>) | Unanchored

  function AnchorOf(d: Detail, nodeIndex: map<string, Node>, linkIndex: map<string, Link>): (a: Anchor)
    requires Keyed(nodeIndex, (n: Node) => n.uid) && Keyed(linkIndex, (l: Link) => l.uid)
    ensures a.NodeAnchor? <==> d.anchor_type == "Node"
    ensures a.LinkAnchor? <==> d.anchor_type == "Link"
    ensures a.NodeAnchor? ==> (a.node.Some? <==> d.anchor_uid in nodeIndex)
    ensures a.NodeAnchor? && a.node.Some? ==> a.node.value.uid == d.anchor_uid && a.node.value in nodeIndex.Values
    ensures a.LinkAnchor? ==> (a.link.Some? <==> d.anchor_uid in linkIndex)
    ensures a.LinkAnchor? && a.link.Some? ==> a.link.value.uid == d.anchor_uid && a.link.value in linkIndex.Values
  {
    if d.anchor_type == "Node" then NodeAnchor(Lookup(nodeIndex, d.anchor_uid))
    else if d.anchor_type == "Link" then LinkAnchor(Lookup(linkIndex, d.anchor_uid))
    else Unanchored
  }
}
