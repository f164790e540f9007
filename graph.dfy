/** The `Graph` of psynth.js: a local store of nodes, links, link types and
    details, each kept in an insertion-ordered list and a dictionary indexed
    by uid (link types by name only), together with the serial queue of
    commands that mirrors every change to the server. The transport is the
    environment: a method that dispatches a command returns it as `sent`, and
    `OnResponse` is the transport answering the command in flight. */
module GraphStore {
  import opened Wrappers
  import opened JsRuntime
  import opened Uid
  import opened Entities
  import opened Collections
  import opened Commands
  import opened RequestQueue
  import opened Queries

  /** A callback supplied by the caller, known by a token: what it does is
      outside the model, and it is assumed to return normally. */
  type Callback = nat

  /** The handler queued with a command: the caller's callback (without one,
      the default handler, which only logs), or the layout handler of `draw`,
      which writes the positions and then calls the callback. */
  datatype Handler = Notify(callback: Option<Callback>) | Redraw(callback: Option<Callback>)

  /** An entry of `queryQueue`: `{query, handler}`. */
  datatype Command = Command(query: Query, handler: Handler)

  /** The errors `addLink` and `addDetail` throw. */
  datatype ReferenceError = InvalidOrigin | InvalidTerminus | InvalidLinkType | InvalidAnchorNode | InvalidAnchorLink

  function Message(e: ReferenceError): string
  {
    match e
    case InvalidOrigin => "Invalid origin node."
    case InvalidTerminus => "Invalid terminus node."
    case InvalidLinkType => "Invalid LinkType."
    case InvalidAnchorNode => "Invalid anchor Node."
    case InvalidAnchorLink => "Invalid anchor Link."
  }

  /** The reference check of `addLink`, given the property names of the
      origin, terminus and type: the first missing one, in that order. */
  function CheckLink(origin: string, terminus: string, relType: string, nodeKeys: set<string>, typeKeys: set<string>)
    : (e: Option<ReferenceError>)
    ensures e == Some(InvalidOrigin) <==> origin !in nodeKeys
    ensures e == Some(InvalidTerminus) <==> origin in nodeKeys && terminus !in nodeKeys
    ensures e == Some(InvalidLinkType) <==> origin in nodeKeys && terminus in nodeKeys && relType !in typeKeys
    ensures e == None <==> origin in nodeKeys && terminus in nodeKeys && relType in typeKeys
  {
    if origin !in nodeKeys then Some(InvalidOrigin)
    else if terminus !in nodeKeys then Some(InvalidTerminus)
    else if relType !in typeKeys then Some(InvalidLinkType)
    else None
  }

  /** The reference check of `addDetail`: only the anchor types `"Node"` and
      `"Link"` (compared strictly) are looked up; any other is admitted. */
  function CheckDetail(anchorType: Param, anchorKey: string, nodeKeys: set<string>, linkKeys: set<string>)
    : (e: Option<ReferenceError>)
    ensures e == Some(InvalidAnchorNode) <==> anchorType == Str("Node") && anchorKey !in nodeKeys
    ensures e == Some(InvalidAnchorLink) <==> anchorType == Str("Link") && anchorKey !in linkKeys
    ensures e == None <==> !(anchorType == Str("Node") && anchorKey !in nodeKeys)
                           && !(anchorType == Str("Link") && anchorKey !in linkKeys)
  {
    if anchorType == Str("Node") && anchorKey !in nodeKeys then Some(InvalidAnchorNode)
    else if anchorType == Str("Link") && anchorKey !in linkKeys then Some(InvalidAnchorLink)
    else None
  }

  /** The argument of `addNode`, `addLink` and `addDetail`: an entity
      already built (`constructor.name` is the entity's), or the parameters
      to build one from, with the randomness a defaulted uid draws. */
  datatype NodeInput = GivenNode(node: Node) | NodeParameters(params: NodeParams, random: Randomness)
  datatype LinkInput = GivenLink(link: Link) | LinkParameters(params: LinkParams, random: Randomness)
  datatype DetailInput = GivenDetail(detail: Detail) | DetailParameters(params: DetailParams, random: Randomness)

  // ---------------------------------------------------------------------------
  // Layout responses
  // ---------------------------------------------------------------------------

  datatype Point = Point(x: real, y: real)

  /** How many leading entries of `ps` name a known uid: the loop of
      `updatePos` writes these and throws at the next one. */
  function KnownPrefix(ps: seq<Position>, keys: set<string>): (k: nat)
    ensures k <= |ps|
    ensures forall j :: 0 <= j < k ==> ps[j].UID in keys
    ensures k < |ps| ==> ps[k].UID !in keys
  {
    if ps == [] || ps[0].UID !in keys then 0 else 1 + KnownPrefix(ps[1..], keys)
  }

  /** The last entry of `ps` for `uid`. */
  function LastPosition(ps: seq<Position>, uid: string): (p: Option<Position>)
    ensures p.Some? ==> p.value in ps && p.value.UID == uid
    ensures p.None? <==> forall j :: 0 <= j < |ps| ==> ps[j].UID != uid
  {
    if ps == [] then None
    else if ps[|ps| - 1].UID == uid then Some(ps[|ps| - 1])
    else LastPosition(ps[..|ps| - 1], uid)
  }

  /** The positions after writing the entries of `ps` in order, each to the
      entity indexed under its uid. */
  function Moved(pos: map<string, Point>, ps: seq<Position>): (m: map<string, Point>)
    ensures m.Keys == pos.Keys
  {
    if ps == [] then pos
    else
      var m := Moved(pos, ps[..|ps| - 1]);
      var p := ps[|ps| - 1];
      if p.UID in m then m[p.UID := Point(p.X, p.Y)] else m
  }

  /** The writes move exactly the listed uids, each to the last position
      listed for it; every other entity keeps its position. */
  lemma {:induction false} MovedExactly(pos: map<string, Point>, ps: seq<Position>, u: string)
    requires u in pos
    ensures Moved(pos, ps)[u] == match LastPosition(ps, u)
                                 case Some(p) => Point(p.X, p.Y)
                                 case None => pos[u]
    decreases |ps|
  {
    if ps != [] {
      MovedExactly(pos, ps[..|ps| - 1], u);
    }
  }

  /** The position of every indexed node. */
  function NodePositions(index: map<string, Node>): map<string, Point>
    reads index.Values
  {
    map u | u in index :: Point(index[u].x, index[u].y)
  }

  /** The position of every indexed detail. */
  function DetailPositions(index: map<string, Detail>): map<string, Point>
    reads index.Values
  {
    map u | u in index :: Point(index[u].x, index[u].y)
  }

  /** One write of the layout handler: the node under `u` moves to `(x, y)`. */
  method PlaceNode(index: map<string, Node>, u: string, x: real, y: real)
    requires Keyed(index, (n: Node) => n.uid) && u in index
    modifies index[u]
    ensures NodePositions(index) == old(NodePositions(index))[u := Point(x, y)]
  {
    var n := index[u];
    n.x, n.y := x, y;
    assert forall v :: v in index && v != u ==> index[v] != n;
  }

  /** One write of the layout handler to a detail. */
  method PlaceDetail(index: map<string, Detail>, u: string, x: real, y: real)
    requires Keyed(index, (d: Detail) => d.uid) && u in index
    modifies index[u]
    ensures DetailPositions(index) == old(DetailPositions(index))[u := Point(x, y)]
  {
    var d := index[u];
    d.x, d.y := x, y;
    assert forall v :: v in index && v != u ==> index[v] != d;
  }

  /** `minX` and `maxX` scan x, `minY` and `maxY` scan y. */
  datatype Axis = Horizontal | Vertical
  /** `min*` keeps the least value seen, `max*` the greatest. */
  datatype Bound = Least | Greatest

  function Coord(n: Node, axis: Axis): real
    reads n
  {
    if axis == Horizontal then n.x else n.y
  }

  /** The comparison that replaces the value kept so far. */
  predicate Beats(bound: Bound, v: real, m: real)
  {
    if bound == Least then v < m else v > m
  }

  /** `m` bounds `v` on the side `bound` names. */
  predicate Bounds(bound: Bound, m: real, v: real)
  {
    if bound == Least then m <= v else m >= v
  }

  // ---------------------------------------------------------------------------
  // The graph
  // ---------------------------------------------------------------------------

  class Graph {
    const name: string
    const filename: string
    const username: string
    const password: string
    const url: string
    /** The JavaScript built-ins the entities it builds use. */
    const js: Js

    var nodes: seq<Node>
    var nodeIndex: map<string, Node>
    var links: seq<Link>
    var linkIndex: map<string, Link>
    var linkTypes: map<string, LinkType>
    var details: seq<Detail>
    var detailIndex: map<string, Detail>
    /** `queryQueue`, the command awaiting its response, and `transit`. */
    var queryQueue: seq<Command>
    var inFlight: Option<Command>
    var transit: bool

    /** What every operation keeps: each index files an entity under its own
        key, and the queue is empty whenever it is not draining. */
    ghost predicate Valid()
      reads this
    {
      && Keyed(nodeIndex, (n: Node) => n.uid)
      && Keyed(linkIndex, (l: Link) => l.uid)
      && Keyed(detailIndex, (d: Detail) => d.uid)
      && Keyed(linkTypes, (t: LinkType) => t.name)
      && Inv(Requests())
    }

    /** Each list agrees with its index. Adds under fresh uids and removes of
        listed entities keep this; an add under a uid in use breaks it. */
    ghost predicate Consistent()
      reads this
    {
      && Agrees(nodes, nodeIndex, (n: Node) => n.uid)
      && Agrees(links, linkIndex, (l: Link) => l.uid)
      && Agrees(details, detailIndex, (d: Detail) => d.uid)
    }

    function Requests(): RequestQueue.Queue<Command>
      reads this
    {
      RequestQueue.Queue(queryQueue, inFlight, transit)
    }

    /** `idTag`: the command with the graph's credentials attached. */
    function IdTag(c: Command): Request
    {
      Request(c.query, username, filename, password)
    }

    function Tagged(c: Option<Command>): Option<Request>
    {
      if c.Some? then Some(IdTag(c.value)) else None
    }

    twostate predicate NodesKept()
      reads this
    {
      nodes == old(nodes) && nodeIndex == old(nodeIndex)
    }

    twostate predicate LinksKept()
      reads this
    {
      links == old(links) && linkIndex == old(linkIndex) && linkTypes == old(linkTypes)
    }

    twostate predicate DetailsKept()
      reads this
    {
      details == old(details) && detailIndex == old(detailIndex)
    }

    /** The queue after `queue(c)`, and what it dispatched. */
    twostate predicate Queued(new c: Command, new sent: Option<Request>)
      requires old(Inv(Requests()))
      reads this
    {
      var s := Push(old(Requests()), c);
      Requests() == s.next && sent == Tagged(s.sent)
    }

    constructor (name: string, filename: string, username: string, password: string, url: string, js: Js)
      ensures Valid() && Consistent()
      ensures this.name == name && this.filename == filename && this.username == username
      ensures this.password == password && this.url == url && this.js == js
      ensures nodes == [] && nodeIndex == map[] && links == [] && linkIndex == map[] && linkTypes == map[]
      ensures details == [] && detailIndex == map[]
      ensures IsIdle(Requests())
    {
      this.name, this.filename, this.username, this.password, this.url, this.js :=
        name, filename, username, password, url, js;
      nodes, nodeIndex, links, linkIndex, linkTypes := [], map[], [], map[], map[];
      details, detailIndex := [], map[];
      queryQueue, inFlight, transit := [], None, false;
    }

    // -------------------------------------------------------------------------
    // The request queue
    // -------------------------------------------------------------------------

    /** `syncIt` while nothing awaits a response: dispatch the head of the
        queue or, when it is empty, clear `transit`. */
    method SyncIt() returns (sent: Option<Request>)
      requires Valid() && inFlight == None
      modifies this
      ensures Valid()
      ensures var s := RequestQueue.SyncIt(old(Requests())); Requests() == s.next && sent == Tagged(s.sent)
      ensures NodesKept() && LinksKept() && DetailsKept()
    {
      if |queryQueue| > 0 {
        var c := queryQueue[0];
        queryQueue := queryQueue[1..];
        inFlight := Some(c);
        sent := Some(IdTag(c));
      } else {
        transit := false;
        sent := None;
      }
    }

    /** `queue(q, handler)`: append, and start draining when idle. */
    method Queue(query: Query, handler: Handler) returns (sent: Option<Request>)
      requires Valid()
      modifies this
      ensures Valid()
      ensures Queued(Command(query, handler), sent)
      ensures NodesKept() && LinksKept() && DetailsKept()
    {
      queryQueue := queryQueue + [Command(query, handler)];
      if !transit {
        transit := true;
        sent := SyncIt();
      } else {
        sent := None;
      }
    }

    /** Whether the handler of a command throws on the response `r`: only
        the layout handler does, when the response is not a layout or names
        a uid the graph does not index. */
    function Throws(h: Handler, r: Response): bool
      reads this
    {
      && r != Invalid && h.Redraw?
      && !(&& r.Layout?
           && KnownPrefix(r.nodes, nodeIndex.Keys) == |r.nodes|
           && KnownPrefix(r.details, detailIndex.Keys) == |r.details|)
    }

    /** The node entries the layout handler writes before it finishes or throws. */
    function AppliedNodes(r: Response): seq<Position>
      reads this
    {
      if r.Layout? then r.nodes[..KnownPrefix(r.nodes, nodeIndex.Keys)] else []
    }

    /** The detail entries it writes: none unless every node entry was known. */
    function AppliedDetails(r: Response): seq<Position>
      reads this
    {
      if r.Layout? && KnownPrefix(r.nodes, nodeIndex.Keys) == |r.nodes|
      then r.details[..KnownPrefix(r.details, detailIndex.Keys)]
      else []
    }

    /** The transport answers the command in flight with `r`. Unless `r` is
        the failure sentinel, the command's handler runs and the callback it
        calls is `called`; then `syncIt` dispatches the next command, unless
        the handler threw, which leaves the queue stalled. */
    method OnResponse(r: Response) returns (called: Option<Callback>, sent: Option<Request>)
      requires Valid() && inFlight.Some?
      modifies this, nodeIndex.Values, detailIndex.Values
      ensures Valid()
      ensures var h := old(inFlight.value.handler);
              var threw := old(Throws(h, r));
              && called == (if r == Invalid || threw then None else h.callback)
              && var a := Respond(old(Requests()), r == Invalid, threw);
                 Requests() == a.next && sent == Tagged(a.sent)
      ensures NodesKept() && LinksKept() && DetailsKept()
      ensures var runs := r != Invalid && old(inFlight.value.handler).Redraw?;
              && NodePositions(nodeIndex) == (if runs then Moved(old(NodePositions(nodeIndex)), old(AppliedNodes(r))) else old(NodePositions(nodeIndex)))
              && DetailPositions(detailIndex) == (if runs then Moved(old(DetailPositions(detailIndex)), old(AppliedDetails(r))) else old(DetailPositions(detailIndex)))
    {
      var h := inFlight.value.handler;
      var threw;
      called, threw := RunHandler(h, r);
      sent := Settle(r == Invalid, threw);
    }

    /** The part of the response callback after the handler: clear the
        command in flight and, unless the handler threw, call `syncIt`. */
    method Settle(failed: bool, threw: bool) returns (sent: Option<Request>)
      requires Valid() && inFlight.Some?
      modifies this
      ensures Valid()
      ensures var a := Respond(old(Requests()), failed, threw); Requests() == a.next && sent == Tagged(a.sent)
      ensures NodesKept() && LinksKept() && DetailsKept()
      ensures NodePositions(nodeIndex) == old(NodePositions(nodeIndex))
      ensures DetailPositions(detailIndex) == old(DetailPositions(detailIndex))
    {
      inFlight := None;
      if failed || !threw {
        sent := SyncIt();
      } else {
        sent := None;
      }
    }

    /** The part of the response callback before `syncIt`: nothing for the
        failure sentinel, else the handler `h` on `r`. */
    method RunHandler(h: Handler, r: Response) returns (called: Option<Callback>, threw: bool)
      requires Valid()
      modifies nodeIndex.Values, detailIndex.Values
      ensures threw == Throws(h, r)
      ensures called == (if r == Invalid || threw then None else h.callback)
      ensures var runs := r != Invalid && h.Redraw?;
              && NodePositions(nodeIndex) == (if runs then Moved(old(NodePositions(nodeIndex)), AppliedNodes(r)) else old(NodePositions(nodeIndex)))
              && DetailPositions(detailIndex) == (if runs then Moved(old(DetailPositions(detailIndex)), AppliedDetails(r)) else old(DetailPositions(detailIndex)))
    {
      threw := false;
      called := None;
      if r != Invalid {
        match h {
          case Notify(callback) =>
            called := callback;
          case Redraw(callback) =>
            if r.Layout? {
              threw := UpdatePositions(r.nodes, r.details);
            } else {
              threw := true;
            }
            if !threw {
              called := callback;
            }
        }
      }
    }

    /** `updatePos`: write each listed node's and then each listed detail's
        position, throwing at the first uid the graph does not index. */
    method UpdatePositions(ps: seq<Position>, ds: seq<Position>) returns (threw: bool)
      requires Valid()
      modifies nodeIndex.Values, detailIndex.Values
      ensures threw == Throws(Redraw(None), Layout(ps, ds))
      ensures NodePositions(nodeIndex) == Moved(old(NodePositions(nodeIndex)), AppliedNodes(Layout(ps, ds)))
      ensures DetailPositions(detailIndex) == Moved(old(DetailPositions(detailIndex)), AppliedDetails(Layout(ps, ds)))
    {
      var k := MoveNodes(ps);
      if k < |ps| {
        return true;
      }
      ghost var moved := NodePositions(nodeIndex);
      var j := MoveDetails(ds);
      assert NodePositions(nodeIndex) == moved;
      threw := j < |ds|;
    }

    /** The first loop of `updatePos`; `k` is where it stopped. */
    method MoveNodes(ps: seq<Position>) returns (k: nat)
      requires Keyed(nodeIndex, (n: Node) => n.uid)
      modifies nodeIndex.Values
      ensures k == KnownPrefix(ps, nodeIndex.Keys)
      ensures NodePositions(nodeIndex) == Moved(old(NodePositions(nodeIndex)), ps[..k])
    {
      var index := nodeIndex;
      ghost var start := NodePositions(index);
      k := 0;
      while k < |ps|
        invariant k <= |ps|
        invariant forall j :: 0 <= j < k ==> ps[j].UID in index
        invariant NodePositions(index) == Moved(start, ps[..k])
      {
        var u := ps[k].UID;
        if u !in index {
          return;
        }
        PlaceNode(index, u, ps[k].X, ps[k].Y);
        assert ps[..k + 1][..k] == ps[..k];
        k := k + 1;
      }
    }

    /** The second loop of `updatePos`. */
    method MoveDetails(ds: seq<Position>) returns (k: nat)
      requires Keyed(detailIndex, (d: Detail) => d.uid)
      modifies detailIndex.Values
      ensures k == KnownPrefix(ds, detailIndex.Keys)
      ensures DetailPositions(detailIndex) == Moved(old(DetailPositions(detailIndex)), ds[..k])
    {
      var index := detailIndex;
      ghost var start := DetailPositions(index);
      k := 0;
      while k < |ds|
        invariant k <= |ds|
        invariant forall j :: 0 <= j < k ==> ds[j].UID in index
        invariant DetailPositions(index) == Moved(start, ds[..k])
      {
        var u := ds[k].UID;
        if u !in index {
          return;
        }
        PlaceDetail(index, u, ds[k].X, ds[k].Y);
        assert ds[..k + 1][..k] == ds[..k];
        k := k + 1;
      }
    }

    // -------------------------------------------------------------------------
    // Nodes
    // -------------------------------------------------------------------------

    /** `addNode(node, callback)`: list and index the node (a node under a
        uid in use is appended anyway and takes over the index entry), then
        queue `newnode`. The `update` flag has no effect: `update || true`. */
    method AddNode(input: NodeInput, callback: Option<Callback>) returns (node: Node, sent: Option<Request>)
      requires Valid()
      modifies this
      ensures Valid()
      ensures input.GivenNode? ==> node == input.node
      ensures input.NodeParameters? ==> fresh(node) && node.Fields() == NodeOf(input.params, js, input.random)
      ensures nodes == old(nodes) + [node] && nodeIndex == old(nodeIndex)[node.uid := node]
      ensures LinksKept() && DetailsKept()
      ensures Queued(Command(NewNode(node.Object(js)), Notify(callback)), sent)
      ensures old(Consistent()) && node.uid !in old(nodeIndex) ==> Consistent()
      ensures old(Consistent()) && node.uid in old(nodeIndex) && old(nodeIndex)[node.uid] != node ==> !Consistent()
    {
      match input {
        case GivenNode(n) =>
          node := n;
        case NodeParameters(p, random) =>
          node := new Node(p, js, random);
      }
      sent := InsertNode(node, callback);
    }

    /** The body of `addNode` once the node exists: push, index, queue `newnode`. */
    method InsertNode(node: Node, callback: Option<Callback>) returns (sent: Option<Request>)
      requires Valid()
      modifies this
      ensures Valid()
      ensures nodes == old(nodes) + [node] && nodeIndex == old(nodeIndex)[node.uid := node]
      ensures LinksKept() && DetailsKept()
      ensures Queued(Command(NewNode(node.Object(js)), Notify(callback)), sent)
      ensures old(Consistent()) && node.uid !in old(nodeIndex) ==> Consistent()
      ensures old(Consistent()) && node.uid in old(nodeIndex) && old(nodeIndex)[node.uid] != node ==> !Consistent()
    {
      if Agrees(nodes, nodeIndex, (n: Node) => n.uid) {
        if node.uid !in nodeIndex {
          AgreesAfterAdd(nodes, nodeIndex, (n: Node) => n.uid, node);
        } else if nodeIndex[node.uid] != node {
          DuplicateAddOrphans(nodes, nodeIndex, (n: Node) => n.uid, node);
        }
      }
      nodes := nodes + [node];
      nodeIndex := nodeIndex[node.uid := node];
      sent := Queue(NewNode(node.Object(js)), Notify(callback));
    }

    /** `node(uid)`: the node indexed under `uid`, or none (`-1`). */
    function FindNode(uid: string): (r: Option<Node>)
      requires Valid()
      reads this
      ensures r.Some? <==> uid in nodeIndex
      ensures r.Some? ==> r.value.uid == uid && r.value in nodeIndex.Values
    {
      Lookup(nodeIndex, uid)
    }

    /** `removeNode(node, callback)`: splice the list at `indexOf(node)` (the
        last element when the node is not listed), delete the index key, and
        queue `delnode`. */
    method RemoveNode(node: Node, callback: Option<Callback>) returns (sent: Option<Request>)
      requires Valid()
      modifies this
      ensures Valid()
      ensures nodes == RemoveFirst(old(nodes), node) && nodeIndex == old(nodeIndex) - {node.uid}
      ensures LinksKept() && DetailsKept()
      ensures Queued(Command(DelNode(node.uid), Notify(callback)), sent)
      ensures old(Consistent()) && node in old(nodes) ==> Consistent()
    {
      if Agrees(nodes, nodeIndex, (n: Node) => n.uid) && node in nodes {
        AgreesAfterRemove(nodes, nodeIndex, (n: Node) => n.uid, node);
      }
      var ind := IndexOf(nodes, node);
      nodes := Splice(nodes, ind);
      nodeIndex := nodeIndex - {node.uid};
      sent := Queue(DelNode(node.uid), Notify(callback));
    }

    /** `node.update(callback)`: queue `updatenode` with the node's document. */
    method UpdateNode(node: Node, callback: Option<Callback>) returns (sent: Option<Request>)
      requires Valid()
      modifies this
      ensures Valid()
      ensures NodesKept() && LinksKept() && DetailsKept()
      ensures Queued(Command(Commands.UpdateNode(node.Object(js)), Notify(callback)), sent)
    {
      sent := Queue(Commands.UpdateNode(node.Object(js)), Notify(callback));
    }

    // -------------------------------------------------------------------------
    // Links and link types
    // -------------------------------------------------------------------------

    /** The reference check `addLink` applies to its argument. */
    function LinkCheck(input: LinkInput): Option<ReferenceError>
      reads this
    {
      match input
      case GivenLink(l) =>
        CheckLink(Text(js, l.origin_uid), Text(js, l.terminus_uid), Text(js, l.relType), nodeIndex.Keys, linkTypes.Keys)
      case LinkParameters(p, _) =>
        CheckLink(Text(js, p.origin_uid), Text(js, p.terminus_uid), Text(js, p.relType), nodeIndex.Keys, linkTypes.Keys)
    }

    /** `addLink(link, callback)`: on a failed reference check, throw with
        nothing changed; otherwise list and index the link and queue
        `newrel`. The new link's ends are nodes of the graph. */
    method AddLink(input: LinkInput, callback: Option<Callback>) returns (result: Result<Link, ReferenceError>, sent: Option<Request>)
      requires Valid()
      modifies this
      ensures Valid()
      ensures old(LinkCheck(input)).Some? ==> result == Err(old(LinkCheck(input)).value) && sent == None && unchanged(this)
      ensures old(LinkCheck(input)).None? ==> result.Ok?
      ensures result.Ok? ==>
                var link := result.value;
                && (input.GivenLink? ==> link == input.link)
                && (input.LinkParameters? ==> fresh(link) && link.Fields() == LinkOf(input.params, js, input.random))
                && links == old(links) + [link] && linkIndex == old(linkIndex)[link.uid := link]
                && linkTypes == old(linkTypes) && NodesKept() && DetailsKept()
                && Queued(Command(NewRel(link.Object(js)), Notify(callback)), sent)
                && Origin(js, nodeIndex, link).Some? && Terminus(js, nodeIndex, link).Some?
                && Text(js, link.relType) in linkTypes
                && (old(Consistent()) && link.uid !in old(linkIndex) ==> Consistent())
    {
      var e := LinkCheck(input);
      if e.Some? {
        return Err(e.value), None;
      }
      var link: Link;
      match input {
        case GivenLink(l) =>
          link := l;
        case LinkParameters(p, random) =>
          link := new Link(p, js, random);
      }
      sent := InsertLink(link, callback);
      result := Ok(link);
    }

    /** The success path of `addLink`: push, index, queue `newrel`. */
    method InsertLink(link: Link, callback: Option<Callback>) returns (sent: Option<Request>)
      requires Valid()
      modifies this
      ensures Valid()
      ensures links == old(links) + [link] && linkIndex == old(linkIndex)[link.uid := link]
      ensures linkTypes == old(linkTypes) && NodesKept() && DetailsKept()
      ensures Queued(Command(NewRel(link.Object(js)), Notify(callback)), sent)
      ensures old(Consistent()) && link.uid !in old(linkIndex) ==> Consistent()
    {
      if Agrees(links, linkIndex, (l: Link) => l.uid) && link.uid !in linkIndex {
        AgreesAfterAdd(links, linkIndex, (l: Link) => l.uid, link);
      }
      links := links + [link];
      linkIndex := linkIndex[link.uid := link];
      sent := Queue(NewRel(link.Object(js)), Notify(callback));
    }

    /** `link(uid)`. */
    function FindLink(uid: string): (r: Option<Link>)
      requires Valid()
      reads this
      ensures r.Some? <==> uid in linkIndex
      ensures r.Some? ==> r.value.uid == uid && r.value in linkIndex.Values
    {
      Lookup(linkIndex, uid)
    }

    /** `removeLink(link, callback)`. */
    method RemoveLink(link: Link, callback: Option<Callback>) returns (sent: Option<Request>)
      requires Valid()
      modifies this
      ensures Valid()
      ensures links == RemoveFirst(old(links), link) && linkIndex == old(linkIndex) - {link.uid}
      ensures linkTypes == old(linkTypes) && NodesKept() && DetailsKept()
      ensures Queued(Command(DelRel(link.uid), Notify(callback)), sent)
      ensures old(Consistent()) && link in old(links) ==> Consistent()
    {
      if Agrees(links, linkIndex, (l: Link) => l.uid) && link in links {
        AgreesAfterRemove(links, linkIndex, (l: Link) => l.uid, link);
      }
      var ind := IndexOf(links, link);
      links := Splice(links, ind);
      linkIndex := linkIndex - {link.uid};
      sent := Queue(DelRel(link.uid), Notify(callback));
    }

    /** `link.update(callback)`. */
    method UpdateLink(link: Link, callback: Option<Callback>) returns (sent: Option<Request>)
      requires Valid()
      modifies this
      ensures Valid()
      ensures NodesKept() && LinksKept() && DetailsKept()
      ensures Queued(Command(UpdateRel(link.Object(js)), Notify(callback)), sent)
    {
      sent := Queue(UpdateRel(link.Object(js)), Notify(callback));
    }

    /** `addLinkType(linktype, callback)`: file it under its name (replacing
        any type of that name) and queue `newreltype`. */
    method AddLinkType(linkType: LinkType, callback: Option<Callback>) returns (sent: Option<Request>)
      requires Valid()
      modifies this
      ensures Valid()
      ensures linkTypes == old(linkTypes)[linkType.name := linkType]
      ensures links == old(links) && linkIndex == old(linkIndex) && NodesKept() && DetailsKept()
      ensures Queued(Command(NewRelType(linkType.Object(js)), Notify(callback)), sent)
    {
      linkTypes := linkTypes[linkType.name := linkType];
      sent := Queue(NewRelType(linkType.Object(js)), Notify(callback));
    }

    /** `linkType(name)`. */
    function FindLinkType(name: string): (r: Option<LinkType>)
      requires Valid()
      reads this
      ensures r.Some? <==> name in linkTypes
      ensures r.Some? ==> r.value.name == name && r.value in linkTypes.Values
    {
      Lookup(linkTypes, name)
    }

    // -------------------------------------------------------------------------
    // Details
    // -------------------------------------------------------------------------

    /** The reference check `addDetail` applies to its argument: raw
        parameters are checked before the constructor decodes them. */
    function DetailCheck(input: DetailInput): Option<ReferenceError>
      reads this
    {
      match input
      case GivenDetail(d) =>
        CheckDetail(Str(d.anchor_type), d.anchor_uid, nodeIndex.Keys, linkIndex.Keys)
      case DetailParameters(p, _) =>
        CheckDetail(p.anchor_type, Text(js, p.anchor_uid), nodeIndex.Keys, linkIndex.Keys)
    }

    /** `addDetail(detail, callback)`: on a failed anchor check, throw with
        nothing changed; otherwise list and index the detail and queue
        `newdetail`. */
    method AddDetail(input: DetailInput, callback: Option<Callback>) returns (result: Result<Detail, ReferenceError>, sent: Option<Request>)
      requires Valid()
      modifies this
      ensures Valid()
      ensures old(DetailCheck(input)).Some? ==> result == Err(old(DetailCheck(input)).value) && sent == None && unchanged(this)
      ensures old(DetailCheck(input)).None? ==> result.Ok?
      ensures result.Ok? ==>
                var detail := result.value;
                && (input.GivenDetail? ==> detail == input.detail)
                && (input.DetailParameters? ==> fresh(detail) && detail.Fields() == DetailOf(input.params, js, input.random))
                && details == old(details) + [detail] && detailIndex == old(detailIndex)[detail.uid := detail]
                && NodesKept() && LinksKept()
                && Queued(Command(NewDetail(detail.Object(js)), Notify(callback)), sent)
                && (input.GivenDetail? ==> AnchorOf(detail, nodeIndex, linkIndex) !in {NodeAnchor(None), LinkAnchor(None)})
                && (old(Consistent()) && detail.uid !in old(detailIndex) ==> Consistent())
    {
      var e := DetailCheck(input);
      if e.Some? {
        return Err(e.value), None;
      }
      var detail: Detail;
      match input {
        case GivenDetail(d) =>
          detail := d;
        case DetailParameters(p, random) =>
          detail := new Detail(p, js, random);
      }
      sent := InsertDetail(detail, callback);
      result := Ok(detail);
    }

    /** The success path of `addDetail`: push, index, queue `newdetail`. */
    method InsertDetail(detail: Detail, callback: Option<Callback>) returns (sent: Option<Request>)
      requires Valid()
      modifies this
      ensures Valid()
      ensures details == old(details) + [detail] && detailIndex == old(detailIndex)[detail.uid := detail]
      ensures NodesKept() && LinksKept()
      ensures Queued(Command(NewDetail(detail.Object(js)), Notify(callback)), sent)
      ensures old(Consistent()) && detail.uid !in old(detailIndex) ==> Consistent()
    {
      if Agrees(details, detailIndex, (d: Detail) => d.uid) && detail.uid !in detailIndex {
        AgreesAfterAdd(details, detailIndex, (d: Detail) => d.uid, detail);
      }
      details := details + [detail];
      detailIndex := detailIndex[detail.uid := detail];
      sent := Queue(NewDetail(detail.Object(js)), Notify(callback));
    }

    /** `detail(uid)`. */
    function FindDetail(uid: string): (r: Option<Detail>)
      requires Valid()
      reads this
      ensures r.Some? <==> uid in detailIndex
      ensures r.Some? ==> r.value.uid == uid && r.value in detailIndex.Values
    {
      Lookup(detailIndex, uid)
    }

    /** `removeDetail(detail, callback)`. */
    method RemoveDetail(detail: Detail, callback: Option<Callback>) returns (sent: Option<Request>)
      requires Valid()
      modifies this
      ensures Valid()
      ensures details == RemoveFirst(old(details), detail) && detailIndex == old(detailIndex) - {detail.uid}
      ensures NodesKept() && LinksKept()
      ensures Queued(Command(DelDetail(detail.uid), Notify(callback)), sent)
      ensures old(Consistent()) && detail in old(details) ==> Consistent()
    {
      if Agrees(details, detailIndex, (d: Detail) => d.uid) && detail in details {
        AgreesAfterRemove(details, detailIndex, (d: Detail) => d.uid, detail);
      }
      var ind := IndexOf(details, detail);
      details := Splice(details, ind);
      detailIndex := detailIndex - {detail.uid};
      sent := Queue(DelDetail(detail.uid), Notify(callback));
    }

    /** `detail.update(callback)`. */
    method UpdateDetail(detail: Detail, callback: Option<Callback>) returns (sent: Option<Request>)
      requires Valid()
      modifies this
      ensures Valid()
      ensures NodesKept() && LinksKept() && DetailsKept()
      ensures Queued(Command(Commands.UpdateDetail(detail.Object(js)), Notify(callback)), sent)
    {
      sent := Queue(Commands.UpdateDetail(detail.Object(js)), Notify(callback));
    }

    // -------------------------------------------------------------------------
    // Layout and extents
    // -------------------------------------------------------------------------

    /** `draw(callback)`: queue `drawgraph` with the layout handler. */
    method Draw(callback: Option<Callback>) returns (sent: Option<Request>)
      requires Valid()
      modifies this
      ensures Valid()
      ensures NodesKept() && LinksKept() && DetailsKept()
      ensures Queued(Command(DrawGraph, Redraw(callback)), sent)
    {
      sent := Queue(DrawGraph, Redraw(callback));
    }

    /** `minX`, `maxX`, `minY` and `maxY`: scan the indexed nodes, keeping a
        coordinate that no other beats; nothing (`undefined`) for an empty
        index. */
    method Extent(axis: Axis, bound: Bound) returns (m: Option<real>)
      ensures m.None? <==> nodeIndex.Keys == {}
      ensures m.Some? ==> exists u :: u in nodeIndex && Coord(nodeIndex[u], axis) == m.value
      ensures m.Some? ==> forall u :: u in nodeIndex ==> Bounds(bound, m.value, Coord(nodeIndex[u], axis))
    {
      m := None;
      var keys := nodeIndex.Keys;
      ghost var seen: set<string> := {};
      while keys != {}
        invariant keys + seen == nodeIndex.Keys && keys !! seen
        invariant m.None? <==> seen == {}
        invariant m.Some? ==> exists u :: u in seen && Coord(nodeIndex[u], axis) == m.value
        invariant m.Some? ==> forall u :: u in seen ==> Bounds(bound, m.value, Coord(nodeIndex[u], axis))
        decreases keys
      {
        var u :| u in keys;
        var v := Coord(nodeIndex[u], axis);
        if m.None? || Beats(bound, v, m.value) {
          m := Some(v);
        }
        keys := keys - {u};
        seen := seen + {u};
      }
    }

    /** `width()` (horizontal) and `height()` (vertical): the greatest minus
        the least coordinate, which is the largest difference between two
        nodes; nothing when there are no nodes (JavaScript gives NaN). */
    method Span(axis: Axis) returns (w: Option<real>)
      ensures w.None? <==> nodeIndex.Keys == {}
      ensures w.Some? ==> 0.0 <= w.value
      ensures w.Some? ==> exists a, b :: a in nodeIndex && b in nodeIndex
                            && w.value == Coord(nodeIndex[a], axis) - Coord(nodeIndex[b], axis)
      ensures w.Some? ==> forall a, b :: a in nodeIndex && b in nodeIndex
                            ==> Coord(nodeIndex[a], axis) - Coord(nodeIndex[b], axis) <= w.value
    {
      var hi := Extent(axis, Greatest);
      var lo := Extent(axis, Least);
      if hi.Some? && lo.Some? {
        w := Some(hi.value - lo.value);
        var a :| a in nodeIndex && Coord(nodeIndex[a], axis) == hi.value;
        var b :| b in nodeIndex && Coord(nodeIndex[b], axis) == lo.value;
        assert Bounds(Greatest, hi.value, Coord(nodeIndex[b], axis));
      } else {
        w := None;
      }
    }
  }
}
