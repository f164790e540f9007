# psynth.js graph store, in Dafny

This project models the client-side core of psynth.js (`psynth.js`). That core has three parts.

- **The `Graph` store.** Nodes, links and details each live in an insertion-ordered list and in a dictionary keyed by uid. Link types live in a dictionary keyed by name.
- **The serial request queue.** It mirrors every change to the server: `queue`, `syncIt` and `idTag`.
- **The entities.** The `Node`, `Link`, `LinkType` and `Detail` constructors normalise their parameters, and each entity's `object()` builds its wire document. The derived queries of the entities are modelled too: a node's links and neighbours, a link's parallel links and ends, and a detail's anchor. So is the identifier generator `UID()`.

Modules:

- `Wrappers`: `Option` and `Result`.
- `JsRuntime`: the dynamic values constructors receive (`undefined`, text, number). It also holds the JavaScript built-ins the code applies to them: `decodeURIComponent`, `encodeURIComponent`, `Number`, and `String` of a number. These are foreign functions. They are passed in as a `Js` record. The laws the proofs need are stated as predicates and required where used: decoding undoes encoding for every text, and printing a number reads back for the one number in question.
- `Uid`: `UID()` as a template fill over 31 nibbles, which are an input.
- `Entities`: each constructor as a pure function from parameters to the fields it stores. Each `object()` is a pure function from fields to the document. The round-trip lemmas relate the two. The entities themselves are classes: identity matters, because list and index share objects, `indexOf` compares references, and `draw` moves nodes and details in place.
- `Collections`: `indexOf` and `splice`, and the agreement between a list and a dictionary.
- `Commands`: the command documents, the tagged request, and the parsed responses.
- `RequestQueue`:
  - the queue as a state machine over values: pending commands, the command in flight, and `transit`;
  - runs over a sequence of events, with the FIFO, single-flight and stall properties.
- `Queries`: the node, link and detail queries. Each is a filter over the link list, and a loop method is proved equal to it.
- `GraphStore`: the class `Graph`, whose methods update its lists, dictionaries and queue fields in place. Each method is tied to the queue model and to the collection lemmas.

The transport is the environment:

- a method that dispatches a command returns it as `sent`;
- `Graph.OnResponse(r)` is the server answering the command in flight.

The `update` argument of every add and remove is `update || true`. It is therefore always true, and the model has no such argument: every add and remove queues its command.

Where psynth.js throws (`addLink`, `addDetail` with a bad reference), the model returns `Err` and provably changes nothing. Where a lookup returns `-1` or `undefined`, the model returns `None`.

## Model

| member | source | states |
|---|---|---|
| Uid.UID | psynth.js:1945-1950 | The identifier has 36 characters. There are dashes at 8, 13, 18 and 23, the digit `4` at 14, and one of `8`, `9`, `a`, `b` at 19. Every other character is a lower-case hex digit. |
| Uid.UIDInjective | psynth.js:1945-1950 | Two draws give the same identifier exactly when they agree on every nibble, except the top two bits of the one for the `y` hole, which `(r&3)\|8` discards. |
| Uid.FillInjective | psynth.js:1946-1948 | Filling any template is injective up to the bits the `y` holes discard. |
| Uid.FillAt | psynth.js:1946-1948 | Each character of a filled template is the template's own character, a hex digit for `x`, or one of `8`..`b` for `y`. |
| Uid.Variant | psynth.js:1947 | `(r & 0x3) \| 0x8` lies in 8..11. |
| Uid.Hex | psynth.js:1948 | `v.toString(16)` of a nibble is one of the sixteen lower-case hex digits. |
| Uid.TemplateHoles | psynth.js:1946 | The template has 31 holes, all `x` except the sixteenth, which is the `y`. |
| Entities.Shape | psynth.js:825-860 | Missing or `"default"` gives 6 sides. `circle` 0, `triangle` 3, `square`/`diamond` 4, `pentagon`/`pent` 5, `hexagon`/`hex` 6, `septagon`/`sept` 7, `octagon`/`oct` 8. Anything else goes through `Number`. |
| Entities.NodeDefaults | psynth.js:798-897 | A node built from missing or `"default"` parameters is named `Node`, sits at (1, 1), has 6 sides and radius 24, colour and image `default`, and a fresh `UID()`. |
| Entities.Node.constructor | psynth.js:795-945 | The stored fields are the normalised parameters. |
| Entities.NodeRoundTrip | psynth.js:1204-1208 | Building a node from its `object()` document gives back the same fields. This needs the decoding law, and the printed shape must read back as the same number without being a shape word. It also needs the uid to be unchanged by decoding and no text field to encode to `"default"`. |
| Entities.Link.constructor | psynth.js:1250-1312 | The name defaults to the raw `type` and is decoded otherwise. The value defaults to 1. The uid defaults to a fresh `UID()`. Type and ends are stored as given. |
| Entities.LinkDefaults | psynth.js:1253-1276 | A link built without name, value or uid is named after its `type` (missing or not), has value 1 and a fresh `UID()`. |
| Entities.LinkRoundTrip | psynth.js:1469-1472 | Building a link from its `object()` document gives back the same fields. This requires a text name that does not encode to `"default"` unless it equals the type, and a uid unchanged by decoding. |
| Entities.LinkTypeDefaults | psynth.js:1515-1558 | `new LinkType()` without parameters is `Links`, `img/link_icon.png`, `img/link_tile.png`, 10, `#1aa2d4`. |
| Entities.LinkType.constructor | psynth.js:1515-1593 | The stored fields are the normalised parameters. |
| Entities.LinkTypeRoundTrip | psynth.js:1618-1621 | Building a link type from its `object()` document gives back the same fields. |
| Entities.Detail.constructor | psynth.js:1679-1757 | The kind defaults to `comment`, the name to the kind, and the uid to a fresh `UID()`. Anchor and content are always decoded. The position is `Number` of the parameters. |
| Entities.DetailDefaults | psynth.js:1682-1705 | A detail built without type, name or uid is a `comment` named `comment` with a fresh `UID()`. |
| Entities.DetailRoundTrip | psynth.js:1803-1806 | Building a detail from its `object()` document gives back the same fields, when the fields sent unencoded are unchanged by decoding. |
| Collections.IndexOf | psynth.js:252 | `indexOf` is -1 exactly when the element is absent. Otherwise it is the position of its first occurrence. |
| Collections.Splice | psynth.js:253 | When `start` names a position (a negative one counting from the end), `splice(start, 1)` takes out one copy of that element and nothing else: one fewer element, the same multiset less that one, earlier elements in place and later ones moved down one place. A start past the end removes nothing. |
| Collections.RemovePresent | psynth.js:252-253 | Removing a present element deletes its first occurrence and nothing else: the multiset loses exactly one copy. |
| Collections.RemoveShifts | psynth.js:252-253 | After removing a present element, each later element moves down one place and each earlier element stays. |
| Collections.RemoveAbsent | psynth.js:252-253 | Removing an absent element drops the last element of a non-empty list (`splice(-1, 1)`). |
| Collections.AgreesAfterAdd | psynth.js:163-171 | Appending an entity under a fresh key keeps the list and the dictionary in agreement. |
| Collections.DuplicateAddOrphans | psynth.js:163-171 | Appending a second entity under a key in use breaks the agreement: the earlier entity stays listed but is no longer indexed. |
| Collections.AgreesAfterRemove | psynth.js:252-254 | Splicing out a listed entity and deleting its key keeps the agreement. |
| RequestQueue.SyncIt | psynth.js:89-113 | A command is sent exactly when one is pending, and it becomes the command in flight. Nothing is lost or reordered: the command sent, followed by what stays pending, is what was pending. With nothing pending the queue falls idle. The invariant is kept. |
| RequestQueue.Push | psynth.js:129-141 | `queue` appends. An idle queue dispatches the command at once and starts draining; a draining queue only appends. |
| RequestQueue.Respond | psynth.js:96-106 | The failure sentinel skips the handler, and otherwise the handler runs. The next command is dispatched unless the handler threw, which stalls the queue with its pending commands. |
| RequestQueue.Fifo | psynth.js:89-141 | Over any run, the commands sent plus those still pending are exactly the commands enqueued, in order. Answers come back for exactly the commands sent, in order, with at most one outstanding. |
| RequestQueue.SentInOrder | psynth.js:89-141 | Over any run, dispatch order is enqueue order. |
| RequestQueue.AnsweredInOrder | psynth.js:89-141 | Over any run, the in-flight command and those sent are those answered plus what is in flight at the end. |
| RequestQueue.StallIsPermanent | psynth.js:96-107 | A stalled queue stays stalled and sends nothing more, whatever follows. |
| RequestQueue.FailedThenNext | psynth.js:96-106 | After an `invalid` answer to the first of two commands, its handler is skipped and the second is still dispatched. |
| RequestQueue.DrainThenRestart | psynth.js:108-111 | Answering the last command clears `transit`, and the next `queue` call dispatches at once. |
| Queries.FilterContents | psynth.js:1051-1057 | A query loop keeps every occurrence of a matching link (counted by multiset) and nothing else. |
| Queries.FilterUnion | psynth.js:1101 | Inclusion–exclusion: filtering on `p \|\| q` keeps as many elements as the two filters together, less those both keep. |
| Queries.Along | psynth.js:1047-1107 | `outLinks`, `inLinks` and `allLinks`: a link is listed exactly when it is in the link list and its origin or terminus is strictly the node's uid. |
| Queries.AllLinksCount | psynth.js:1095-1107 | `allLinks` has as many links as `outLinks` and `inLinks` together, less the self-loops. |
| Queries.LinksAt | psynth.js:1047-1107 | The loop builds exactly the filter of the link list. |
| Queries.Neighbours | psynth.js:1119-1182 | There is one entry per followed link, in order. Each entry is the node indexed under the far end, testing the terminus first for `allNeighbors`. |
| Queries.NeighbourIsFarEnd | psynth.js:1119-1182 | A present neighbour is the indexed node whose uid is the far end. An absent one (`undefined`) means no node is indexed under it. |
| Queries.NeighboursOf | psynth.js:1119-1182 | The loop builds exactly that sequence. |
| Queries.Parallel | psynth.js:1414-1427 | A link is listed exactly when it joins the same two ends in either direction. A listed link is parallel to itself. |
| Queries.ParallelSymmetric | psynth.js:1420-1421 | Among listed links, parallelism is symmetric. |
| Queries.ParallelOf | psynth.js:1414-1427 | The loop builds exactly that filter. |
| Queries.Origin | psynth.js:1435-1438 | The origin is present exactly when a node is indexed under the origin's key, and it is that node. |
| Queries.Terminus | psynth.js:1446-1449 | The same for the terminus. |
| Queries.AnchorOf | psynth.js:1771-1781 | The anchor is a node lookup exactly for anchor type `Node`, a link lookup exactly for `Link`, and `undefined` otherwise. Each lookup is present exactly when the uid is indexed. |
| GraphStore.CheckLink | psynth.js:281-292 | The error is `Invalid origin node.` when the origin is unknown, else `Invalid terminus node.` when the terminus is unknown, else `Invalid LinkType.` when the type is unknown, else there is none. Each case holds in both directions. |
| GraphStore.CheckDetail | psynth.js:490-497 | It fails only for anchor type `Node` with an unindexed node uid, or `Link` with an unindexed link uid. Any other anchor type passes. |
| GraphStore.KnownPrefix | psynth.js:618-621 | The layout loop writes the leading entries with known uids and stops (throws) at the first unknown one. |
| GraphStore.Moved | psynth.js:616-626 | Writing positions never adds or removes an entity. |
| GraphStore.MovedExactly | psynth.js:616-626 | Each listed entity takes the last position listed for it. Every other entity keeps its position. |
| GraphStore.PlaceNode | psynth.js:619-620 | Writing one node's `x` and `y` moves that node and no other. |
| GraphStore.PlaceDetail | psynth.js:623-624 | Writing one detail's `x` and `y` moves that detail and no other. |
| GraphStore.Graph.constructor | psynth.js:47-88 | A new graph has empty collections and an idle queue, and keeps the given credentials. |
| GraphStore.Graph.SyncIt | psynth.js:89-113 | The graph's queue fields step as `RequestQueue.SyncIt`. The dispatched command carries the credentials (`idTag`), and the collections are unchanged. |
| GraphStore.Graph.Queue | psynth.js:129-141 | The queue fields step as `RequestQueue.Push`, and the collections are unchanged. |
| GraphStore.Graph.OnResponse | psynth.js:96-106 | The queue steps as `RequestQueue.Respond`. The callback runs unless the answer is `invalid` or the handler threw. After a layout answer to `draw`, node and detail positions are the response written over the old ones, up to the first unknown uid. Otherwise nothing moves. |
| GraphStore.Graph.Settle | psynth.js:105-106 | After the handler, the command in flight is cleared, and `syncIt` runs unless the handler threw. |
| GraphStore.Graph.RunHandler | psynth.js:627-631 | The `draw` handler throws exactly on a non-layout answer or an unknown uid, and it calls the callback only when it does not throw. |
| GraphStore.Graph.UpdatePositions | psynth.js:616-626 | `updatePos` writes the known node entries, stopping at the first unknown uid. Only when all node entries are known does it write the detail entries in the same way. |
| GraphStore.Graph.MoveNodes | psynth.js:618-621 | The node loop writes exactly the known prefix of the response. |
| GraphStore.Graph.MoveDetails | psynth.js:622-625 | The detail loop writes exactly the known prefix. |
| GraphStore.Graph.AddNode | psynth.js:157-180 | The entity argument is used as given; parameters build a fresh node. The node is appended and indexed under its uid, and `newnode` is queued. A fresh uid keeps list and index agreeing. A duplicate uid orphans the earlier node from the index. |
| GraphStore.Graph.InsertNode | psynth.js:163-178 | The list, index and queue effect of `addNode` once the node exists. |
| GraphStore.Graph.FindNode | psynth.js:224-234 | `node(uid)` is present exactly when indexed, and is then the node with that uid. |
| GraphStore.Graph.RemoveNode | psynth.js:249-260 | The list loses the first occurrence of the node, or its last element when the node is absent. The key is deleted and `delnode` is queued. Removing a listed node keeps the agreement. |
| GraphStore.Graph.UpdateNode | psynth.js:1219-1224 | It queues `updatenode` with the node's document and changes no collection. |
| GraphStore.Graph.AddLink | psynth.js:278-317 | A failed check gives its error and leaves everything unchanged, with nothing queued. A passed check succeeds whenever decoding does, and decoding is total in this model. On success the link is appended and indexed, and `newrel` is queued. Its origin, terminus and type are then in the graph. |
| GraphStore.Graph.InsertLink | psynth.js:295-313 | The list, index and queue effect of a successful `addLink`. |
| GraphStore.Graph.FindLink | psynth.js:361-371 | `link(uid)` is present exactly when indexed. |
| GraphStore.Graph.RemoveLink | psynth.js:386-397 | It splices and deletes as `removeNode` does, and queues `delrel`. |
| GraphStore.Graph.UpdateLink | psynth.js:1482-1487 | It queues `updaterel` with the link's document. |
| GraphStore.Graph.AddLinkType | psynth.js:413-425 | It files the type under its name, replacing any type of that name, and queues `newreltype`. |
| GraphStore.Graph.FindLinkType | psynth.js:453-463 | `linkType(name)` is present exactly when filed. |
| GraphStore.Graph.AddDetail | psynth.js:487-522 | A failed anchor check gives its error and leaves everything unchanged. Otherwise the detail is appended and indexed, and `newdetail` is queued. A given detail's anchor then resolves. |
| GraphStore.Graph.InsertDetail | psynth.js:500-518 | The list, index and queue effect of a successful `addDetail`. |
| GraphStore.Graph.FindDetail | psynth.js:565-575 | `detail(uid)` is present exactly when indexed. |
| GraphStore.Graph.RemoveDetail | psynth.js:589-601 | It splices and deletes as `removeNode` does, and queues `deldetail`. |
| GraphStore.Graph.UpdateDetail | psynth.js:1816-1821 | It queues `updatedetail` with the detail's document. |
| GraphStore.Graph.Draw | psynth.js:613-633 | It queues `drawgraph` with the layout handler. |
| GraphStore.Graph.Extent | psynth.js:666-747 | `minX`, `maxX`, `minY`, `maxY` are undefined exactly for an empty node index. Otherwise each is a coordinate of some node that is ≤ (or ≥) every node's coordinate. |
| GraphStore.Graph.Span | psynth.js:755-769 | With no nodes, `width` and `height` are `None`, which stands for JavaScript's NaN (`undefined - undefined`). Otherwise each is non-negative and is the largest difference between the coordinates of two nodes, that is, max − min. |

## Left out

- The `https`/`$.get` shim, the TLS override, and building the URL with `JSON.stringify`/`JSON.parse` (psynth.js:5-23, 95-96). These are network I/O. The transport is the environment, and responses arrive already parsed.
- `publish` (psynth.js:643-658): floating-point offsets and a `1080/height()` that divides by zero on a flat graph.
- `createGraph` and `loadGraph` (psynth.js:1843-1930): bootstrap network glue.
- `LinkType.update` (psynth.js:1631-1650): the whole method is left out, and `Commands.Query` has no `updatereltype` command. Its handler rewrites the value and type of every link of the edited type from a server response shape that is not part of this model.
- `Node.addDetail`, `Link.addDetail`, and the `details()`/`detailList()` of nodes and links (psynth.js:962-1035, 1329-1402). They read fields these entities do not have, so their results are `undefined`/`NaN` artefacts.
- The accessors `nodes()`, `nodeList()`, `links()`, `linkList()`, `linkTypes()`, `details()` and `detailList()` of the graph. They return the fields themselves, which are the fields of `Graph`.
- `console.log` diagnostics: the default handler and the `"failure"` message.
- `encodeURIComponent`, `decodeURIComponent`, `Number` and `String`: foreign functions, taken as inputs with stated laws. Percent-encoding itself is not implemented.
- URIError: decoding and encoding are total functions here. In JavaScript `decodeURIComponent` throws on a malformed escape. So a constructor throws on a raw name such as `"100%"` (psynth.js:804), and `addLink`/`addDetail` can throw after their reference check has passed (psynth.js:1259, 1275, 1696, 1706-1708). `encodeURIComponent` throws on a lone surrogate inside `object()` (psynth.js:1206, 1471, 1620, 1805). By then `addNode`, `addLink` and `addDetail` have already listed and indexed the entity (psynth.js:163-175), so it stays in the graph with no command queued. None of these throws is modelled.
- The write-back into `params`: the `Node`, `Link`, `LinkType` and `Detail` constructors store each normalised value back into the caller's parameter object (psynth.js:798-897, 1253-1276, 1519-1558, 1682-1708). One example is `params.uid = p().UID()` at psynth.js:883. Parameters are values here, so two effects are lost. Passing the same object to `addNode` twice reuses the first generated uid, which orphans the earlier node as `Collections.DuplicateAddOrphans` describes. And every text field is decoded a second time.
- `Math.random`: the 31 nibbles of a `UID()` call are an input.
- NaN and the infinities: numbers are reals. The empty-graph `width`/`height` (NaN in JavaScript) is `None`.
- The `graph` back-reference of entities: queries take the graph's collections as arguments.
- Edits to entity fields after construction. Only a node's and a detail's `x` and `y` can change here, and only a layout answer changes them. These fields are immutable:
  - Node: `name`, `shape`, `radius`, `color`, `uid` and `image`;
  - Detail: `name`, `kind`, `anchor_uid`, `anchor_type`, `uid` and `content`;
  - Link and LinkType: every field.

  The source's own examples show callers editing fields before `update()`: `n.name = ...; n.radius += 6` (psynth.js:1214-1216), `d.content = ...` (psynth.js:1812) and `lt.name = ...` (psynth.js:1627). `LinkType.update`'s handler also reassigns a link's `type`. None of these edits is modelled. So `UpdateNode` and `UpdateDetail` send the constructed fields with the current position. A caller that reassigns a `uid` or a link type's `name` after filing breaks the index, and that is not modelled either: `Graph.Valid()` relies on each entry staying filed under its own key.
- GraphStore.Graph.AddLinkType: only a `LinkType` object is accepted. The source's own "better way" example passes plain parameters (psynth.js:1508-1513). `addLinkType` never builds a `LinkType` from them: it files the plain object under `params.name` (psynth.js:417), then throws a TypeError at `linktype.object()` (psynth.js:420), because a plain object has no `object` method. In that path the entry is filed and later `addLink` checks accept it, but nothing is queued and the caller gets an exception. The model does not represent that path.
- Callbacks are tokens that are assumed to return normally. A callback that throws (which would stall the queue like the layout handler) is not modelled.
- Property names inherited from `Object.prototype` (such as `constructor`) seen by `in`: dictionaries are plain maps.
- A layout response is a value with both a node list and a detail list. A response with a node list but no detail list is not represented.
- GraphStore.Graph.AddDetail: the anchor is proved to resolve only for a detail passed as an entity. For raw parameters the check looks at the undecoded `anchor_uid`, but the constructor stores the decoded one, so the two can differ.
