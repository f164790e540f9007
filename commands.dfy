/** The command documents the graph sends to the server, the credentials
    `idTag` attaches to them, and the responses that come back. */
module Commands {
  import opened Entities

  /** One command; its `query` name on the wire is `QueryName`. */
  datatype Query =
    | NewNode(node: NodeDoc) | UpdateNode(node: NodeDoc) | DelNode(uid: string)
    | NewRel(link: LinkDoc) | UpdateRel(link: LinkDoc) | DelRel(uid: string)
    | NewRelType(linkType: LinkTypeDoc)
    | NewDetail(detail: DetailDoc) | UpdateDetail(detail: DetailDoc) | DelDetail(uid: string)
    | DrawGraph

  /** The `query` field of each command. */
  function QueryName(q: Query): string
  {
    match q
    case NewNode(_) => "newnode"
    case UpdateNode(_) => "updatenode"
    case DelNode(_) => "delnode"
    case NewRel(_) => "newrel"
    case UpdateRel(_) => "updaterel"
    case DelRel(_) => "delrel"
    case NewRelType(_) => "newreltype"
    case NewDetail(_) => "newdetail"
    case UpdateDetail(_) => "updatedetail"
    case DelDetail(_) => "deldetail"
    case DrawGraph => "drawgraph"
  }

  /** A command as handed to the transport: `idTag` adds the graph's
      `user`, `filename` and `password`. */
  datatype Request = Request(query: Query, user: string, filename: string, password: string)

  /** One entry of a layout response: `{UID, X, Y}`. */
  datatype Position = Position(UID: string, X: real, Y: real)

  /** A parsed response: the failure sentinel `"invalid"`, a layout (the
      answer to `drawgraph`), or any other document, which the model does not
      look into. */
  datatype Response =
    | Invalid
    | Layout(nodes: seq<Position>, details: seq<Position>)
    | Reply(body: string)
}
