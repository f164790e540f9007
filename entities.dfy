/** The four entity types of psynth.js: `Node`, `Link`, `LinkType` and
    `Detail`. Each constructor normalises its parameters field by field (a
    missing or `"default"` value gets a fixed default, text is percent-decoded,
    numbers are coerced), and each `object()` builds the wire document of the
    entity. The normalisation and the serialisers are pure functions over field
    records; the classes give the entities their identity, and `Node` and
    `Detail` their mutable position. */
module Entities {
  import opened JsRuntime
  import opened Uid

  // ---------------------------------------------------------------------------
  // Laws of the foreign functions the round trips rely on
  // ---------------------------------------------------------------------------

  /** Decoding undoes encoding: `decodeURIComponent(encodeURIComponent(s)) == s`. */
  ghost predicate DecodeLaw(js: Js)
  {
    forall s :: js.decode(js.encode(s)) == s
  }

  /** `Number(String(n)) == n` for the one number `n`, and its printed form is
      not one of the `shape` words. JavaScript promises the first for every
      double; over the reals it can only be asked of the numbers in use. */
  predicate ReadsBack(js: Js, n: real)
  {
    js.parseNumber(js.numberText(n)) == n && js.numberText(n) !in ShapeSides && js.numberText(n) != "default"
  }

  /** The laws can be met: a runtime that encodes as the identity and prints
      every number as `6` satisfies the decoding law and reads 6 back. */
  lemma LawsSatisfiable()
    ensures var js := Js(s => s, s => s, _ => 6.0, _ => "6");
            DecodeLaw(js) && ReadsBack(js, 6.0)
  {
    var js := Js(s => s, s => s, _ => 6.0, _ => "6");
    assert "6" !in ShapeSides;
  }

  /** A text field with default `default` comes back from its encoded form:
      false only when the encoding happens to read `"default"`. */
  predicate Survives(js: Js, text: string, default: string)
  {
    js.encode(text) == "default" ==> text == default
  }

  // ---------------------------------------------------------------------------
  // Node
  // ---------------------------------------------------------------------------

  datatype NodeParams = NodeParams(name: Param, x: Param, y: Param, shape: Param, radius: Param,
                                   color: Param, uid: Param, image: Param)

  datatype NodeFields = NodeFields(name: string, x: real, y: real, shape: real, radius: real,
                                   color: string, uid: string, image: string)

  /** Side counts of the named shapes. */
  const ShapeSides: map<string, real> :=
    map["circle" := 0.0, "triangle" := 3.0, "square" := 4.0, "diamond" := 4.0,
        "pentagon" := 5.0, "pent" := 5.0, "hexagon" := 6.0, "hex" := 6.0,
        "septagon" := 7.0, "sept" := 7.0, "octagon" := 8.0, "oct" := 8.0]

  /** The `shape` field: 6 sides by default, a named shape by the table, any
      other value through `Number`. */
  function Shape(js: Js, v: Param): (sides: real)
    ensures IsDefault(v) ==> sides == 6.0
    ensures !IsDefault(v) && v.Str? && v.s in ShapeSides ==> sides == ShapeSides[v.s]
    ensures !IsDefault(v) && !(v.Str? && v.s in ShapeSides) ==> sides == Number(js, v)
  {
    if IsDefault(v) then 6.0
    else if v == Str("circle") then 0.0
    else if v == Str("triangle") then 3.0
    else if v == Str("square") || v == Str("diamond") then 4.0
    else if v == Str("pentagon") || v == Str("pent") then 5.0
    else if v == Str("hexagon") || v == Str("hex") then 6.0
    else if v == Str("septagon") || v == Str("sept") then 7.0
    else if v == Str("octagon") || v == Str("oct") then 8.0
    else Number(js, v)
  }

  /** A text field: `default` when missing or `"default"`, else decoded. */
  function TextOr(js: Js, v: Param, default: string): string
  {
    if IsDefault(v) then default else Decode(js, v)
  }

  /** A numeric field: `default` when missing or `"default"`, else `Number(v)`. */
  function NumberOr(js: Js, v: Param, default: real): real
  {
    if IsDefault(v) then default else Number(js, v)
  }

  /** An identifier field: a fresh `UID()` when missing or `"default"`, else decoded. */
  function UidOr(js: Js, v: Param, r: Randomness): string
  {
    if IsDefault(v) then UID(r) else Decode(js, v)
  }

  /** What `new Node(params)` stores. */
  function NodeOf(p: NodeParams, js: Js, r: Randomness): NodeFields
  {
    NodeFields(
      name := TextOr(js, p.name, "Node"),
      x := NumberOr(js, p.x, 1.0),
      y := NumberOr(js, p.y, 1.0),
      shape := Shape(js, p.shape),
      radius := NumberOr(js, p.radius, 24.0),
      color := TextOr(js, p.color, "default"),
      uid := UidOr(js, p.uid, r),
      image := TextOr(js, p.image, "default"))
  }

  /** A node built from nothing but defaults. */
  lemma NodeDefaults(js: Js, r: Randomness, v: Param)
    requires IsDefault(v)
    ensures NodeOf(NodeParams(v, v, v, v, v, v, v, v), js, r)
            == NodeFields("Node", 1.0, 1.0, 6.0, 24.0, "default", UID(r), "default")
  {
  }

  /** The wire document of `Node.object()`. */
  datatype NodeDoc = NodeDoc(name: string, uid: string, x: real, y: real, shape: string,
                             picture: string, radius: real, color: string)

  function NodeObject(js: Js, f: NodeFields): NodeDoc
  {
    NodeDoc(name := js.encode(f.name), uid := f.uid, x := f.x, y := f.y, shape := js.numberText(f.shape),
            picture := js.encode(f.image), radius := f.radius, color := js.encode(f.color))
  }

  /** The constructor parameters a node document is read back into (the
      server's `PICTURE` becomes `image`). */
  function NodeParamsOf(d: NodeDoc): NodeParams
  {
    NodeParams(name := Str(d.name), x := Num(d.x), y := Num(d.y), shape := Str(d.shape),
               radius := Num(d.radius), color := Str(d.color), uid := Str(d.uid), image := Str(d.picture))
  }

  /** Serialising a node and constructing from the document gives back the
      same fields, provided the runtime's decoding undoes its encoding, the
      printed shape reads back as the same number, the uid is unchanged by
      decoding (the serialiser sends it unencoded but the constructor decodes
      it) and no text field encodes to the word `"default"`. */
  lemma NodeRoundTrip(js: Js, f: NodeFields, r: Randomness)
    requires DecodeLaw(js) && ReadsBack(js, f.shape)
    requires js.decode(f.uid) == f.uid && f.uid != "default"
    requires Survives(js, f.name, "Node") && Survives(js, f.color, "default") && Survives(js, f.image, "default")
    ensures NodeOf(NodeParamsOf(NodeObject(js, f)), js, r) == f
  {
    var d := NodeObject(js, f);
    assert js.decode(js.encode(f.name)) == f.name;
    assert js.decode(js.encode(f.color)) == f.color;
    assert js.decode(js.encode(f.image)) == f.image;
  }

  class Node {
    const name: string
    const shape: real
    const radius: real
    const color: string
    const uid: string
    const image: string
    /** The position, which a layout response overwrites in place. */
    var x: real
    var y: real

    function Fields(): NodeFields
      reads this
    {
      NodeFields(name, x, y, shape, radius, color, uid, image)
    }

    constructor (p: NodeParams, js: Js, r: Randomness)
      ensures Fields() == NodeOf(p, js, r)
    {
      var f := NodeOf(p, js, r);
      name, x, y, shape, radius, color, uid, image := f.name, f.x, f.y, f.shape, f.radius, f.color, f.uid, f.image;
    }

    /** `object()`. */
    function Object(js: Js): NodeDoc
      reads this
    {
      NodeObject(js, Fields())
    }
  }

  // ---------------------------------------------------------------------------
  // Link
  // ---------------------------------------------------------------------------

  datatype LinkParams = LinkParams(name: Param, relType: Param, value: Param, origin_uid: Param,
                                   terminus_uid: Param, uid: Param)

  /** `relType` is the JavaScript field `type`. A link's name defaults to its
      type, which may itself be missing, so the name is a dynamic value; the
      type and the endpoints are stored as given. */
  datatype LinkFields = LinkFields(name: Param, relType: Param, value: real, origin_uid: Param,
                                   terminus_uid: Param, uid: string)

  /** What `new Link(params)` stores. */
  function LinkOf(p: LinkParams, js: Js, r: Randomness): LinkFields
  {
    LinkFields(
      name := if IsDefault(p.name) then p.relType else Str(Decode(js, p.name)),
      relType := p.relType,
      value := NumberOr(js, p.value, 1.0),
      origin_uid := p.origin_uid,
      terminus_uid := p.terminus_uid,
      uid := UidOr(js, p.uid, r))
  }

  /** A link built with no name, value or uid is named after its type, has
      value 1 and a fresh `UID()`; type and ends are kept as given, missing or not. */
  lemma LinkDefaults(js: Js, r: Randomness, v: Param, relType: Param, origin: Param, terminus: Param)
    requires IsDefault(v)
    ensures LinkOf(LinkParams(v, relType, v, origin, terminus, v), js, r)
            == LinkFields(relType, relType, 1.0, origin, terminus, UID(r))
  {
  }

  datatype LinkDoc = LinkDoc(uid: string, name: string, value: real, rel_type: Param, o_uid: Param, t_uid: Param)

  /** `Link.object()`; `encodeURIComponent` of a missing name encodes the text "undefined". */
  function LinkObject(js: Js, f: LinkFields): LinkDoc
  {
    LinkDoc(uid := f.uid, name := js.encode(Text(js, f.name)), value := f.value, rel_type := f.relType,
            o_uid := f.origin_uid, t_uid := f.terminus_uid)
  }

  function LinkParamsOf(d: LinkDoc): LinkParams
  {
    LinkParams(name := Str(d.name), relType := d.rel_type, value := Num(d.value), origin_uid := d.o_uid,
               terminus_uid := d.t_uid, uid := Str(d.uid))
  }

  /** Serialising a link and constructing from the document gives back the
      same fields when the name is text that survives encoding (a name that
      encodes to `"default"` is replaced by the type) and the uid is unchanged
      by decoding. */
  lemma LinkRoundTrip(js: Js, f: LinkFields, r: Randomness)
    requires DecodeLaw(js)
    requires js.decode(f.uid) == f.uid && f.uid != "default"
    requires f.name.Str? && (js.encode(f.name.s) == "default" ==> f.name == f.relType)
    ensures LinkOf(LinkParamsOf(LinkObject(js, f)), js, r) == f
  {
    assert js.decode(js.encode(f.name.s)) == f.name.s;
  }

  class Link {
    const name: Param
    const relType: Param
    const value: real
    const origin_uid: Param
    const terminus_uid: Param
    const uid: string

    function Fields(): LinkFields
    {
      LinkFields(name, relType, value, origin_uid, terminus_uid, uid)
    }

    constructor (p: LinkParams, js: Js, r: Randomness)
      ensures Fields() == LinkOf(p, js, r)
    {
      var f := LinkOf(p, js, r);
      name, relType, value, origin_uid, terminus_uid, uid := f.name, f.relType, f.value, f.origin_uid, f.terminus_uid, f.uid;
    }

    function Object(js: Js): LinkDoc
    {
      LinkObject(js, Fields())
    }
  }

  // ---------------------------------------------------------------------------
  // LinkType
  // ---------------------------------------------------------------------------

  datatype LinkTypeParams = LinkTypeParams(name: Param, icon: Param, tile: Param, max: Param, color: Param)

  /** `params || {}`: a link type built without parameters. */
  const NoLinkTypeParams := LinkTypeParams(Undefined, Undefined, Undefined, Undefined, Undefined)

  datatype LinkTypeFields = LinkTypeFields(name: string, icon: string, tile: string, max: real, color: string)

  /** What `new LinkType(params)` stores. */
  function LinkTypeOf(p: LinkTypeParams, js: Js): LinkTypeFields
  {
    LinkTypeFields(
      name := TextOr(js, p.name, "Links"),
      icon := TextOr(js, p.icon, "img/link_icon.png"),
      tile := TextOr(js, p.tile, "img/link_tile.png"),
      max := NumberOr(js, p.max, 10.0),
      color := TextOr(js, p.color, "#1aa2d4"))
  }

  lemma LinkTypeDefaults(js: Js)
    ensures LinkTypeOf(NoLinkTypeParams, js) == LinkTypeFields("Links", "img/link_icon.png", "img/link_tile.png", 10.0, "#1aa2d4")
  {
  }

  datatype LinkTypeDoc = LinkTypeDoc(NAME: string, ICON: string, TILE: string, MAX: real, COLOR: string)

  function LinkTypeObject(js: Js, f: LinkTypeFields): LinkTypeDoc
  {
    LinkTypeDoc(js.encode(f.name), js.encode(f.icon), js.encode(f.tile), f.max, js.encode(f.color))
  }

  /** The parameters a link type document is read back into, field by field. */
  function LinkTypeParamsOf(d: LinkTypeDoc): LinkTypeParams
  {
    LinkTypeParams(Str(d.NAME), Str(d.ICON), Str(d.TILE), Num(d.MAX), Str(d.COLOR))
  }

  lemma LinkTypeRoundTrip(js: Js, f: LinkTypeFields)
    requires DecodeLaw(js)
    requires Survives(js, f.name, "Links") && Survives(js, f.icon, "img/link_icon.png")
    requires Survives(js, f.tile, "img/link_tile.png") && Survives(js, f.color, "#1aa2d4")
    ensures LinkTypeOf(LinkTypeParamsOf(LinkTypeObject(js, f)), js) == f
  {
    assert js.decode(js.encode(f.name)) == f.name;
    assert js.decode(js.encode(f.icon)) == f.icon;
    assert js.decode(js.encode(f.tile)) == f.tile;
    assert js.decode(js.encode(f.color)) == f.color;
  }

  class LinkType {
    const name: string
    const icon: string
    const tile: string
    const max: real
    const color: string

    function Fields(): LinkTypeFields
    {
      LinkTypeFields(name, icon, tile, max, color)
    }

    constructor (p: LinkTypeParams, js: Js)
      ensures Fields() == LinkTypeOf(p, js)
    {
      var f := LinkTypeOf(p, js);
      name, icon, tile, max, color := f.name, f.icon, f.tile, f.max, f.color;
    }

    function Object(js: Js): LinkTypeDoc
    {
      LinkTypeObject(js, Fields())
    }
  }

  // ---------------------------------------------------------------------------
  // Detail
  // ---------------------------------------------------------------------------

  datatype DetailParams = DetailParams(kind: Param, name: Param, uid: Param, anchor_uid: Param,
                                       anchor_type: Param, content: Param, x: Param, y: Param)

  datatype DetailFields = DetailFields(name: string, kind: string, anchor_uid: string, anchor_type: string,
                                       uid: string, content: string, x: real, y: real)

  /** What `new Detail(params)` stores (`kind` is the JavaScript field
      `type`): the name defaults to the normalised kind; anchor and content
      are decoded whether given or not; the position has no default. */
  function DetailOf(p: DetailParams, js: Js, r: Randomness): DetailFields
  {
    var kind := TextOr(js, p.kind, "comment");
    DetailFields(
      name := TextOr(js, p.name, kind),
      kind := kind,
      anchor_uid := Decode(js, p.anchor_uid),
      anchor_type := Decode(js, p.anchor_type),
      uid := UidOr(js, p.uid, r),
      content := Decode(js, p.content),
      x := Number(js, p.x),
      y := Number(js, p.y))
  }

  /** A detail built with no kind, name or uid is a `comment` named
      `comment` with a fresh `UID()`. */
  lemma DetailDefaults(js: Js, r: Randomness, v: Param, p: DetailParams)
    requires IsDefault(v)
    ensures var f := DetailOf(p.(kind := v, name := v, uid := v), js, r);
            f.kind == "comment" && f.name == "comment" && f.uid == UID(r)
  {
  }

  datatype DetailDoc = DetailDoc(anchor_uid: string, anchor_type: string, uid: string, name: string,
                                 content: string, kind: string, x: real, y: real)

  /** `Detail.object()`: only name and content are encoded. */
  function DetailObject(js: Js, f: DetailFields): DetailDoc
  {
    DetailDoc(f.anchor_uid, f.anchor_type, f.uid, js.encode(f.name), js.encode(f.content), f.kind, f.x, f.y)
  }

  function DetailParamsOf(d: DetailDoc): DetailParams
  {
    DetailParams(kind := Str(d.kind), name := Str(d.name), uid := Str(d.uid), anchor_uid := Str(d.anchor_uid),
                 anchor_type := Str(d.anchor_type), content := Str(d.content), x := Num(d.x), y := Num(d.y))
  }

  /** Serialising a detail and constructing from the document gives back the
      same fields when the fields sent unencoded (type, uid, anchor) are
      unchanged by decoding, the type is not the word `"default"`, and the
      name survives encoding. */
  lemma DetailRoundTrip(js: Js, f: DetailFields, r: Randomness)
    requires DecodeLaw(js)
    requires js.decode(f.kind) == f.kind && f.kind != "default"
    requires js.decode(f.uid) == f.uid && f.uid != "default"
    requires js.decode(f.anchor_uid) == f.anchor_uid && js.decode(f.anchor_type) == f.anchor_type
    requires Survives(js, f.name, f.kind)
    ensures DetailOf(DetailParamsOf(DetailObject(js, f)), js, r) == f
  {
    assert js.decode(js.encode(f.name)) == f.name;
    assert js.decode(js.encode(f.content)) == f.content;
  }

  class Detail {
    const name: string
    const kind: string
    const anchor_uid: string
    const anchor_type: string
    const uid: string
    const content: string
    /** The position, which a layout response overwrites in place. */
    var x: real
    var y: real

    function Fields(): DetailFields
      reads this
    {
      DetailFields(name, kind, anchor_uid, anchor_type, uid, content, x, y)
    }

    constructor (p: DetailParams, js: Js, r: Randomness)
      ensures Fields() == DetailOf(p, js, r)
    {
      var f := DetailOf(p, js, r);
      name, kind, anchor_uid, anchor_type, uid, content, x, y :=
        f.name, f.kind, f.anchor_uid, f.anchor_type, f.uid, f.content, f.x, f.y;
    }

    function Object(js: Js): DetailDoc
      reads this
    {
      DetailObject(js, Fields())
    }
  }
}
