/**
 * The element factories (`createElement`, `createArtboard`) in their two
 * revisions: the newer one knows rects, circles and text, the older one
 * only rects and circles. The fresh uuid is taken as an argument.
 */
module Factories {
  import opened Model

  /**
   * The props a factory reads. Props it does not read (a `name`, say) are
   * dropped and so are not listed. Each may be absent.
   */
  datatype Props = Props(
    x: real,
    y: real,
    width: Option<real>,
    height: Option<real>,
    rotation: Option<real>,
    fill: Option<string>,
    radius: Option<real>,
    content: Option<seq<Span>>,
    fontSize: Option<real>,
    fontFamily: Option<string>,
    fontWeight: Option<string>,
    fontStyle: Option<string>,
    textDecoration: Option<string>,
    textAlign: Option<string>,
    letterSpacing: Option<real>,
    baselineShift: Option<real>,
    textCase: Option<string>)

  const DefaultFill: string := "#000000"
  const Placeholder: seq<Span> := [Span("Type something...", map[])]
  const DefaultTextWidth: real := 200.0
  const DefaultTextHeight: real := 50.0
  const DefaultFontSize: real := 16.0

  /** The base every created element starts from: its id and type, no parent, nothing else. */
  function Base(kind: Kind, id: Id, x: real, y: real): (e: Element)
    ensures e.id == id && e.kind == kind && e.parentId.None? && e.x == x && e.y == y
    ensures e.width.None? && e.height.None? && e.radius.None? && e.rotation.None? && e.fill.None?
  {
    Element(id, kind, x, y, None, None, None, None, None, None, None, None, None, None, Plain)
  }

  /** A rect as both revisions build it: the size as given, rotation and fill defaulted when falsy. */
  function NewRect(props: Props, id: Id): (e: Element)
    ensures e.kind == Rect && e.id == id && e.parentId.None?
    ensures BoxOf(e) == Box(props.x, props.y, Num(props.width), Num(props.height))
    ensures e.rotation == Some(Or(props.rotation, 0.0)) && e.fill == Some(OrText(props.fill, DefaultFill))
    ensures e.radius.None? && e.details == Plain
  {
    Base(Rect, id, props.x, props.y).(width := props.width, height := props.height,
                                     rotation := Some(Or(props.rotation, 0.0)),
                                     fill := Some(OrText(props.fill, DefaultFill)))
  }

  /** A circle: centre and radius as given, no width or height, rotation and fill defaulted. */
  function NewCircle(props: Props, id: Id): (e: Element)
    ensures e.kind == Circle && e.id == id && e.parentId.None?
    ensures e.x == props.x && e.y == props.y && e.radius == props.radius
    ensures e.width.None? && e.height.None?
    ensures e.rotation == Some(Or(props.rotation, 0.0)) && e.fill == Some(OrText(props.fill, DefaultFill))
  {
    Base(Circle, id, props.x, props.y).(radius := props.radius,
                                       rotation := Some(Or(props.rotation, 0.0)),
                                       fill := Some(OrText(props.fill, DefaultFill)))
  }

  /** The text styles with their defaults: every falsy prop takes the stock value. */
  function TextStyle(props: Props): (d: Details)
    ensures d.TextDetails?
    ensures props.content.None? ==> d.content == Placeholder
    ensures props.content.Some? ==> d.content == props.content.value
    ensures d.fontSize == Or(props.fontSize, DefaultFontSize) && d.fontFamily == OrText(props.fontFamily, "Arial")
    ensures d.letterSpacing == Num(props.letterSpacing) && d.baselineShift == Num(props.baselineShift)
  {
    TextDetails(if props.content.Some? then props.content.value else Placeholder,
                Or(props.fontSize, DefaultFontSize),
                OrText(props.fontFamily, "Arial"),
                OrText(props.fontWeight, "normal"),
                OrText(props.fontStyle, "normal"),
                OrText(props.textDecoration, "none"),
                OrText(props.textAlign, "left"),
                Or(props.letterSpacing, 0.0),
                Or(props.baselineShift, 0.0),
                OrText(props.textCase, "none"))
  }

  /** A text box: 200 by 50 unless a nonzero size is given, no fill. */
  function NewText(props: Props, id: Id): (e: Element)
    ensures e.kind == Text && e.id == id && e.parentId.None? && e.fill.None?
    ensures e.x == props.x && e.y == props.y
    ensures e.width == Some(Or(props.width, DefaultTextWidth)) && e.height == Some(Or(props.height, DefaultTextHeight))
    ensures e.rotation == Some(Or(props.rotation, 0.0))
    ensures e.details == TextStyle(props)
  {
    Base(Text, id, props.x, props.y).(width := Some(Or(props.width, DefaultTextWidth)),
                                     height := Some(Or(props.height, DefaultTextHeight)),
                                     rotation := Some(Or(props.rotation, 0.0)),
                                     details := TextStyle(props))
  }

  /** `createElement` in `src/core/element.js`: rect, circle or text; any other type throws. */
  function CreateElement(kind: Kind, props: Props, id: Id): (r: Result<Element>)
    ensures r.Success? <==> kind == Rect || kind == Circle || kind == Text
    ensures r.Success? ==> r.value.kind == kind && r.value.id == id && r.value.parentId.None?
    ensures kind == Rect ==> r == Success(NewRect(props, id))
    ensures kind == Circle ==> r == Success(NewCircle(props, id))
    ensures kind == Text ==> r == Success(NewText(props, id))
  {
    match kind
    case Rect => Success(NewRect(props, id))
    case Circle => Success(NewCircle(props, id))
    case Text => Success(NewText(props, id))
    case _ => Failure("Unknown element type")
  }

  /** `createElement` in `src/utils/element.js`: the older revision, which knows no text. */
  function CreateElementOlder(kind: Kind, props: Props, id: Id): (r: Result<Element>)
    ensures r.Success? <==> kind == Rect || kind == Circle
    ensures r.Success? ==> r.value.kind == kind && r.value.id == id && r.value.parentId.None?
  {
    match kind
    case Rect => Success(NewRect(props, id))
    case Circle => Success(NewCircle(props, id))
    case _ => Failure("Unknown element type")
  }

  /** The newer factory builds whatever the older one builds, the same way, and text besides. */
  lemma NewerExtendsOlder(kind: Kind, props: Props, id: Id)
    ensures CreateElementOlder(kind, props, id).Success? ==>
              CreateElement(kind, props, id) == CreateElementOlder(kind, props, id)
    ensures CreateElement(kind, props, id).Success? && CreateElementOlder(kind, props, id).Failure? <==> kind == Text
  {
  }

  /** Text with no size, or a zero size, gets the 200 by 50 box at the given corner. */
  lemma TextDefaultBox(props: Props, id: Id)
    requires props.width.None? || props.width == Some(0.0)
    requires props.height.None? || props.height == Some(0.0)
    ensures BoxOf(CreateElement(Text, props, id).value) == Box(props.x, props.y, DefaultTextWidth, DefaultTextHeight)
  {
  }

  /** Text with no content shows the one placeholder span, unstyled. */
  lemma TextDefaultContent(props: Props, id: Id)
    requires props.content.None?
    ensures CreateElement(Text, props, id).value.details.content == [Span("Type something...", map[])]
  {
  }

  /**
   * `createArtboard` (the same in both revisions): the title defaults to
   * "Artboard" only when none is passed, the background is white and it
   * holds no children.
   */
  function CreateArtboard(x: real, y: real, width: real, height: real, title: Option<string>, id: Id): (a: Element)
    ensures a.kind == Artboard && a.id == id && a.parentId.None?
    ensures BoxOf(a) == Box(x, y, width, height)
    ensures a.details.ArtboardDetails? && a.details.backgroundColor == "#FFFFFF" && a.details.children == []
    ensures title.None? ==> a.details.title == "Artboard"
    ensures title.Some? ==> a.details.title == title.value
  {
    Base(Artboard, id, x, y).(width := Some(width), height := Some(height),
                             details := ArtboardDetails(if title.Some? then title.value else "Artboard", "#FFFFFF", []))
  }
}
