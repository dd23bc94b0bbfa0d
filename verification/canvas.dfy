/** The live preview canvas (`collateral/CollateralPreview.tsx`): its size
    per shape, where each of the five elements is drawn, the drag bounds and
    resize constraints it hands to the drag and resize widgets, the update
    records produced when a drag or a resize ends, the background pattern
    tile, and which layers are rendered at all.

    The canvas declares its own settings record, with one flat position per
    element and a "dragged" flag per element; it is modelled as written and
    not reconciled with the per-shape position sets of the design page. */
module Canvas {
  import opened Common
  import Design

  // ---------------------------------------------------------------------------
  // Elements and the canvas settings record
  // ---------------------------------------------------------------------------

  datatype Element = TableNumber | ActionText | QrCode | VenueName | Logo

  /** The element names the handlers are called with. */
  function ElementId(e: Element): string {
    match e
    case TableNumber => "tableNumber"
    case ActionText => "actionText"
    case QrCode => "qrCode"
    case VenueName => "venueName"
    case Logo => "logo"
  }

  /** The `switch (element)` of the handlers: None for a name no case
      matches. */
  function ParseElement(id: string): Option<Element> {
    if id == "tableNumber" then Some(TableNumber)
    else if id == "actionText" then Some(ActionText)
    else if id == "qrCode" then Some(QrCode)
    else if id == "venueName" then Some(VenueName)
    else if id == "logo" then Some(Logo)
    else None
  }

  /** The switch recognises exactly the five element names. */
  lemma ElementIdRoundTrip(e: Element, id: string)
    ensures ParseElement(ElementId(e)) == Some(e)
    ensures ParseElement(id) == Some(e) <==> id == ElementId(e)
  {
  }

  /** A width and height in CSS pixels; the sizes are fractional after a
      resize divides the dropped width. */
  datatype Dimensions = Dimensions(width: real, height: real)

  /** The fields of the settings record that the canvas reads. */
  datatype CanvasSettings = CanvasSettings(
    backgroundColor: string,
    textColor: string,
    tableNumber: string,
    actionText: string,
    venueName: string,
    qrValue: string,
    logoUrl: Option<string>,
    backgroundImageUrl: Option<string>,
    backgroundOpacity: real,
    shape: Shape,
    pattern: string,
    fontFamily: string,
    textStyle: TextStyle,
    tableNumberPosition: Point,
    actionTextPosition: Point,
    qrCodePosition: Point,
    venueNamePosition: Point,
    logoPosition: Point,
    tableNumberSize: real,
    actionTextSize: real,
    qrCodeSize: real,
    venueNameSize: real,
    logoSize: Dimensions,
    tableNumberDragged: bool,
    actionTextDragged: bool,
    qrCodeDragged: bool,
    venueNameDragged: bool,
    logoDragged: bool)

  function PositionOf(s: CanvasSettings, e: Element): Point {
    match e
    case TableNumber => s.tableNumberPosition
    case ActionText => s.actionTextPosition
    case QrCode => s.qrCodePosition
    case VenueName => s.venueNamePosition
    case Logo => s.logoPosition
  }

  function DraggedOf(s: CanvasSettings, e: Element): bool {
    match e
    case TableNumber => s.tableNumberDragged
    case ActionText => s.actionTextDragged
    case QrCode => s.qrCodeDragged
    case VenueName => s.venueNameDragged
    case Logo => s.logoDragged
  }

  /** Everything but the element positions, sizes and dragged flags. */
  datatype Content = Content(
    backgroundColor: string, textColor: string, tableNumber: string, actionText: string,
    venueName: string, qrValue: string, logoUrl: Option<string>, backgroundImageUrl: Option<string>,
    backgroundOpacity: real, shape: Shape, pattern: string, fontFamily: string, textStyle: TextStyle)

  function ContentOf(s: CanvasSettings): Content {
    Content(
      s.backgroundColor, s.textColor, s.tableNumber, s.actionText, s.venueName, s.qrValue,
      s.logoUrl, s.backgroundImageUrl, s.backgroundOpacity, s.shape, s.pattern, s.fontFamily, s.textStyle)
  }

  // ---------------------------------------------------------------------------
  // Update records and their shallow merge
  // ---------------------------------------------------------------------------

  /** The keys of `Partial<CollateralSettings>` the drag and resize handlers
      can set; every one may be absent. */
  datatype CanvasUpdate = CanvasUpdate(
    tableNumberPosition: Option<Point>,
    actionTextPosition: Option<Point>,
    qrCodePosition: Option<Point>,
    venueNamePosition: Option<Point>,
    logoPosition: Option<Point>,
    tableNumberSize: Option<real>,
    actionTextSize: Option<real>,
    qrCodeSize: Option<real>,
    venueNameSize: Option<real>,
    logoSize: Option<Dimensions>,
    tableNumberDragged: Option<bool>,
    actionTextDragged: Option<bool>,
    qrCodeDragged: Option<bool>,
    venueNameDragged: Option<bool>,
    logoDragged: Option<bool>)

  /** `{}`, the update with no keys. */
  const NoUpdate: CanvasUpdate := CanvasUpdate(
    None, None, None, None, None, None, None, None, None, None, None, None, None, None, None)

  /** `{ ...settings, ...updates }`. */
  function Apply(s: CanvasSettings, u: CanvasUpdate): CanvasSettings {
    s.(
      tableNumberPosition := u.tableNumberPosition.GetOr(s.tableNumberPosition),
      actionTextPosition := u.actionTextPosition.GetOr(s.actionTextPosition),
      qrCodePosition := u.qrCodePosition.GetOr(s.qrCodePosition),
      venueNamePosition := u.venueNamePosition.GetOr(s.venueNamePosition),
      logoPosition := u.logoPosition.GetOr(s.logoPosition),
      tableNumberSize := u.tableNumberSize.GetOr(s.tableNumberSize),
      actionTextSize := u.actionTextSize.GetOr(s.actionTextSize),
      qrCodeSize := u.qrCodeSize.GetOr(s.qrCodeSize),
      venueNameSize := u.venueNameSize.GetOr(s.venueNameSize),
      logoSize := u.logoSize.GetOr(s.logoSize),
      tableNumberDragged := u.tableNumberDragged.GetOr(s.tableNumberDragged),
      actionTextDragged := u.actionTextDragged.GetOr(s.actionTextDragged),
      qrCodeDragged := u.qrCodeDragged.GetOr(s.qrCodeDragged),
      venueNameDragged := u.venueNameDragged.GetOr(s.venueNameDragged),
      logoDragged := u.logoDragged.GetOr(s.logoDragged))
  }

  // ---------------------------------------------------------------------------
  // Canvas size, element boxes, drag bounds, resize constraints
  // ---------------------------------------------------------------------------

  /** The container: 300 wide for the rectangle, 400 for the square and the
      circle, 400 high for every shape. */
  function CanvasSize(shape: Shape): (r: Dimensions)
    ensures r.height == 400.0
    ensures r.width == 300.0 || r.width == 400.0
    ensures r.width < r.height <==> shape == Rectangle
  {
    Dimensions(if shape == Rectangle then 300.0 else 400.0, if shape == Rectangle then 400.0 else 400.0)
  }

  /** The CSS border radius of the container and of the background layer. */
  function BorderRadius(shape: Shape): string {
    if shape == Circle then "50%" else "20px"
  }

  /** How many times its height the resizable box of a text or QR element is
      wide. */
  function AspectRatio(e: Element): real {
    match e
    case TableNumber => 2.0
    case ActionText => 4.0
    case QrCode => 1.0
    case VenueName => 3.0
    case Logo => 1.0
  }

  /** The resizable box of a text or QR element whose stored size is `size`. */
  function BoxFor(e: Element, size: real): (r: Dimensions)
    ensures r.height == size && r.width == AspectRatio(e) * size
  {
    match e
    case TableNumber => Dimensions(size * 2.0, size)
    case ActionText => Dimensions(size * 4.0, size)
    case QrCode => Dimensions(size, size)
    case VenueName => Dimensions(size * 3.0, size)
    case Logo => Dimensions(size, size)
  }

  /** The width and height of the element's resizable box: derived from one
      stored size for the text and QR elements, stored whole for the logo. */
  function Box(s: CanvasSettings, e: Element): (r: Dimensions)
    ensures e != Logo ==> r.width == AspectRatio(e) * r.height
    ensures e == QrCode ==> r.width == r.height == s.qrCodeSize
    ensures e == Logo ==> r == s.logoSize
  {
    match e
    case TableNumber => BoxFor(TableNumber, s.tableNumberSize)
    case ActionText => BoxFor(ActionText, s.actionTextSize)
    case QrCode => BoxFor(QrCode, s.qrCodeSize)
    case VenueName => BoxFor(VenueName, s.venueNameSize)
    case Logo => s.logoSize
  }

  /** The rectangle handed to the drag widget as its bounds. */
  datatype Bounds = Bounds(left: real, top: real, right: real, bottom: real)

  /** `getElementBounds(width, height)`: the top-left corner ranges from the
      canvas origin to the point where the box touches the right and bottom
      edges. */
  function ElementBounds(shape: Shape, box: Dimensions): (r: Bounds)
    ensures r.left == 0.0 && r.top == 0.0
    ensures r.right + box.width == CanvasSize(shape).width
    ensures r.bottom + box.height == CanvasSize(shape).height
  {
    var c := CanvasSize(shape);
    Bounds(0.0, 0.0, c.width - box.width, c.height - box.height)
  }

  /** The bounds each element is dragged within, computed from the element's
      own box. */
  function DragBounds(s: CanvasSettings, e: Element): Bounds {
    ElementBounds(s.shape, Box(s, e))
  }

  predicate InBounds(p: Point, b: Bounds) {
    b.left <= p.x as real <= b.right && b.top <= p.y as real <= b.bottom
  }

  /** The element's box, placed with its top-left corner at `p`, lies inside
      the canvas. */
  predicate BoxInsideCanvas(s: CanvasSettings, e: Element, p: Point) {
    var c := CanvasSize(s.shape);
    var b := Box(s, e);
    0.0 <= p.x as real && p.x as real + b.width <= c.width
    && 0.0 <= p.y as real && p.y as real + b.height <= c.height
  }

  /** A position is within an element's drag bounds exactly when the
      element's box drawn there stays inside the canvas. */
  lemma DragBoundsKeepBoxInside(s: CanvasSettings, e: Element, p: Point)
    ensures InBounds(p, DragBounds(s, e)) <==> BoxInsideCanvas(s, e, p)
  {
  }

  /** `minConstraints` and `maxConstraints` of each element's resizable box. */
  function MinBox(e: Element): (r: Dimensions)
    ensures 0.0 < r.width && 0.0 < r.height
  {
    match e
    case TableNumber => Dimensions(50.0, 20.0)
    case ActionText => Dimensions(100.0, 20.0)
    case QrCode => Dimensions(80.0, 80.0)
    case VenueName => Dimensions(60.0, 20.0)
    case Logo => Dimensions(20.0, 20.0)
  }

  function MaxBox(e: Element): (r: Dimensions)
    ensures r.width <= CanvasSize(Rectangle).width && r.height <= CanvasSize(Rectangle).height
  {
    match e
    case TableNumber => Dimensions(200.0, 80.0)
    case ActionText => Dimensions(300.0, 60.0)
    case QrCode => Dimensions(200.0, 200.0)
    case VenueName => Dimensions(200.0, 40.0)
    case Logo => Dimensions(100.0, 100.0)
  }

  /** Every element's constraint range is non-empty, and the QR element's is
      square, like its box. */
  lemma ConstraintRanges(e: Element)
    ensures MinBox(e).width <= MaxBox(e).width && MinBox(e).height <= MaxBox(e).height
    ensures MinBox(QrCode).width == MinBox(QrCode).height && MaxBox(QrCode).width == MaxBox(QrCode).height
  {
  }

  // ---------------------------------------------------------------------------
  // adjustPositionForShape
  // ---------------------------------------------------------------------------

  /** The side of the square and circle canvases the placement rules use. */
  const ContainerSide: int := 400

  /** The position an element is drawn at: the stored one when the element
      has been dragged or the shape is the rectangle, otherwise a fixed
      placement per element and shape. A name no case matches keeps the
      stored position. */
  function AdjustPosition(s: CanvasSettings, original: Point, id: string): (r: Point)
    ensures s.shape == Rectangle ==> r == original
    ensures ParseElement(id).None? ==> r == original
    ensures ParseElement(id).Some? && DraggedOf(s, ParseElement(id).value) ==> r == original
  {
    match ParseElement(id)
    case None => original
    case Some(e) =>
      if DraggedOf(s, e) then original
      else if s.shape == Rectangle then original
      else
        var centerX := ContainerSide / 2;
        if s.shape == Square then
          match e
          case TableNumber => Point(40, 20)
          case ActionText => Point(40, 100)
          case QrCode => Point(40, 170)
          case VenueName => Point(centerX, ContainerSide - 15)
          case Logo => Point(ContainerSide - 35, 35)
        else
          match e
          case TableNumber => Point(centerX, ContainerSide * 10 / 100)
          case ActionText => Point(centerX, ContainerSide * 25 / 100)
          case QrCode => Point(centerX, ContainerSide * 50 / 100)
          case VenueName => Point(centerX, ContainerSide * 95 / 100)
          case Logo => Point(ContainerSide * 95 / 100, ContainerSide * 5 / 100)
  }

  /** Where the canvas draws an element. */
  function RenderedPosition(s: CanvasSettings, e: Element): Point {
    AdjustPosition(s, PositionOf(s, e), ElementId(e))
  }

  /** On the square and the circle, an element that has not been dragged is
      drawn at the same place whatever position is stored for it. */
  lemma UndraggedIgnoresStoredPosition(s: CanvasSettings, e: Element, p: Point, q: Point)
    requires s.shape != Rectangle && !DraggedOf(s, e)
    ensures AdjustPosition(s, p, ElementId(e)) == AdjustPosition(s, q, ElementId(e))
  {
  }

  /** The fixed placements on the square. */
  lemma SquarePlacements(s: CanvasSettings)
    requires s.shape == Square
    ensures !s.tableNumberDragged ==> RenderedPosition(s, TableNumber) == Point(40, 20)
    ensures !s.actionTextDragged ==> RenderedPosition(s, ActionText) == Point(40, 100)
    ensures !s.qrCodeDragged ==> RenderedPosition(s, QrCode) == Point(40, 170)
    ensures !s.venueNameDragged ==> RenderedPosition(s, VenueName) == Point(200, 385)
    ensures !s.logoDragged ==> RenderedPosition(s, Logo) == Point(365, 35)
  {
  }

  /** The fixed placements on the circle: the four text and QR elements on
      the vertical centre line, the logo near the top-right. */
  lemma CirclePlacements(s: CanvasSettings)
    requires s.shape == Circle
    ensures !s.tableNumberDragged ==> RenderedPosition(s, TableNumber) == Point(200, 40)
    ensures !s.actionTextDragged ==> RenderedPosition(s, ActionText) == Point(200, 100)
    ensures !s.qrCodeDragged ==> RenderedPosition(s, QrCode) == Point(200, 200)
    ensures !s.venueNameDragged ==> RenderedPosition(s, VenueName) == Point(200, 380)
    ensures !s.logoDragged ==> RenderedPosition(s, Logo) == Point(380, 20)
  {
  }

  /** On the square, the undragged venue name is placed 15 pixels above the
      bottom edge, so any venue-name size above 15 puts it outside its own
      drag bounds. */
  lemma SquareVenueOutsideBounds(s: CanvasSettings)
    requires s.shape == Square && !s.venueNameDragged && s.venueNameSize > 15.0
    ensures !InBounds(RenderedPosition(s, VenueName), DragBounds(s, VenueName))
  {
    SquarePlacements(s);
  }

  /** On the circle, the undragged logo is placed 20 pixels from the right
      edge, so a logo wider than 20 pixels starts outside its drag bounds. */
  lemma CircleLogoOutsideBounds(s: CanvasSettings)
    requires s.shape == Circle && !s.logoDragged && s.logoSize.width > 20.0
    ensures !InBounds(RenderedPosition(s, Logo), DragBounds(s, Logo))
  {
    CirclePlacements(s);
  }

  // ---------------------------------------------------------------------------
  // handleDragStop
  // ---------------------------------------------------------------------------

  /** The update recorded when a drag of element `id` ends at (x, y): that
      element's position and dragged flag, or nothing for an unknown name. */
  function DragStop(id: string, x: int, y: int): (u: CanvasUpdate)
    ensures ParseElement(id).None? ==> u == NoUpdate
  {
    match ParseElement(id)
    case None => NoUpdate
    case Some(TableNumber) => NoUpdate.(tableNumberPosition := Some(Point(x, y)), tableNumberDragged := Some(true))
    case Some(ActionText) => NoUpdate.(actionTextPosition := Some(Point(x, y)), actionTextDragged := Some(true))
    case Some(QrCode) => NoUpdate.(qrCodePosition := Some(Point(x, y)), qrCodeDragged := Some(true))
    case Some(VenueName) => NoUpdate.(venueNamePosition := Some(Point(x, y)), venueNameDragged := Some(true))
    case Some(Logo) => NoUpdate.(logoPosition := Some(Point(x, y)), logoDragged := Some(true))
  }

  /** Ending a drag moves exactly the dragged element to the drop point and
      marks it dragged; other elements, every size and all content keep their
      values. */
  lemma DragStopEffect(s: CanvasSettings, e: Element, x: int, y: int, other: Element)
    ensures var t := Apply(s, DragStop(ElementId(e), x, y));
            PositionOf(t, e) == Point(x, y) && DraggedOf(t, e)
            && (other != e ==> PositionOf(t, other) == PositionOf(s, other) && DraggedOf(t, other) == DraggedOf(s, other))
            && Box(t, other) == Box(s, other)
            && ContentOf(t) == ContentOf(s)
  {
  }

  /** An unknown element name changes nothing. */
  lemma DragStopUnknownId(s: CanvasSettings, id: string, x: int, y: int)
    requires ParseElement(id).None?
    ensures Apply(s, DragStop(id, x, y)) == s
  {
  }

  /** After a drag, the element is drawn exactly where it was dropped, on
      every shape. */
  lemma DroppedWhereReleased(s: CanvasSettings, e: Element, x: int, y: int)
    ensures RenderedPosition(Apply(s, DragStop(ElementId(e), x, y)), e) == Point(x, y)
  {
    DragStopEffect(s, e, x, y, e);
    ElementIdRoundTrip(e, ElementId(e));
  }

  // ---------------------------------------------------------------------------
  // handleResizeStop
  // ---------------------------------------------------------------------------

  /** The update recorded when a resize of element `id` ends, for the
      handler's declared size parameter of the given width and height: the width divided by the element's aspect
      ratio for the text elements, the width itself for the QR code, both
      dimensions for the logo, nothing for an unknown name. */
  function ResizeStop(id: string, width: real, height: real): (u: CanvasUpdate)
    ensures ParseElement(id).None? ==> u == NoUpdate
  {
    match ParseElement(id)
    case None => NoUpdate
    case Some(TableNumber) => NoUpdate.(tableNumberSize := Some(width / 2.0))
    case Some(ActionText) => NoUpdate.(actionTextSize := Some(width / 4.0))
    case Some(QrCode) => NoUpdate.(qrCodeSize := Some(width))
    case Some(VenueName) => NoUpdate.(venueNameSize := Some(width / 3.0))
    case Some(Logo) => NoUpdate.(logoSize := Some(Dimensions(width, height)))
  }

  /** The re-rendered box of a resized text or QR element has the width the
      resize ended with, and its height follows from the width through the
      aspect ratio; the logo keeps both dimensions as dropped, square or not.
      No other box, position, dragged flag or content changes. */
  lemma ResizeRoundTrip(s: CanvasSettings, e: Element, width: real, height: real, other: Element)
    ensures var t := Apply(s, ResizeStop(ElementId(e), width, height));
            (e != Logo ==> Box(t, e) == Dimensions(width, width / AspectRatio(e)))
            && (e == Logo ==> Box(t, e) == Dimensions(width, height))
            && (other != e ==> Box(t, other) == Box(s, other))
            && PositionOf(t, other) == PositionOf(s, other) && DraggedOf(t, other) == DraggedOf(s, other)
            && ContentOf(t) == ContentOf(s)
  {
    var t := Apply(s, ResizeStop(ElementId(e), width, height));
    ElementIdRoundTrip(e, ElementId(e));
    if e != Logo {
      assert Box(t, e).width == AspectRatio(e) * (width / AspectRatio(e));
    }
  }

  /** For the text and QR elements, the height the resize ended with is
      dropped. */
  lemma ResizeIgnoresHeight(s: CanvasSettings, e: Element, width: real, h1: real, h2: real)
    requires e != Logo
    ensures Apply(s, ResizeStop(ElementId(e), width, h1)) == Apply(s, ResizeStop(ElementId(e), width, h2))
  {
  }

  /** A 50 by 40 logo resize is kept as 50 by 40: nothing squares the logo. */
  lemma LogoResizeNotSquared(s: CanvasSettings)
    ensures Box(Apply(s, ResizeStop("logo", 50.0, 40.0)), Logo) == Dimensions(50.0, 40.0)
  {
  }

  // ---------------------------------------------------------------------------
  // Background pattern
  // ---------------------------------------------------------------------------

  /** The background images the patterns draw, one per distinct CSS
      `backgroundImage` recipe; triangles, crosshatch and herringbone share
      one recipe. The SVG path data of waves, zigzag and bubbles is not
      modelled. */
  datatype Motif =
    | DotMotif | StripeMotif | WaveMotif | ZigzagMotif | BubbleMotif | GridMotif | SquareMotif
    | CrossedDiagonalMotif | HoneycombMotif | DiamondMotif | RingMotif | LeafMotif | StarMotif
    | PlaidMotif | ConfettiMotif | PolkaMotif | MoroccanMotif

  /** The `backgroundImage` value a style object sets, in the text colour.
      The "leaves" value carries layer positions, which only the `background`
      shorthand accepts, so a browser drops it; the model records the value
      as set. */
  datatype Image = Image(motif: Motif, tint: string)

  /** `backgroundImage`, the side of the square `backgroundSize` tile, and the
      offset of the second layer in `backgroundPosition: "0 0, Npx Npx"`. */
  datatype Tile = Tile(image: Option<Image>, size: Option<int>, offset: Option<int>)

  const PlainTile: Tile := Tile(None, None, None)

  /** `getPatternStyle()` of the canvas. Every image is drawn in the text
      colour, every tile fits inside the smallest canvas side, an offset lies
      inside its tile (half of it for every pattern but confetti, which
      offsets 10 in 25), and only an image comes with a size or offset. */
  function PatternTile(pattern: string, textColor: string): (t: Tile)
    ensures t.image.Some? ==> t.image.value.tint == textColor
    ensures t.size.Some? ==> 0 < t.size.value <= 60
    ensures t.offset.Some? ==> t.size.Some? && 0 < t.offset.value < t.size.value
    ensures t.offset.Some? && pattern != "confetti" ==> 2 * t.offset.value == t.size.value
    ensures t.size.Some? || t.offset.Some? ==> t.image.Some?
  {
    if pattern == "dots" then Tile(Some(Image(DotMotif, textColor)), Some(15), None)
    else if pattern == "stripes" then Tile(Some(Image(StripeMotif, textColor)), Some(20), None)
    else if pattern == "waves" then Tile(Some(Image(WaveMotif, textColor)), None, None)
    else if pattern == "zigzag" then Tile(Some(Image(ZigzagMotif, textColor)), None, None)
    else if pattern == "bubbles" then Tile(Some(Image(BubbleMotif, textColor)), None, None)
    else if pattern == "grid" then Tile(Some(Image(GridMotif, textColor)), Some(20), None)
    else if pattern == "squares" then Tile(Some(Image(SquareMotif, textColor)), Some(40), None)
    else if pattern == "triangles" then Tile(Some(Image(CrossedDiagonalMotif, textColor)), Some(40), None)
    else if pattern == "hexagons" then Tile(Some(Image(HoneycombMotif, textColor)), Some(60), Some(30))
    else if pattern == "diamonds" then Tile(Some(Image(DiamondMotif, textColor)), Some(30), None)
    else if pattern == "circles" then Tile(Some(Image(RingMotif, textColor)), Some(30), Some(15))
    else if pattern == "leaves" then Tile(Some(Image(LeafMotif, textColor)), Some(16), None)
    else if pattern == "stars" then Tile(Some(Image(StarMotif, textColor)), Some(30), Some(15))
    else if pattern == "crosshatch" then Tile(Some(Image(CrossedDiagonalMotif, textColor)), Some(20), Some(10))
    else if pattern == "plaid" then Tile(Some(Image(PlaidMotif, textColor)), Some(40), Some(20))
    else if pattern == "confetti" then Tile(Some(Image(ConfettiMotif, textColor)), Some(25), Some(10))
    else if pattern == "polka" then Tile(Some(Image(PolkaMotif, textColor)), Some(30), None)
    else if pattern == "moroccan" then Tile(Some(Image(MoroccanMotif, textColor)), Some(24), Some(12))
    else if pattern == "herringbone" then Tile(Some(Image(CrossedDiagonalMotif, textColor)), Some(15), None)
    else PlainTile
  }

  // ---------------------------------------------------------------------------
  // Text styles and the rendered view
  // ---------------------------------------------------------------------------

  /** The CSS of every text element. */
  datatype TextCss = TextCss(
    fontWeight: string, textDecoration: string, backgroundColor: string, padding: string, display: string)

  /** `getTextStyles()`: the flags select weight, decoration, and (together)
      the highlight background and its padding. */
  function TextStyles(ts: TextStyle): (r: TextCss)
    ensures r.fontWeight == "bold" <==> ts.bold
    ensures r.textDecoration == "underline" <==> ts.underline
    ensures r.padding == "0 4px" <==> ts.highlight
    ensures !ts.bold ==> r.fontWeight == "normal"
    ensures !ts.underline ==> r.textDecoration == "none"
    ensures !ts.highlight ==> r.padding == "0"
    ensures ts.highlight ==> r.backgroundColor == ts.highlightColor
    ensures !ts.highlight ==> r.backgroundColor == "transparent"
    ensures r.display == "inline-block"
  {
    TextCss(
      if ts.bold then "bold" else "normal",
      if ts.underline then "underline" else "none",
      if ts.highlight then ts.highlightColor else "transparent",
      if ts.highlight then "0 4px" else "0",
      "inline-block")
  }

  /** The CSS gives the style back: two styles that render alike have the
      same three flags, and the same colour when highlighting is on. */
  lemma TextStylesReflectStyle(a: TextStyle, b: TextStyle)
    requires TextStyles(a) == TextStyles(b)
    ensures a.bold == b.bold && a.underline == b.underline && a.highlight == b.highlight
    ensures a.highlight ==> a.highlightColor == b.highlightColor
  {
  }

  /** What each element hands to its drag and resize widgets. */
  datatype Placement = Placement(position: Point, bounds: Bounds, box: Dimensions, minBox: Dimensions, maxBox: Dimensions)

  /** The full-size background image layer. */
  datatype BackgroundLayer = BackgroundLayer(imageUrl: string, opacity: real, borderRadius: string)

  datatype CanvasView = CanvasView(
    size: Dimensions,
    borderRadius: string,
    backgroundColor: string,
    color: string,
    tile: Tile,
    background: Option<BackgroundLayer>,
    fontFamily: string,
    elements: map<Element, Placement>,
    text: TextCss,
    actionTextMaxWidth: string,
    qr: QrSymbol)

  /** The venue name is drawn only when it is non-empty and the logo only
      when its URL is truthy; the other three elements always are. */
  predicate Shown(s: CanvasSettings, e: Element) {
    match e
    case VenueName => s.venueName != ""
    case Logo => Truthy(s.logoUrl)
    case _ => true
  }

  function PlacementOf(s: CanvasSettings, e: Element): Placement {
    Placement(RenderedPosition(s, e), DragBounds(s, e), Box(s, e), MinBox(e), MaxBox(e))
  }

  /** The preview as rendered from the settings. */
  function Render(s: CanvasSettings): (v: CanvasView)
    ensures v.elements.Keys == set e | Shown(s, e)
    ensures forall e | e in v.elements ::
              v.elements[e].box == Box(s, e)
              && v.elements[e].bounds == ElementBounds(s.shape, v.elements[e].box)
              && v.elements[e].position == RenderedPosition(s, e)
              && v.elements[e].minBox == MinBox(e) && v.elements[e].maxBox == MaxBox(e)
    ensures v.background.Some? <==> Truthy(s.backgroundImageUrl)
    ensures v.background.Some? ==>
              v.background.value.opacity == s.backgroundOpacity && v.background.value.borderRadius == v.borderRadius
    ensures v.qr.size == s.qrCodeSize - 20.0 && v.qr.level == H && v.qr.value == s.qrValue && !v.qr.includeMargin
    ensures v.size == CanvasSize(s.shape)
    ensures v.tile == PatternTile(s.pattern, s.textColor)
    ensures v.text == TextStyles(s.textStyle)
  {
    var shown := set e: Element | Shown(s, e);
    CanvasView(
      CanvasSize(s.shape),
      BorderRadius(s.shape),
      s.backgroundColor,
      s.textColor,
      PatternTile(s.pattern, s.textColor),
      if Truthy(s.backgroundImageUrl)
      then Some(BackgroundLayer(s.backgroundImageUrl.value, s.backgroundOpacity, BorderRadius(s.shape)))
      else None,
      s.fontFamily,
      map e | e in shown :: PlacementOf(s, e),
      TextStyles(s.textStyle),
      if s.shape == Rectangle then "300px" else if s.shape == Square then "300px" else "3000px",
      QrSymbol(s.qrValue, s.qrCodeSize - 20.0, "black", "white", H, false))
  }

  /** The QR element's box is square, and the symbol inside it is 20 pixels
      smaller, leaving the 10-pixel white padding on each side. */
  lemma QrBoxSquare(s: CanvasSettings)
    ensures Box(s, QrCode).width == Box(s, QrCode).height
    ensures Render(s).qr.size + 20.0 == Box(s, QrCode).width
  {
  }

  /** The action text is cut off at 300 pixels on the rectangle and the square
      but practically never on the circle. */
  lemma ActionTextMaxWidth(s: CanvasSettings)
    ensures Render(s).actionTextMaxWidth == (if s.shape == Circle then "3000px" else "300px")
  {
  }

  /** The design page's default venue-name size of 18 gives a 54 by 18 box,
      below the venue name's minimum of 60 by 20. */
  lemma DefaultVenueBoxBelowMinimum()
    ensures var b := BoxFor(VenueName, Design.DefaultSettings().venueNameSize as real);
            b.width < MinBox(VenueName).width && b.height < MinBox(VenueName).height
  {
  }
}
