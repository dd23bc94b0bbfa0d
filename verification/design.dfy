/** The design page (`pages/Design.tsx`): the collateral settings record it
    owns, its default value, the shallow-merge `updateSettings` every editing
    panel calls, and the flag that swaps the editing panels for the order
    form. */
module Design {
  import opened Common

  datatype Size = Size(width: int, height: int)

  datatype Icons = Icons(coffee: bool, face: bool, flower: bool, wineglass: bool, plate: bool, cocktail: bool)

  datatype FontSizes = FontSizes(tableNumber: int, actionText: int, venueName: int)

  /** One element position per canvas element; the page keeps one such set per
      shape. */
  datatype PositionSet = PositionSet(
    tableNumberPosition: Point,
    actionTextPosition: Point,
    qrCodePosition: Point,
    venueNamePosition: Point,
    logoPosition: Point)

  datatype Settings = Settings(
    backgroundColor: string,
    textColor: string,
    tableNumber: string,
    actionText: string,
    venueName: string,
    qrValue: string,
    logoUrl: Option<string>,
    backgroundImageUrl: Option<string>,
    backgroundOpacity: real,
    layout: string,
    shape: Shape,
    pattern: string,
    fontFamily: string,
    textStyle: TextStyle,
    icons: Icons,
    cornerRadius: int,
    fontSize: FontSizes,
    rectanglePositions: PositionSet,
    squarePositions: PositionSet,
    circlePositions: PositionSet,
    tableNumberSize: int,
    actionTextSize: int,
    qrCodeSize: int,
    venueNameSize: int,
    logoSize: Size)

  /** `Partial<CollateralSettings>`: every key may be absent. */
  datatype Patch = Patch(
    backgroundColor: Option<string>,
    textColor: Option<string>,
    tableNumber: Option<string>,
    actionText: Option<string>,
    venueName: Option<string>,
    qrValue: Option<string>,
    logoUrl: Option<Option<string>>,
    backgroundImageUrl: Option<Option<string>>,
    backgroundOpacity: Option<real>,
    layout: Option<string>,
    shape: Option<Shape>,
    pattern: Option<string>,
    fontFamily: Option<string>,
    textStyle: Option<TextStyle>,
    icons: Option<Icons>,
    cornerRadius: Option<int>,
    fontSize: Option<FontSizes>,
    rectanglePositions: Option<PositionSet>,
    squarePositions: Option<PositionSet>,
    circlePositions: Option<PositionSet>,
    tableNumberSize: Option<int>,
    actionTextSize: Option<int>,
    qrCodeSize: Option<int>,
    venueNameSize: Option<int>,
    logoSize: Option<Size>)

  // ---------------------------------------------------------------------------
  // The settings record seen as a JavaScript object: keys and values
  // ---------------------------------------------------------------------------

  /** `keyof CollateralSettings`, spelled as the property names. */
  datatype Key =
    | backgroundColor | textColor | tableNumber | actionText | venueName | qrValue
    | logoUrl | backgroundImageUrl | backgroundOpacity | layout | shape | pattern
    | fontFamily | textStyle | icons | cornerRadius | fontSize
    | rectanglePositions | squarePositions | circlePositions
    | tableNumberSize | actionTextSize | qrCodeSize | venueNameSize | logoSize

  /** Any value a settings property can hold. */
  datatype Value =
    | Text(s: string)
    | MaybeText(o: Option<string>)
    | Fraction(r: real)
    | ShapeValue(sh: Shape)
    | StyleValue(ts: TextStyle)
    | IconsValue(ic: Icons)
    | Count(n: int)
    | FontSizesValue(fs: FontSizes)
    | PositionsValue(ps: PositionSet)
    | SizeValue(sz: Size)

  /** `settings[k]`. */
  function Get(s: Settings, k: Key): Value {
    match k
    case backgroundColor => Text(s.backgroundColor)
    case textColor => Text(s.textColor)
    case tableNumber => Text(s.tableNumber)
    case actionText => Text(s.actionText)
    case venueName => Text(s.venueName)
    case qrValue => Text(s.qrValue)
    case logoUrl => MaybeText(s.logoUrl)
    case backgroundImageUrl => MaybeText(s.backgroundImageUrl)
    case backgroundOpacity => Fraction(s.backgroundOpacity)
    case layout => Text(s.layout)
    case shape => ShapeValue(s.shape)
    case pattern => Text(s.pattern)
    case fontFamily => Text(s.fontFamily)
    case textStyle => StyleValue(s.textStyle)
    case icons => IconsValue(s.icons)
    case cornerRadius => Count(s.cornerRadius)
    case fontSize => FontSizesValue(s.fontSize)
    case rectanglePositions => PositionsValue(s.rectanglePositions)
    case squarePositions => PositionsValue(s.squarePositions)
    case circlePositions => PositionsValue(s.circlePositions)
    case tableNumberSize => Count(s.tableNumberSize)
    case actionTextSize => Count(s.actionTextSize)
    case qrCodeSize => Count(s.qrCodeSize)
    case venueNameSize => Count(s.venueNameSize)
    case logoSize => SizeValue(s.logoSize)
  }

  /** `updates[k]`, None when the key is absent from the update record. */
  function Lookup(p: Patch, k: Key): Option<Value> {
    match k
    case backgroundColor => if p.backgroundColor.Some? then Some(Text(p.backgroundColor.value)) else None
    case textColor => if p.textColor.Some? then Some(Text(p.textColor.value)) else None
    case tableNumber => if p.tableNumber.Some? then Some(Text(p.tableNumber.value)) else None
    case actionText => if p.actionText.Some? then Some(Text(p.actionText.value)) else None
    case venueName => if p.venueName.Some? then Some(Text(p.venueName.value)) else None
    case qrValue => if p.qrValue.Some? then Some(Text(p.qrValue.value)) else None
    case logoUrl => if p.logoUrl.Some? then Some(MaybeText(p.logoUrl.value)) else None
    case backgroundImageUrl =>
      if p.backgroundImageUrl.Some? then Some(MaybeText(p.backgroundImageUrl.value)) else None
    case backgroundOpacity => if p.backgroundOpacity.Some? then Some(Fraction(p.backgroundOpacity.value)) else None
    case layout => if p.layout.Some? then Some(Text(p.layout.value)) else None
    case shape => if p.shape.Some? then Some(ShapeValue(p.shape.value)) else None
    case pattern => if p.pattern.Some? then Some(Text(p.pattern.value)) else None
    case fontFamily => if p.fontFamily.Some? then Some(Text(p.fontFamily.value)) else None
    case textStyle => if p.textStyle.Some? then Some(StyleValue(p.textStyle.value)) else None
    case icons => if p.icons.Some? then Some(IconsValue(p.icons.value)) else None
    case cornerRadius => if p.cornerRadius.Some? then Some(Count(p.cornerRadius.value)) else None
    case fontSize => if p.fontSize.Some? then Some(FontSizesValue(p.fontSize.value)) else None
    case rectanglePositions =>
      if p.rectanglePositions.Some? then Some(PositionsValue(p.rectanglePositions.value)) else None
    case squarePositions => if p.squarePositions.Some? then Some(PositionsValue(p.squarePositions.value)) else None
    case circlePositions => if p.circlePositions.Some? then Some(PositionsValue(p.circlePositions.value)) else None
    case tableNumberSize => if p.tableNumberSize.Some? then Some(Count(p.tableNumberSize.value)) else None
    case actionTextSize => if p.actionTextSize.Some? then Some(Count(p.actionTextSize.value)) else None
    case qrCodeSize => if p.qrCodeSize.Some? then Some(Count(p.qrCodeSize.value)) else None
    case venueNameSize => if p.venueNameSize.Some? then Some(Count(p.venueNameSize.value)) else None
    case logoSize => if p.logoSize.Some? then Some(SizeValue(p.logoSize.value)) else None
  }

  /** The keys an update record carries. */
  function Touched(p: Patch): set<Key> {
    set k: Key | Lookup(p, k).Some?
  }

  /** Two settings records with equal values under every key are equal. */
  lemma Extensionality(s: Settings, t: Settings)
    requires forall k :: Get(s, k) == Get(t, k)
    ensures s == t
  {
    AgreeOn1(s, t);
    AgreeOn2(s, t);
    AgreeOn3(s, t);
    AgreeOn4(s, t);
    AgreeOn5(s, t);
  }

  lemma AgreeOn1(s: Settings, t: Settings)
    requires forall k :: Get(s, k) == Get(t, k)
    ensures s.backgroundColor == t.backgroundColor && s.textColor == t.textColor && s.tableNumber == t.tableNumber && s.actionText == t.actionText && s.venueName == t.venueName
  {
    assert Get(s, backgroundColor) == Get(t, backgroundColor);
    assert Get(s, textColor) == Get(t, textColor);
    assert Get(s, tableNumber) == Get(t, tableNumber);
    assert Get(s, actionText) == Get(t, actionText);
    assert Get(s, venueName) == Get(t, venueName);
  }

  lemma AgreeOn2(s: Settings, t: Settings)
    requires forall k :: Get(s, k) == Get(t, k)
    ensures s.qrValue == t.qrValue && s.logoUrl == t.logoUrl && s.backgroundImageUrl == t.backgroundImageUrl && s.backgroundOpacity == t.backgroundOpacity && s.layout == t.layout
  {
    assert Get(s, qrValue) == Get(t, qrValue);
    assert Get(s, logoUrl) == Get(t, logoUrl);
    assert Get(s, backgroundImageUrl) == Get(t, backgroundImageUrl);
    assert Get(s, backgroundOpacity) == Get(t, backgroundOpacity);
    assert Get(s, layout) == Get(t, layout);
  }

  lemma AgreeOn3(s: Settings, t: Settings)
    requires forall k :: Get(s, k) == Get(t, k)
    ensures s.shape == t.shape && s.pattern == t.pattern && s.fontFamily == t.fontFamily && s.textStyle == t.textStyle && s.icons == t.icons
  {
    assert Get(s, shape) == Get(t, shape);
    assert Get(s, pattern) == Get(t, pattern);
    assert Get(s, fontFamily) == Get(t, fontFamily);
    assert Get(s, textStyle) == Get(t, textStyle);
    assert Get(s, icons) == Get(t, icons);
  }

  lemma AgreeOn4(s: Settings, t: Settings)
    requires forall k :: Get(s, k) == Get(t, k)
    ensures s.cornerRadius == t.cornerRadius && s.fontSize == t.fontSize && s.rectanglePositions == t.rectanglePositions && s.squarePositions == t.squarePositions && s.circlePositions == t.circlePositions
  {
    assert Get(s, cornerRadius) == Get(t, cornerRadius);
    assert Get(s, fontSize) == Get(t, fontSize);
    assert Get(s, rectanglePositions) == Get(t, rectanglePositions);
    assert Get(s, squarePositions) == Get(t, squarePositions);
    assert Get(s, circlePositions) == Get(t, circlePositions);
  }

  lemma AgreeOn5(s: Settings, t: Settings)
    requires forall k :: Get(s, k) == Get(t, k)
    ensures s.tableNumberSize == t.tableNumberSize && s.actionTextSize == t.actionTextSize && s.qrCodeSize == t.qrCodeSize && s.venueNameSize == t.venueNameSize && s.logoSize == t.logoSize
  {
    assert Get(s, tableNumberSize) == Get(t, tableNumberSize);
    assert Get(s, actionTextSize) == Get(t, actionTextSize);
    assert Get(s, qrCodeSize) == Get(t, qrCodeSize);
    assert Get(s, venueNameSize) == Get(t, venueNameSize);
    assert Get(s, logoSize) == Get(t, logoSize);
  }

  // ---------------------------------------------------------------------------
  // updateSettings
  // ---------------------------------------------------------------------------

  /** The update record with no keys. */
  const NoChange: Patch := Patch(
    None, None, None, None, None, None, None, None, None, None, None, None, None,
    None, None, None, None, None, None, None, None, None, None, None, None)

  /** `{ ...prev, ...updates }`: every key the update carries takes the
      update's value, every other key keeps its previous value. Nested records
      are values like any other, so an update replaces them whole. */
  function Merge(prev: Settings, updates: Patch): Settings {
    Settings(
      updates.backgroundColor.GetOr(prev.backgroundColor),
      updates.textColor.GetOr(prev.textColor),
      updates.tableNumber.GetOr(prev.tableNumber),
      updates.actionText.GetOr(prev.actionText),
      updates.venueName.GetOr(prev.venueName),
      updates.qrValue.GetOr(prev.qrValue),
      updates.logoUrl.GetOr(prev.logoUrl),
      updates.backgroundImageUrl.GetOr(prev.backgroundImageUrl),
      updates.backgroundOpacity.GetOr(prev.backgroundOpacity),
      updates.layout.GetOr(prev.layout),
      updates.shape.GetOr(prev.shape),
      updates.pattern.GetOr(prev.pattern),
      updates.fontFamily.GetOr(prev.fontFamily),
      updates.textStyle.GetOr(prev.textStyle),
      updates.icons.GetOr(prev.icons),
      updates.cornerRadius.GetOr(prev.cornerRadius),
      updates.fontSize.GetOr(prev.fontSize),
      updates.rectanglePositions.GetOr(prev.rectanglePositions),
      updates.squarePositions.GetOr(prev.squarePositions),
      updates.circlePositions.GetOr(prev.circlePositions),
      updates.tableNumberSize.GetOr(prev.tableNumberSize),
      updates.actionTextSize.GetOr(prev.actionTextSize),
      updates.qrCodeSize.GetOr(prev.qrCodeSize),
      updates.venueNameSize.GetOr(prev.venueNameSize),
      updates.logoSize.GetOr(prev.logoSize))
  }

  /** The update record carrying only the keys of `p` outside `q` and all
      keys of `q`, with `q`'s values winning: two successive updates. */
  function Then(p: Patch, q: Patch): Patch {
    Patch(
      if q.backgroundColor.Some? then q.backgroundColor else p.backgroundColor,
      if q.textColor.Some? then q.textColor else p.textColor,
      if q.tableNumber.Some? then q.tableNumber else p.tableNumber,
      if q.actionText.Some? then q.actionText else p.actionText,
      if q.venueName.Some? then q.venueName else p.venueName,
      if q.qrValue.Some? then q.qrValue else p.qrValue,
      if q.logoUrl.Some? then q.logoUrl else p.logoUrl,
      if q.backgroundImageUrl.Some? then q.backgroundImageUrl else p.backgroundImageUrl,
      if q.backgroundOpacity.Some? then q.backgroundOpacity else p.backgroundOpacity,
      if q.layout.Some? then q.layout else p.layout,
      if q.shape.Some? then q.shape else p.shape,
      if q.pattern.Some? then q.pattern else p.pattern,
      if q.fontFamily.Some? then q.fontFamily else p.fontFamily,
      if q.textStyle.Some? then q.textStyle else p.textStyle,
      if q.icons.Some? then q.icons else p.icons,
      if q.cornerRadius.Some? then q.cornerRadius else p.cornerRadius,
      if q.fontSize.Some? then q.fontSize else p.fontSize,
      if q.rectanglePositions.Some? then q.rectanglePositions else p.rectanglePositions,
      if q.squarePositions.Some? then q.squarePositions else p.squarePositions,
      if q.circlePositions.Some? then q.circlePositions else p.circlePositions,
      if q.tableNumberSize.Some? then q.tableNumberSize else p.tableNumberSize,
      if q.actionTextSize.Some? then q.actionTextSize else p.actionTextSize,
      if q.qrCodeSize.Some? then q.qrCodeSize else p.qrCodeSize,
      if q.venueNameSize.Some? then q.venueNameSize else p.venueNameSize,
      if q.logoSize.Some? then q.logoSize else p.logoSize)
  }

  /** Under every key, the merged record holds the update's value when the
      update carries the key and the previous value otherwise. */
  lemma MergeAt(prev: Settings, updates: Patch, k: Key)
    ensures Get(Merge(prev, updates), k)
            == if Lookup(updates, k).Some? then Lookup(updates, k).value else Get(prev, k)
  {
    match k
    case backgroundColor =>
    case textColor =>
    case tableNumber =>
    case actionText =>
    case venueName =>
    case qrValue =>
    case logoUrl =>
    case backgroundImageUrl =>
    case backgroundOpacity =>
    case layout =>
    case shape =>
    case pattern =>
    case fontFamily =>
    case textStyle =>
    case icons =>
    case cornerRadius =>
    case fontSize =>
    case rectanglePositions =>
    case squarePositions =>
    case circlePositions =>
    case tableNumberSize =>
    case actionTextSize =>
    case qrCodeSize =>
    case venueNameSize =>
    case logoSize =>
  }

  /** `r` is what `{ ...prev, ...updates }` describes: under every key, the
      update's value when the update carries the key, the previous value
      otherwise. */
  predicate MergedFrom(r: Settings, prev: Settings, updates: Patch) {
    forall k :: Get(r, k) == (if Lookup(updates, k).Some? then Lookup(updates, k).value else Get(prev, k))
  }

  /** The shallow merge produces exactly the record the spread expression
      describes, and no other record does. */
  lemma MergeSpec(prev: Settings, updates: Patch)
    ensures MergedFrom(Merge(prev, updates), prev, updates)
    ensures forall r :: MergedFrom(r, prev, updates) ==> r == Merge(prev, updates)
  {
    forall k {
      MergeAt(prev, updates, k);
    }
    forall r | MergedFrom(r, prev, updates)
      ensures r == Merge(prev, updates)
    {
      Extensionality(r, Merge(prev, updates));
    }
  }

  /** In the combined update, the later update's keys win. */
  lemma ThenAt(p: Patch, q: Patch, k: Key)
    ensures Lookup(Then(p, q), k) == if Lookup(q, k).Some? then Lookup(q, k) else Lookup(p, k)
  {
    match k
    case backgroundColor =>
    case textColor =>
    case tableNumber =>
    case actionText =>
    case venueName =>
    case qrValue =>
    case logoUrl =>
    case backgroundImageUrl =>
    case backgroundOpacity =>
    case layout =>
    case shape =>
    case pattern =>
    case fontFamily =>
    case textStyle =>
    case icons =>
    case cornerRadius =>
    case fontSize =>
    case rectanglePositions =>
    case squarePositions =>
    case circlePositions =>
    case tableNumberSize =>
    case actionTextSize =>
    case qrCodeSize =>
    case venueNameSize =>
    case logoSize =>
  }

  /** The empty update leaves the settings as they are. */
  lemma MergeNoChange(s: Settings)
    ensures Merge(s, NoChange) == s
  {
    forall k ensures Get(Merge(s, NoChange), k) == Get(s, k) {
      MergeAt(s, NoChange, k);
    }
    Extensionality(Merge(s, NoChange), s);
  }

  /** Applying the same update twice is applying it once. */
  lemma MergeIdempotent(s: Settings, p: Patch)
    ensures Merge(Merge(s, p), p) == Merge(s, p)
  {
    forall k ensures Get(Merge(Merge(s, p), p), k) == Get(Merge(s, p), k) {
      MergeAt(s, p, k);
      MergeAt(Merge(s, p), p, k);
    }
    Extensionality(Merge(Merge(s, p), p), Merge(s, p));
  }

  /** Two successive updates are one update with the later values winning. */
  lemma MergeThen(s: Settings, p: Patch, q: Patch)
    ensures Merge(Merge(s, p), q) == Merge(s, Then(p, q))
  {
    forall k ensures Get(Merge(Merge(s, p), q), k) == Get(Merge(s, Then(p, q)), k) {
      MergeAt(s, p, k);
      MergeAt(Merge(s, p), q, k);
      MergeAt(s, Then(p, q), k);
      ThenAt(p, q, k);
    }
    Extensionality(Merge(Merge(s, p), q), Merge(s, Then(p, q)));
  }

  /** A key the update does not carry is untouched by it. */
  lemma MergeKeepsUntouched(s: Settings, p: Patch, k: Key)
    requires k !in Touched(p)
    ensures Get(Merge(s, p), k) == Get(s, k)
  {
    MergeAt(s, p, k);
  }

  /** An update that carries a nested record (text style, font sizes, a
      position set, icons, logo size) replaces it whole: the result does not
      depend on the nested record it replaced. */
  lemma NestedReplacedWhole(s: Settings, t: Settings, p: Patch, k: Key)
    requires k in Touched(p)
    ensures Get(Merge(s, p), k) == Get(Merge(t, p), k)
  {
    MergeAt(s, p, k);
    MergeAt(t, p, k);
  }

  // ---------------------------------------------------------------------------
  // Defaults
  // ---------------------------------------------------------------------------

  /** `defaultSettings`. */
  function DefaultSettings(): (d: Settings)
    ensures d.shape == Rectangle
    ensures d.logoUrl == None && d.backgroundImageUrl == None
    ensures d.qrCodeSize == 130 && d.logoSize == Size(31, 31)
    ensures d.tableNumberSize == 48 && d.actionTextSize == 30 && d.venueNameSize == 18
    ensures d.rectanglePositions != d.squarePositions
    ensures d.squarePositions != d.circlePositions
    ensures d.rectanglePositions != d.circlePositions
    ensures !d.textStyle.bold && !d.textStyle.underline && !d.textStyle.highlight
  {
    Settings(
      "#CEEBF7",
      "#1F4658",
      "100",
      "Scan, Order, Pay",
      "Your Venue",
      "https://meand.u/demo",
      None,
      None,
      1.0,
      "standard",
      Rectangle,
      "waves",
      "'Poppins', sans-serif",
      TextStyle(false, false, false, "#c8ff00"),
      Icons(false, false, false, false, false, false),
      18,
      FontSizes(48, 30, 20),
      PositionSet(Point(20, 20), Point(20, 90), Point(20, 150), Point(100, 310), Point(80, 20)),
      PositionSet(Point(20, 20), Point(20, 90), Point(20, 150), Point(150, 310), Point(365, 35)),
      PositionSet(Point(140, 20), Point(65, 100), Point(120, 160), Point(160, 320), Point(356, 20)),
      48,
      30,
      130,
      18,
      Size(31, 31))
  }

  // ---------------------------------------------------------------------------
  // The page
  // ---------------------------------------------------------------------------

  /** What the right-hand side of the page shows. */
  datatype Panel = CustomizationTabs | OrderFormPanel

  datatype Page = Page(settings: Settings, activeTab: string, showOrderForm: bool)

  function InitialPage(): (pg: Page)
    ensures pg.settings == DefaultSettings()
    ensures VisiblePanel(pg) == CustomizationTabs
  {
    Page(DefaultSettings(), "layout", false)
  }

  /** The flag alone decides which panel is rendered. */
  function VisiblePanel(pg: Page): (r: Panel)
    ensures r == OrderFormPanel <==> pg.showOrderForm
  {
    if pg.showOrderForm then OrderFormPanel else CustomizationTabs
  }

  /** "Next Steps": show the order form, leaving the design as it is. */
  function NextSteps(pg: Page): (r: Page)
    ensures VisiblePanel(r) == OrderFormPanel
    ensures r.settings == pg.settings && r.activeTab == pg.activeTab
  {
    pg.(showOrderForm := true)
  }

  /** "Back to Design": show the editing panels again, design untouched. */
  function BackToDesign(pg: Page): (r: Page)
    ensures VisiblePanel(r) == CustomizationTabs
    ensures r.settings == pg.settings && r.activeTab == pg.activeTab
  {
    pg.(showOrderForm := false)
  }

  lemma BackUndoesNext(pg: Page)
    requires !pg.showOrderForm
    ensures BackToDesign(NextSteps(pg)) == pg
  {
  }

  /** `updateSettings` as the page applies it. */
  function UpdateSettings(pg: Page, updates: Patch): (r: Page)
    ensures r.settings == Merge(pg.settings, updates)
    ensures r.showOrderForm == pg.showOrderForm && r.activeTab == pg.activeTab
  {
    pg.(settings := Merge(pg.settings, updates))
  }
}
