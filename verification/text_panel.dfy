/** The text panel (`collateral/CollateralText.tsx`): the update records its
    controls send to the design page (action text, font, font sizes, the three
    text-style switches, the highlight colour), the font list with the name
    shown for the selected font, and the panel's own dropdown state. */
module TextPanel {
  import opened Common
  import Design

  // ---------------------------------------------------------------------------
  // Local state of the panel
  // ---------------------------------------------------------------------------

  datatype PanelState = PanelState(isOpen: bool, selectedFont: string, showHighlightPicker: bool)

  /** The dropdown starts closed, showing the design's font. */
  function InitialPanel(s: Design.Settings): (p: PanelState)
    ensures !p.isOpen && !p.showHighlightPicker && p.selectedFont == s.fontFamily
  {
    PanelState(false, s.fontFamily, false)
  }

  /** What a control does: the update sent to the design page and the panel's
      next state. */
  datatype Outcome = Outcome(update: Design.Patch, panel: PanelState)

  /** The font button opens a closed dropdown and closes an open one. */
  function ToggleDropdown(p: PanelState): (r: PanelState)
    ensures r.isOpen != p.isOpen
    ensures r.selectedFont == p.selectedFont && r.showHighlightPicker == p.showHighlightPicker
  {
    p.(isOpen := !p.isOpen)
  }

  // ---------------------------------------------------------------------------
  // Text and font
  // ---------------------------------------------------------------------------

  /** Typing in the action-text box sends the new text alone. */
  function ActionTextChange(text: string): (u: Design.Patch)
    ensures Design.Touched(u) == {Design.actionText}
    ensures Design.Lookup(u, Design.actionText) == Some(Design.Text(text))
  {
    var u := Design.NoChange.(actionText := Some(text));
    assert forall k :: Design.Lookup(u, k).Some? <==> k == Design.actionText;
    u
  }

  /** Picking a font from the dropdown sends the font alone, selects it
      and closes the dropdown. */
  function FontChange(p: PanelState, fontValue: string): (r: Outcome)
    ensures Design.Touched(r.update) == {Design.fontFamily}
    ensures Design.Lookup(r.update, Design.fontFamily) == Some(Design.Text(fontValue))
    ensures !r.panel.isOpen && r.panel.selectedFont == fontValue
    ensures r.panel.showHighlightPicker == p.showHighlightPicker
  {
    var u := Design.NoChange.(fontFamily := Some(fontValue));
    assert forall k :: Design.Lookup(u, k).Some? <==> k == Design.fontFamily;
    Outcome(u, PanelState(false, fontValue, p.showHighlightPicker))
  }

  // ---------------------------------------------------------------------------
  // Font sizes
  // ---------------------------------------------------------------------------

  datatype FontSizeKey = TableNumberFont | ActionTextFont | VenueNameFont

  function SizeOf(fs: Design.FontSizes, key: FontSizeKey): int {
    match key
    case TableNumberFont => fs.tableNumber
    case ActionTextFont => fs.actionText
    case VenueNameFont => fs.venueName
  }

  /** The action-text size never goes below 30; the other sizes are stored
      as given. */
  function FinalSize(key: FontSizeKey, value: int): (r: int)
    ensures key == ActionTextFont ==> r >= 30 && r >= value && (r == 30 || r == value)
    ensures key != ActionTextFont ==> r == value
  {
    if key == ActionTextFont then (if value >= 30 then value else 30) else value
  }

  /** `updateFontSize(key, value)`: a whole new font-size record, copied from
      the current one with the chosen entry replaced. */
  function UpdateFontSize(current: Design.FontSizes, key: FontSizeKey, value: int): (u: Design.Patch)
    ensures Design.Touched(u) == {Design.fontSize}
    ensures u.fontSize.Some?
    ensures SizeOf(u.fontSize.value, key) == FinalSize(key, value)
    ensures forall other :: other != key ==> SizeOf(u.fontSize.value, other) == SizeOf(current, other)
  {
    var v := FinalSize(key, value);
    var fs := match key
      case TableNumberFont => current.(tableNumber := v)
      case ActionTextFont => current.(actionText := v)
      case VenueNameFont => current.(venueName := v);
    var u := Design.NoChange.(fontSize := Some(fs));
    assert forall k :: Design.Lookup(u, k).Some? <==> k == Design.fontSize;
    u
  }

  /** The sliders: table number from 24 to 72, action text from 30 to 48. */
  predicate OnSlider(key: FontSizeKey, value: int) {
    match key
    case TableNumberFont => 24 <= value <= 72
    case ActionTextFont => 30 <= value <= 48
    case VenueNameFont => false
  }

  /** Every value a slider can produce is stored as it is: the action-text
      floor of 30 only matters for values the slider never sends. */
  lemma SliderValuesStoredExactly(current: Design.FontSizes, key: FontSizeKey, value: int)
    requires OnSlider(key, value)
    ensures SizeOf(UpdateFontSize(current, key, value).fontSize.value, key) == value
  {
  }

  /** The design seen after a font-size change differs from before in the
      chosen font size alone, whatever font sizes it held. */
  lemma FontSizeEffect(s: Design.Settings, key: FontSizeKey, value: int, k: Design.Key)
    ensures var t := Design.Merge(s, UpdateFontSize(s.fontSize, key, value));
            SizeOf(t.fontSize, key) == FinalSize(key, value)
            && (forall other :: other != key ==> SizeOf(t.fontSize, other) == SizeOf(s.fontSize, other))
            && (k != Design.fontSize ==> Design.Get(t, k) == Design.Get(s, k))
  {
    Design.MergeAt(s, UpdateFontSize(s.fontSize, key, value), k);
  }

  // ---------------------------------------------------------------------------
  // Text style
  // ---------------------------------------------------------------------------

  datatype StyleFlag = BoldFlag | UnderlineFlag | HighlightFlag

  function FlagOf(ts: TextStyle, f: StyleFlag): bool {
    match f
    case BoldFlag => ts.bold
    case UnderlineFlag => ts.underline
    case HighlightFlag => ts.highlight
  }

  /** `toggleBold`, `toggleUnderline`, `toggleHighlight`: the style copied
      with one flag inverted. */
  function Toggle(ts: TextStyle, f: StyleFlag): (r: TextStyle)
    ensures FlagOf(r, f) == !FlagOf(ts, f)
    ensures forall g :: g != f ==> FlagOf(r, g) == FlagOf(ts, g)
    ensures r.highlightColor == ts.highlightColor
  {
    match f
    case BoldFlag => ts.(bold := !ts.bold)
    case UnderlineFlag => ts.(underline := !ts.underline)
    case HighlightFlag => ts.(highlight := !ts.highlight)
  }

  /** A style record is determined by its three flags and its colour. */
  lemma StyleExtensionality(a: TextStyle, b: TextStyle)
    requires forall g :: FlagOf(a, g) == FlagOf(b, g)
    requires a.highlightColor == b.highlightColor
    ensures a == b
  {
    assert FlagOf(a, BoldFlag) == FlagOf(b, BoldFlag);
    assert FlagOf(a, UnderlineFlag) == FlagOf(b, UnderlineFlag);
    assert FlagOf(a, HighlightFlag) == FlagOf(b, HighlightFlag);
  }

  /** Flipping the same switch twice restores the style. */
  lemma ToggleTwice(ts: TextStyle, f: StyleFlag)
    ensures Toggle(Toggle(ts, f), f) == ts
  {
    StyleExtensionality(Toggle(Toggle(ts, f), f), ts);
  }

  /** Flipping two switches gives the same style in either order. */
  lemma TogglesCommute(ts: TextStyle, f: StyleFlag, g: StyleFlag)
    ensures Toggle(Toggle(ts, f), g) == Toggle(Toggle(ts, g), f)
  {
    StyleExtensionality(Toggle(Toggle(ts, f), g), Toggle(Toggle(ts, g), f));
  }

  /** The update a switch sends: the whole text-style record. */
  function ToggleUpdate(ts: TextStyle, f: StyleFlag): (u: Design.Patch)
    ensures Design.Touched(u) == {Design.textStyle}
    ensures u.textStyle == Some(Toggle(ts, f))
  {
    var u := Design.NoChange.(textStyle := Some(Toggle(ts, f)));
    assert forall k :: Design.Lookup(u, k).Some? <==> k == Design.textStyle;
    u
  }

  /** `updateHighlightColor(color)`: the style copied with the new colour. */
  function UpdateHighlightColor(ts: TextStyle, color: string): (u: Design.Patch)
    ensures Design.Touched(u) == {Design.textStyle}
    ensures u.textStyle.Some? && u.textStyle.value.highlightColor == color
    ensures forall g :: FlagOf(u.textStyle.value, g) == FlagOf(ts, g)
  {
    var u := Design.NoChange.(textStyle := Some(ts.(highlightColor := color)));
    assert forall k :: Design.Lookup(u, k).Some? <==> k == Design.textStyle;
    u
  }

  // ---------------------------------------------------------------------------
  // Font list and the displayed name
  // ---------------------------------------------------------------------------

  datatype FontOption = FontOption(name: string, value: string)

  /** The dropdown's list, in display order. Several names share a CSS value
      (the later ones are approximations of fonts that are not loaded). The
      list is written in blocks of ten entries for the verifier's sake. */
  const Fonts: seq<FontOption> :=
    FontsBlock1 + FontsBlock2 + FontsBlock3 + FontsBlock4 + FontsBlock5 + FontsBlock6

  const FontsBlock1: seq<FontOption> := [
    FontOption("Poppins", "'Poppins', sans-serif"),
    FontOption("Inter", "'Inter', sans-serif"),
    FontOption("Playfair Display", "'Playfair Display', serif"),
    FontOption("Montserrat", "'Montserrat', sans-serif"),
    FontOption("Roboto", "'Roboto', sans-serif"),
    FontOption("Lora", "'Lora', serif"),
    FontOption("Merriweather", "'Merriweather', serif"),
    FontOption("Oswald", "'Oswald', sans-serif"),
    FontOption("Raleway", "'Raleway', sans-serif"),
    FontOption("Source Sans Pro", "'Source Sans Pro', sans-serif")
  ]

  const FontsBlock2: seq<FontOption> := [
    FontOption("Arial", "Arial, sans-serif"),
    FontOption("Times New Roman", "'Times New Roman', serif"),
    FontOption("Georgia", "Georgia, serif"),
    FontOption("Verdana", "Verdana, sans-serif"),
    FontOption("Courier New", "'Courier New', monospace"),
    FontOption("Tahoma", "Tahoma, sans-serif"),
    FontOption("Trebuchet MS", "'Trebuchet MS', sans-serif"),
    FontOption("Comic Sans MS", "'Comic Sans MS', cursive"),
    FontOption("Impact", "Impact, sans-serif"),
    FontOption("Garamond", "Garamond, serif")
  ]

  const FontsBlock3: seq<FontOption> := [
    FontOption("Palatino", "'Palatino Linotype', serif"),
    FontOption("Lucida Sans", "'Lucida Sans Unicode', sans-serif"),
    FontOption("Helvetica", "Helvetica, Arial, sans-serif"),
    FontOption("Century Gothic", "'Century Gothic', sans-serif"),
    FontOption("Bookman", "'Bookman Old Style', serif"),
    FontOption("Avant Garde", "'Avant Garde', sans-serif"),
    FontOption("Calibri", "Calibri, sans-serif"),
    FontOption("Cambria", "Cambria, serif"),
    FontOption("Franklin Gothic", "'Franklin Gothic Medium', sans-serif"),
    FontOption("Futura", "Futura, sans-serif")
  ]

  const FontsBlock4: seq<FontOption> := [
    FontOption("Geneva", "Geneva, sans-serif"),
    FontOption("Gill Sans", "'Gill Sans', sans-serif"),
    FontOption("Optima", "Optima, sans-serif"),
    FontOption("Segoe UI", "'Segoe UI', sans-serif"),
    FontOption("Brush Script MT", "'Brush Script MT', cursive"),
    FontOption("Rockwell", "Rockwell, serif"),
    FontOption("Copperplate", "Copperplate, serif"),
    FontOption("Baskerville", "Baskerville, serif"),
    FontOption("Didot", "Didot, serif"),
    FontOption("American Typewriter", "'American Typewriter', serif")
  ]

  const FontsBlock5: seq<FontOption> := [
    FontOption("Garet", "'Montserrat', sans-serif"),
    FontOption("Alice", "'Playfair Display', serif"),
    FontOption("Open Sauce", "'Poppins', sans-serif"),
    FontOption("Brittany", "'Playfair Display', serif"),
    FontOption("GAGALIN", "'Impact', sans-serif"),
    FontOption("The Seasons", "'Garamond', serif"),
    FontOption("Shrikhand", "'Impact', cursive"),
    FontOption("Agrandir", "'Century Gothic', sans-serif"),
    FontOption("BEBAS NEUE", "'Oswald', sans-serif"),
    FontOption("HORIZON", "'Impact', sans-serif")
  ]

  const FontsBlock6: seq<FontOption> := [
    FontOption("Etna Sans Serif", "'Helvetica', sans-serif"),
    FontOption("Fredoka", "'Comic Sans MS', sans-serif"),
    FontOption("CINZEL DECORATIVE", "'Times New Roman', serif"),
    FontOption("Cinzel", "'Times New Roman', serif"),
    FontOption("Noto Serif Ethiopic", "'Times New Roman', serif")
  ]

  /** `fonts.find(f => f.value === v)`, as the index of the entry found. */
  function FindFont(fonts: seq<FontOption>, v: string): (r: Option<nat>)
    ensures r.Some? ==> r.value < |fonts| && fonts[r.value].value == v
    ensures r.Some? ==> forall j :: 0 <= j < r.value ==> fonts[j].value != v
    ensures r.None? <==> forall j :: 0 <= j < |fonts| ==> fonts[j].value != v
  {
    if fonts == [] then None
    else if fonts[0].value == v then Some(0)
    else
      match FindFont(fonts[1..], v)
      case None => None
      case Some(i) => Some(i + 1)
  }

  /** The name `fonts` gives the value `v`: the name of the first entry
      carrying it, or "Poppins" when there is none (or its name is empty). */
  function NameIn(fonts: seq<FontOption>, v: string): (r: string)
    ensures r != ""
    ensures (forall j :: 0 <= j < |fonts| ==> fonts[j].value != v) ==> r == "Poppins"
    ensures forall i :: 0 <= i < |fonts| && fonts[i].value == v
                        && (forall j :: 0 <= j < i ==> fonts[j].value != v) ==>
                          r == if fonts[i].name != "" then fonts[i].name else "Poppins"
  {
    match FindFont(fonts, v)
    case None => "Poppins"
    case Some(i) => if fonts[i].name != "" then fonts[i].name else "Poppins"
  }

  /** The name on the dropdown button: the name of the first entry carrying
      the selected value, or "Poppins" when there is none (or its name is
      empty). */
  function DisplayName(selectedFont: string): (r: string)
    ensures r != ""
    ensures (forall j :: 0 <= j < |Fonts| ==> Fonts[j].value != selectedFont) ==> r == "Poppins"
    ensures forall i :: 0 <= i < |Fonts| && Fonts[i].value == selectedFont
                        && (forall j :: 0 <= j < i ==> Fonts[j].value != selectedFont) ==>
                          r == if Fonts[i].name != "" then Fonts[i].name else "Poppins"
  {
    NameIn(Fonts, selectedFont)
  }

  /** The first entry carrying a value names it, even when a later entry
      carries the same value. */
  lemma FirstEntryNamesValue(fonts: seq<FontOption>, i: nat)
    requires i < |fonts|
    requires forall j :: 0 <= j < i ==> fonts[j].value != fonts[i].value
    ensures FindFont(fonts, fonts[i].value) == Some(i)
  {
  }

  /** "'Montserrat', sans-serif" is listed both as Montserrat and, later, as
      Garet; the button shows Montserrat. */
  lemma MontserratNotGaret()
    ensures Fonts[3] == FontOption("Montserrat", "'Montserrat', sans-serif")
    ensures Fonts[40] == FontOption("Garet", "'Montserrat', sans-serif")
    ensures DisplayName("'Montserrat', sans-serif") == "Montserrat"
  {
    assert Fonts[0].value != Fonts[3].value;
    assert Fonts[1].value != Fonts[3].value;
    assert Fonts[2].value != Fonts[3].value;
    FirstEntryNamesValue(Fonts, 3);
  }

  /** Choosing "Open Sauce" shows "Poppins", the first entry with its value. */
  lemma OpenSauceShowsPoppins()
    ensures Fonts[42].name == "Open Sauce"
    ensures DisplayName(Fonts[42].value) == "Poppins"
  {
    FirstEntryNamesValue(Fonts, 0);
  }
}
