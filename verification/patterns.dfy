/** The pattern picker (`collateral/CollateralPatterns.tsx`): the catalogue of
    twenty patterns, the thumbnail style of each, and the update a click
    sends. The thumbnail lookup is its own copy of the canvas lookup with the
    background colour added; the two are proved to agree. */
module Patterns {
  import opened Common
  import Canvas
  import Design

  datatype PatternOption = PatternOption(name: string, value: string)

  /** The picker's list, in display order. */
  const Catalogue: seq<PatternOption> := [
    PatternOption("None", "none"),
    PatternOption("Dots", "dots"),
    PatternOption("Stripes", "stripes"),
    PatternOption("Waves", "waves"),
    PatternOption("ZigZag", "zigzag"),
    PatternOption("Bubbles", "bubbles"),
    PatternOption("Grid", "grid"),
    PatternOption("Squares", "squares"),
    PatternOption("Triangles", "triangles"),
    PatternOption("Hexagons", "hexagons"),
    PatternOption("Diamonds", "diamonds"),
    PatternOption("Circles", "circles"),
    PatternOption("Leaves", "leaves"),
    PatternOption("Stars", "stars"),
    PatternOption("Crosshatch", "crosshatch"),
    PatternOption("Plaid", "plaid"),
    PatternOption("Confetti", "confetti"),
    PatternOption("Polka", "polka"),
    PatternOption("Moroccan", "moroccan"),
    PatternOption("Herringbone", "herringbone")
  ]

  predicate InCatalogue(id: string) {
    exists i :: 0 <= i < |Catalogue| && Catalogue[i].value == id
  }

  /** Twenty patterns with pairwise distinct ids, "none" first; the design
      page's default pattern is one of them. */
  lemma CatalogueShape()
    ensures |Catalogue| == 20 && Catalogue[0].value == "none"
    ensures forall i, j :: 0 <= i < j < |Catalogue| ==> Catalogue[i].value != Catalogue[j].value
    ensures InCatalogue(Design.DefaultSettings().pattern)
  {
    assert Catalogue[3].value == "waves";
  }

  /** A thumbnail's style: its own background colour and a pattern tile. */
  datatype Thumbnail = Thumbnail(backgroundColor: string, tile: Canvas.Tile)

  /** `getPatternStyle(pattern, bgColor, textColor)` of the picker. */
  function ThumbnailStyle(pattern: string, bgColor: string, textColor: string): (r: Thumbnail)
    ensures r.backgroundColor == bgColor
    ensures r.tile.image.Some? ==> r.tile.image.value.tint == textColor
    ensures r.tile == Canvas.PlainTile <==> r.tile.image.None?
  {
    var img := (m: Canvas.Motif) => Some(Canvas.Image(m, textColor));
    if pattern == "dots" then Thumbnail(bgColor, Canvas.Tile(img(Canvas.DotMotif), Some(15), None))
    else if pattern == "stripes" then Thumbnail(bgColor, Canvas.Tile(img(Canvas.StripeMotif), Some(20), None))
    else if pattern == "waves" then Thumbnail(bgColor, Canvas.Tile(img(Canvas.WaveMotif), None, None))
    else if pattern == "zigzag" then Thumbnail(bgColor, Canvas.Tile(img(Canvas.ZigzagMotif), None, None))
    else if pattern == "bubbles" then Thumbnail(bgColor, Canvas.Tile(img(Canvas.BubbleMotif), None, None))
    else if pattern == "grid" then Thumbnail(bgColor, Canvas.Tile(img(Canvas.GridMotif), Some(20), None))
    else if pattern == "squares" then Thumbnail(bgColor, Canvas.Tile(img(Canvas.SquareMotif), Some(40), None))
    else if pattern == "triangles" then Thumbnail(bgColor, Canvas.Tile(img(Canvas.CrossedDiagonalMotif), Some(40), None))
    else if pattern == "hexagons" then Thumbnail(bgColor, Canvas.Tile(img(Canvas.HoneycombMotif), Some(60), Some(30)))
    else if pattern == "diamonds" then Thumbnail(bgColor, Canvas.Tile(img(Canvas.DiamondMotif), Some(30), None))
    else if pattern == "circles" then Thumbnail(bgColor, Canvas.Tile(img(Canvas.RingMotif), Some(30), Some(15)))
    else if pattern == "leaves" then Thumbnail(bgColor, Canvas.Tile(img(Canvas.LeafMotif), Some(16), None))
    else if pattern == "stars" then Thumbnail(bgColor, Canvas.Tile(img(Canvas.StarMotif), Some(30), Some(15)))
    else if pattern == "crosshatch" then Thumbnail(bgColor, Canvas.Tile(img(Canvas.CrossedDiagonalMotif), Some(20), Some(10)))
    else if pattern == "plaid" then Thumbnail(bgColor, Canvas.Tile(img(Canvas.PlaidMotif), Some(40), Some(20)))
    else if pattern == "confetti" then Thumbnail(bgColor, Canvas.Tile(img(Canvas.ConfettiMotif), Some(25), Some(10)))
    else if pattern == "polka" then Thumbnail(bgColor, Canvas.Tile(img(Canvas.PolkaMotif), Some(30), None))
    else if pattern == "moroccan" then Thumbnail(bgColor, Canvas.Tile(img(Canvas.MoroccanMotif), Some(24), Some(12)))
    else if pattern == "herringbone" then Thumbnail(bgColor, Canvas.Tile(img(Canvas.CrossedDiagonalMotif), Some(15), None))
    else Thumbnail(bgColor, Canvas.PlainTile)
  }

  /** Every thumbnail shows the background colour it is given under exactly
      the tile the canvas draws for the same pattern, so the picker previews
      what the canvas will show. */
  lemma ThumbnailMatchesCanvas(pattern: string, bgColor: string, textColor: string)
    ensures ThumbnailStyle(pattern, bgColor, textColor).backgroundColor == bgColor
    ensures ThumbnailStyle(pattern, bgColor, textColor).tile == Canvas.PatternTile(pattern, textColor)
  {
  }

  /** Every catalogue entry after "none" sets a background-image value;
      "none" sets nothing. */
  lemma CatalogueEntryDraws(i: int, bgColor: string, textColor: string)
    requires 0 <= i < |Catalogue|
    ensures ThumbnailStyle(Catalogue[i].value, bgColor, textColor).tile == Canvas.PlainTile <==> i == 0
  {
  }

  /** An id outside the catalogue shows the background colour alone. */
  lemma UnknownPatternPlain(pattern: string, bgColor: string, textColor: string)
    requires !InCatalogue(pattern)
    ensures ThumbnailStyle(pattern, bgColor, textColor).tile == Canvas.PlainTile
  {
    forall i | 0 <= i < |Catalogue| ensures pattern != Catalogue[i].value {
    }
    assert pattern != Catalogue[1].value;
    assert pattern != Catalogue[2].value;
    assert pattern != Catalogue[3].value;
    assert pattern != Catalogue[4].value;
    assert pattern != Catalogue[5].value;
    assert pattern != Catalogue[6].value;
    assert pattern != Catalogue[7].value;
    assert pattern != Catalogue[8].value;
    assert pattern != Catalogue[9].value;
    assert pattern != Catalogue[10].value;
    assert pattern != Catalogue[11].value;
    assert pattern != Catalogue[12].value;
    assert pattern != Catalogue[13].value;
    assert pattern != Catalogue[14].value;
    assert pattern != Catalogue[15].value;
    assert pattern != Catalogue[16].value;
    assert pattern != Catalogue[17].value;
    assert pattern != Catalogue[18].value;
    assert pattern != Catalogue[19].value;
  }

  /** The three SVG patterns are drawn at their natural size: no tile size
      and no offset. */
  lemma SvgPatternsUnsized(pattern: string, bgColor: string, textColor: string)
    requires pattern == "waves" || pattern == "zigzag" || pattern == "bubbles"
    ensures ThumbnailStyle(pattern, bgColor, textColor).tile.image.Some?
    ensures ThumbnailStyle(pattern, bgColor, textColor).tile.size.None?
    ensures ThumbnailStyle(pattern, bgColor, textColor).tile.offset.None?
  {
  }

  /** Clicking a thumbnail sends an update carrying the pattern id alone. */
  function SelectPattern(id: string): (p: Design.Patch)
    ensures Design.Touched(p) == {Design.pattern}
    ensures Design.Lookup(p, Design.pattern) == Some(Design.Text(id))
  {
    var p := Design.NoChange.(pattern := Some(id));
    assert forall k :: Design.Lookup(p, k).Some? <==> k == Design.pattern;
    p
  }

  /** After the click the design shows the pattern, and nothing else in it
      has changed. */
  lemma SelectPatternEffect(s: Design.Settings, id: string, k: Design.Key)
    ensures Design.Merge(s, SelectPattern(id)).pattern == id
    ensures k != Design.pattern ==> Design.Get(Design.Merge(s, SelectPattern(id)), k) == Design.Get(s, k)
  {
    Design.MergeAt(s, SelectPattern(id), k);
  }
}
