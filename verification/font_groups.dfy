/** The font-selection panel (`collateral/CollateralFonts.tsx`): ten fonts,
    each with a type, grouped by type with `reduce` into a record whose keys
    keep their insertion order, and one radio group per type. The record is
    modelled as a sequence of (type, fonts) groups in key order. */
module FontGroups {
  import opened Common
  import Design

  /** A font's `type`; `Label` is the text the source uses as the key. */
  datatype FontType = SansSerif | Serif | Display

  function Label(t: FontType): (r: string)
    ensures r != []
  {
    match t
    case SansSerif => "Sans-serif"
    case Serif => "Serif"
    case Display => "Display"
  }

  /** Distinct types have distinct labels, so grouping by type is grouping by
      the label text. */
  lemma LabelInjective(a: FontType, b: FontType)
    ensures Label(a) == Label(b) <==> a == b
  {
    if a != b {
      assert Label(a)[0] != Label(b)[0] || |Label(a)| != |Label(b)|;
    }
  }

  datatype FontEntry = FontEntry(name: string, value: string, kind: FontType)

  datatype Group = Group(kind: FontType, fonts: seq<FontEntry>)

  /** The panel's list, in display order. */
  const Fonts: seq<FontEntry> := FontsHead + FontsTail

  const FontsHead: seq<FontEntry> := [
    FontEntry("Inter", "'Inter', sans-serif", SansSerif),
    FontEntry("Playfair Display", "'Playfair Display', serif", Serif),
    FontEntry("Montserrat", "'Montserrat', sans-serif", SansSerif),
    FontEntry("Roboto", "'Roboto', sans-serif", SansSerif),
    FontEntry("Lora", "'Lora', serif", Serif)
  ]

  const FontsTail: seq<FontEntry> := [
    FontEntry("Poppins", "'Poppins', sans-serif", SansSerif),
    FontEntry("Merriweather", "'Merriweather', serif", Serif),
    FontEntry("Oswald", "'Oswald', sans-serif", Display),
    FontEntry("Raleway", "'Raleway', sans-serif", SansSerif),
    FontEntry("Source Sans Pro", "'Source Sans Pro', sans-serif", SansSerif)
  ]

  // ---------------------------------------------------------------------------
  // The reduce
  // ---------------------------------------------------------------------------

  /** `acc[kind]`: the position of the group with that key, if any. */
  function FindGroup(groups: seq<Group>, kind: FontType): (r: Option<nat>)
    ensures r.Some? ==> r.value < |groups| && groups[r.value].kind == kind
    ensures r.None? ==> forall j :: 0 <= j < |groups| ==> groups[j].kind != kind
  {
    if groups == [] then None
    else if groups[0].kind == kind then Some(0)
    else
      match FindGroup(groups[1..], kind)
      case None => None
      case Some(j) => Some(j + 1)
  }

  /** One step of the reduce: a missing key is added at the end with an empty
      list, then the font is pushed onto its key's list. */
  function AddToGroups(groups: seq<Group>, f: FontEntry): (r: seq<Group>)
    ensures |groups| <= |r| <= |groups| + 1
  {
    match FindGroup(groups, f.kind)
    case Some(j) => groups[j := Group(f.kind, groups[j].fonts + [f])]
    case None => groups + [Group(f.kind, [f])]
  }

  /** `fonts.reduce(step, {})`, then `Object.entries`. */
  function GroupByKind(fonts: seq<FontEntry>): (r: seq<Group>)
    ensures |r| <= |fonts|
    ensures r == [] <==> fonts == []
    decreases |fonts|
  {
    if fonts == [] then []
    else AddToGroups(GroupByKind(fonts[..|fonts| - 1]), fonts[|fonts| - 1])
  }

  // ---------------------------------------------------------------------------
  // The reference: distinct types in order of first appearance, and a filter
  // ---------------------------------------------------------------------------

  /** The types of `fonts`, each once, in the order they first appear. */
  function Kinds(fonts: seq<FontEntry>): seq<FontType> {
    KindsAfter(fonts, [])
  }

  /** The types in `seen`, then those of `fonts` not seen yet, in order. */
  function KindsAfter(fonts: seq<FontEntry>, seen: seq<FontType>): seq<FontType>
    decreases |fonts|
  {
    if fonts == [] then seen
    else KindsAfter(fonts[1..], if fonts[0].kind in seen then seen else seen + [fonts[0].kind])
  }

  lemma {:induction false} KindsAfterSnoc(a: seq<FontEntry>, f: FontEntry, seen: seq<FontType>)
    ensures var ks := KindsAfter(a, seen);
            KindsAfter(a + [f], seen) == if f.kind in ks then ks else ks + [f.kind]
    decreases |a|
  {
    if a == [] {
      assert [f][1..] == [];
    } else {
      assert (a + [f])[1..] == a[1..] + [f];
      KindsAfterSnoc(a[1..], f, if a[0].kind in seen then seen else seen + [a[0].kind]);
    }
  }

  /** Appending a font adds its type at the end when it is new. */
  lemma KindsSnoc(init: seq<FontEntry>, f: FontEntry)
    ensures Kinds(init + [f]) == if f.kind in Kinds(init) then Kinds(init) else Kinds(init) + [f.kind]
  {
    KindsAfterSnoc(init, f, []);
  }

  /** The fonts of one type, in list order. */
  function OfKind(fonts: seq<FontEntry>, kind: FontType): seq<FontEntry>
    decreases |fonts|
  {
    if fonts == [] then []
    else (if fonts[0].kind == kind then [fonts[0]] else []) + OfKind(fonts[1..], kind)
  }

  /** One group per type, in first-appearance order, holding exactly the fonts
      of that type in list order. */
  function Partition(fonts: seq<FontEntry>): seq<Group> {
    var ks := Kinds(fonts);
    seq(|ks|, i requires 0 <= i < |ks| => Group(ks[i], OfKind(fonts, ks[i])))
  }

  lemma {:induction false} OfKindAppend(a: seq<FontEntry>, b: seq<FontEntry>, kind: FontType)
    ensures OfKind(a + b, kind) == OfKind(a, kind) + OfKind(b, kind)
    decreases |a|
  {
    if a == [] {
      assert a + b == b;
    } else {
      assert (a + b)[1..] == a[1..] + b;
      OfKindAppend(a[1..], b, kind);
    }
  }

  /** A type appears among the kinds exactly when some font has it. */
  lemma {:induction false} KindsMembership(fonts: seq<FontEntry>, kind: FontType)
    ensures kind in Kinds(fonts) <==> exists i :: 0 <= i < |fonts| && fonts[i].kind == kind
    decreases |fonts|
  {
    if fonts != [] {
      var init := fonts[..|fonts| - 1];
      assert init + [fonts[|fonts| - 1]] == fonts;
      KindsSnoc(init, fonts[|fonts| - 1]);
      KindsMembership(init, kind);
      if kind in Kinds(init) {
        var i :| 0 <= i < |init| && init[i].kind == kind;
        assert fonts[i].kind == kind;
      }
      if exists i :: 0 <= i < |fonts| && fonts[i].kind == kind {
        var i :| 0 <= i < |fonts| && fonts[i].kind == kind;
        if i < |init| {
          assert init[i].kind == kind;
        }
      }
    }
  }

  /** The kinds are pairwise distinct. */
  lemma {:induction false} KindsDistinct(fonts: seq<FontEntry>)
    ensures forall i, j :: 0 <= i < j < |Kinds(fonts)| ==> Kinds(fonts)[i] != Kinds(fonts)[j]
    decreases |fonts|
  {
    if fonts != [] {
      assert fonts[..|fonts| - 1] + [fonts[|fonts| - 1]] == fonts;
      KindsSnoc(fonts[..|fonts| - 1], fonts[|fonts| - 1]);
      KindsDistinct(fonts[..|fonts| - 1]);
    }
  }

  /** A type no font has selects nothing. */
  lemma {:induction false} OfKindAbsent(fonts: seq<FontEntry>, kind: FontType)
    requires forall i :: 0 <= i < |fonts| ==> fonts[i].kind != kind
    ensures OfKind(fonts, kind) == []
    decreases |fonts|
  {
    if fonts != [] {
      OfKindAbsent(fonts[1..], kind);
    }
  }

  /** Adding a font to the partition of a list gives the partition of the
      list with the font appended. */
  lemma AddToPartition(init: seq<FontEntry>, f: FontEntry)
    ensures AddToGroups(Partition(init), f) == Partition(init + [f])
  {
    var fonts := init + [f];
    assert fonts[..|fonts| - 1] == init;
    var ks := Kinds(init);
    var p := Partition(init);
    KindsSnoc(init, f);
    forall k ensures OfKind(fonts, k) == OfKind(init, k) + (if f.kind == k then [f] else []) {
      OfKindAppend(init, [f], k);
      assert OfKind([f], k) == (if f.kind == k then [f] else []) + OfKind([], k);
    }
    match FindGroup(p, f.kind)
    case Some(j) =>
      assert f.kind in ks;
      assert Kinds(fonts) == ks;
      KindsDistinct(init);
      var q := AddToGroups(p, f);
      assert |q| == |Partition(fonts)|;
      forall i | 0 <= i < |q| ensures q[i] == Partition(fonts)[i] {
        if i != j {
          assert ks[i] != ks[j];
        }
      }
      assert q == Partition(fonts);
    case None =>
      assert f.kind !in ks by {
        forall i | 0 <= i < |ks| ensures ks[i] != f.kind {
          assert p[i].kind == ks[i];
        }
      }
      assert Kinds(fonts) == ks + [f.kind];
      KindsMembership(init, f.kind);
      OfKindAbsent(init, f.kind);
      var q := AddToGroups(p, f);
      assert |q| == |Partition(fonts)|;
      forall i | 0 <= i < |q| ensures q[i] == Partition(fonts)[i] {
        if i < |ks| {
          assert ks[i] != f.kind;
        }
      }
      assert q == Partition(fonts);
  }

  /** The reduce builds exactly the partition: one group per type in order of
      first appearance, each holding the fonts of its type in list order. */
  lemma {:induction false} GroupByKindIsPartition(fonts: seq<FontEntry>)
    ensures GroupByKind(fonts) == Partition(fonts)
    decreases |fonts|
  {
    if fonts != [] {
      var init, f := fonts[..|fonts| - 1], fonts[|fonts| - 1];
      GroupByKindIsPartition(init);
      assert init + [f] == fonts;
      AddToPartition(init, f);
    }
  }

  // ---------------------------------------------------------------------------
  // Consequences
  // ---------------------------------------------------------------------------

  /** Every font is in the group keyed by its own type and in no other group,
      every group is non-empty, and no two groups share a key. */
  lemma GroupsPartitionFonts(fonts: seq<FontEntry>, i: nat, j: nat)
    requires i < |fonts| && j < |GroupByKind(fonts)|
    ensures var g := GroupByKind(fonts)[j];
            g.fonts != []
            && (fonts[i] in g.fonts ==> fonts[i].kind == g.kind)
            && (fonts[i].kind == g.kind ==> fonts[i] in g.fonts)
  {
    GroupByKindIsPartition(fonts);
    var k := Kinds(fonts)[j];
    KindsMembership(fonts, k);
    var w :| 0 <= w < |fonts| && fonts[w].kind == k;
    MemberOfKind(fonts, w, k);
    OfKindOnlyKind(fonts, k, fonts[i]);
    if fonts[i].kind == k {
      MemberOfKind(fonts, i, k);
    }
  }

  lemma {:induction false} MemberOfKind(fonts: seq<FontEntry>, i: nat, kind: FontType)
    requires i < |fonts| && fonts[i].kind == kind
    ensures fonts[i] in OfKind(fonts, kind)
    decreases |fonts|
  {
    if i > 0 {
      MemberOfKind(fonts[1..], i - 1, kind);
    }
  }

  lemma {:induction false} OfKindOnlyKind(fonts: seq<FontEntry>, kind: FontType, f: FontEntry)
    ensures f in OfKind(fonts, kind) ==> f.kind == kind
    decreases |fonts|
  {
    if fonts != [] {
      OfKindOnlyKind(fonts[1..], kind, f);
    }
  }

  /** The keys of the grouped record are distinct. */
  lemma GroupKeysDistinct(fonts: seq<FontEntry>)
    ensures forall i, j :: 0 <= i < j < |GroupByKind(fonts)| ==> GroupByKind(fonts)[i].kind != GroupByKind(fonts)[j].kind
  {
    GroupByKindIsPartition(fonts);
    KindsDistinct(fonts);
  }

  function TotalSize(groups: seq<Group>): nat {
    if groups == [] then 0 else |groups[0].fonts| + TotalSize(groups[1..])
  }

  lemma {:induction false} TotalSizeAppend(a: seq<Group>, b: seq<Group>)
    ensures TotalSize(a + b) == TotalSize(a) + TotalSize(b)
    decreases |a|
  {
    if a == [] {
      assert a + b == b;
    } else {
      assert (a + b)[1..] == a[1..] + b;
      TotalSizeAppend(a[1..], b);
    }
  }

  lemma {:induction false} TotalSizeUpdate(groups: seq<Group>, j: nat, g: Group)
    requires j < |groups|
    ensures TotalSize(groups[j := g]) == TotalSize(groups) - |groups[j].fonts| + |g.fonts|
    decreases |groups|
  {
    if j > 0 {
      assert groups[j := g][1..] == groups[1..][j - 1 := g];
      TotalSizeUpdate(groups[1..], j - 1, g);
    }
  }

  /** The groups together hold as many fonts as the list. */
  lemma {:induction false} GroupingKeepsCount(fonts: seq<FontEntry>)
    ensures TotalSize(GroupByKind(fonts)) == |fonts|
    decreases |fonts|
  {
    if fonts != [] {
      var init, f := fonts[..|fonts| - 1], fonts[|fonts| - 1];
      var groups := GroupByKind(init);
      GroupingKeepsCount(init);
      match FindGroup(groups, f.kind)
      case Some(j) =>
        TotalSizeUpdate(groups, j, Group(f.kind, groups[j].fonts + [f]));
      case None =>
        TotalSizeAppend(groups, [Group(f.kind, [f])]);
        assert TotalSize([Group(f.kind, [f])]) == 1;
    }
  }

  lemma OfKindSnoc(init: seq<FontEntry>, f: FontEntry, kind: FontType)
    ensures |OfKind(init + [f], kind)| == |OfKind(init, kind)| + (if f.kind == kind then 1 else 0)
  {
    OfKindAppend(init, [f], kind);
    assert OfKind([f], kind) == (if f.kind == kind then [f] else []) + OfKind([], kind);
  }

  /** The panel shows three sections, Sans-serif, Serif and Display, in that
      order, holding six, three and one fonts. */
  lemma PanelSections()
    ensures |GroupByKind(Fonts)| == 3
    ensures GroupByKind(Fonts)[0].kind == SansSerif && |GroupByKind(Fonts)[0].fonts| == 6
    ensures GroupByKind(Fonts)[1].kind == Serif && |GroupByKind(Fonts)[1].fonts| == 3
    ensures GroupByKind(Fonts)[2].kind == Display && |GroupByKind(Fonts)[2].fonts| == 1
  {
    GroupByKindIsPartition(Fonts);
    FontKinds();
    FontCounts();
  }

  lemma FontKinds()
    ensures Kinds(Fonts) == [SansSerif, Serif, Display]
  {
    KindsOfPanelOrder(Fonts);
  }

  /** The kinds of any list whose types run in the panel's order. */
  lemma KindsOfPanelOrder(fonts: seq<FontEntry>)
    requires |fonts| == 10
    requires fonts[0].kind == SansSerif && fonts[1].kind == Serif && fonts[7].kind == Display
    requires forall i :: 2 <= i < 7 ==> fonts[i].kind != Display
    requires forall i :: 8 <= i < 10 ==> fonts[i].kind != Display
    ensures Kinds(fonts) == [SansSerif, Serif, Display]
  {
    var sr := [SansSerif, Serif];
    var srd := [SansSerif, Serif, Display];
    var none: seq<FontType> := [];
    assert none + [SansSerif] == [SansSerif];
    assert Kinds(fonts) == KindsAfter(fonts[1..], [SansSerif]);
    assert KindsAfter(fonts[1..], [SansSerif]) == KindsAfter(fonts[2..], sr) by {
      assert fonts[1..][0].kind == Serif;
      assert [SansSerif] + [Serif] == sr;
      assert fonts[1..][1..] == fonts[2..];
    }
    KindsAfterSeen(fonts[2..7], sr);
    KindsAfterPrefix(fonts[2..7], fonts[7..], sr);
    assert fonts[2..7] + fonts[7..] == fonts[2..];
    assert KindsAfter(fonts[7..], sr) == KindsAfter(fonts[8..], srd) by {
      assert fonts[7..][0].kind == Display;
      assert sr + [Display] == srd;
      assert fonts[7..][1..] == fonts[8..];
    }
    KindsAfterSeen(fonts[8..], srd);
  }

  /** Running through `a + b` is running through `a`, then `b`. */
  lemma {:induction false} KindsAfterPrefix(a: seq<FontEntry>, b: seq<FontEntry>, seen: seq<FontType>)
    ensures KindsAfter(a + b, seen) == KindsAfter(b, KindsAfter(a, seen))
    decreases |a|
  {
    if a == [] {
      assert a + b == b;
    } else {
      assert (a + b)[1..] == a[1..] + b;
      KindsAfterPrefix(a[1..], b, if a[0].kind in seen then seen else seen + [a[0].kind]);
    }
  }

  /** Fonts whose types are all seen add no kind. */
  lemma {:induction false} KindsAfterSeen(fonts: seq<FontEntry>, seen: seq<FontType>)
    requires forall i :: 0 <= i < |fonts| ==> fonts[i].kind in seen
    ensures KindsAfter(fonts, seen) == seen
    decreases |fonts|
  {
    if fonts != [] {
      KindsAfterSeen(fonts[1..], seen);
    }
  }

  lemma FontCounts()
    ensures |OfKind(Fonts, SansSerif)| == 6
    ensures |OfKind(Fonts, Serif)| == 3
    ensures |OfKind(Fonts, Display)| == 1
  {
    OfKindAppend(FontsHead, FontsTail, SansSerif);
    OfKindAppend(FontsHead, FontsTail, Serif);
    OfKindAppend(FontsHead, FontsTail, Display);
  }

  /** Choosing a radio button sends the font alone. */
  function SelectFont(value: string): (u: Design.Patch)
    ensures Design.Touched(u) == {Design.fontFamily}
    ensures Design.Lookup(u, Design.fontFamily) == Some(Design.Text(value))
  {
    var u := Design.NoChange.(fontFamily := Some(value));
    assert forall k :: Design.Lookup(u, k).Some? <==> k == Design.fontFamily;
    u
  }

  /** After the choice the design uses the font, and nothing else in it has
      changed. */
  lemma SelectFontEffect(s: Design.Settings, value: string, k: Design.Key)
    ensures Design.Merge(s, SelectFont(value)).fontFamily == value
    ensures k != Design.fontFamily ==> Design.Get(Design.Merge(s, SelectFont(value)), k) == Design.Get(s, k)
  {
    Design.MergeAt(s, SelectFont(value), k);
  }
}
