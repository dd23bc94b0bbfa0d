/** The live preview of the QR customizer (`customizer/QRPreview.tsx`): the
    style record each template id selects, and what the preview shows for a
    template, a colour scheme, a logo, the venue name and the QR address. The
    half-second placeholder timer is a parameter: `isLoading`. */
module QrPreview {
  import opened Common

  datatype Template = Template(id: string, name: string, imageSrc: string)

  datatype ColorScheme = ColorScheme(id: string, primary: string, secondary: string, accent: string)

  /** The layout classes and QR size a template selects. */
  datatype TemplateStyles = TemplateStyles(
    container: string,
    titleClass: string,
    subtitleClass: string,
    qrSize: int,
    logoPosition: string)

  const ClassicStyles := TemplateStyles(
    "flex flex-col items-center justify-center text-center p-4",
    "text-xl font-semibold mt-4 mb-1",
    "text-sm mb-4",
    150,
    "flex flex-col gap-4")

  const ModernStyles := TemplateStyles(
    "flex flex-col items-center justify-center text-center bg-gradient-to-br p-6 rounded-xl",
    "text-2xl font-bold mt-4 mb-1",
    "text-sm font-medium mb-4",
    160,
    "flex flex-col gap-4")

  const MinimalStyles := TemplateStyles(
    "flex flex-row items-center justify-between p-4 gap-4",
    "text-lg font-medium",
    "text-xs opacity-80",
    130,
    "flex flex-col items-start justify-center")

  const BoldStyles := TemplateStyles(
    "flex flex-col items-center justify-center text-center border-4 p-4 rounded-lg",
    "text-2xl font-black uppercase mt-4 mb-1",
    "text-sm tracking-wide mb-4",
    160,
    "flex flex-col gap-3")

  /** `getTemplateStyles()`: a switch on the id whose default branch repeats
      the first template's record. */
  function StylesFor(id: string): (r: TemplateStyles)
    ensures r.qrSize in {130, 150, 160}
    ensures !IsKnownTemplate(id) ==> r == ClassicStyles
    ensures r.qrSize == 130 <==> id == "template3"
  {
    if id == "template1" then ClassicStyles
    else if id == "template2" then ModernStyles
    else if id == "template3" then MinimalStyles
    else if id == "template4" then BoldStyles
    else TemplateStyles(
      "flex flex-col items-center justify-center text-center p-4",
      "text-xl font-semibold mt-4 mb-1",
      "text-sm mb-4",
      150,
      "flex flex-col gap-4")
  }

  predicate IsKnownTemplate(id: string) {
    id == "template1" || id == "template2" || id == "template3" || id == "template4"
  }

  /** An id outside the four gets exactly the classic styles. */
  lemma UnknownTemplateIsClassic(id: string)
    requires !IsKnownTemplate(id)
    ensures StylesFor(id) == StylesFor("template1")
  {
  }

  /** The QR sizes are 150, 160, 130 and 160 for the four templates, and
      every id gets one of 130, 150 and 160. */
  lemma QrSizes(id: string)
    ensures StylesFor("template1").qrSize == 150 && StylesFor("template2").qrSize == 160
    ensures StylesFor("template3").qrSize == 130 && StylesFor("template4").qrSize == 160
    ensures StylesFor(id).qrSize in {130, 150, 160}
  {
  }

  /** The small tag drawn under the vertical layouts. */
  datatype Badge = Badge(text: string, backgroundColor: string, color: string)

  /** The content once loaded: the layout direction, the logo, the QR
      symbol, the title and subtitle, and the optional tag. */
  datatype Content = Content(
    horizontal: bool,
    logo: Option<string>,
    qr: QrSymbol,
    title: string,
    subtitle: string,
    badge: Option<Badge>)

  datatype PreviewBody = Placeholder | Loaded(content: Content)

  /** The preview's outer box: background and text colours from the scheme. */
  datatype Preview = Preview(backgroundColor: string, color: string, body: PreviewBody)

  /** The preview for the given props. */
  function RenderPreview(
    template: Template, scheme: ColorScheme, logoUrl: Option<string>,
    venueName: string, qrCodeUrl: string, isLoading: bool): (p: Preview)
    ensures p.backgroundColor == scheme.accent && p.color == scheme.secondary
    ensures p.body.Placeholder? <==> isLoading
    ensures p.body.Loaded? ==>
              var c := p.body.content;
              (c.horizontal <==> template.id == "template3")
              && (c.logo.Some? <==> Truthy(logoUrl))
              && (c.logo.Some? ==> Some(c.logo.value) == logoUrl)
              && c.qr.value == qrCodeUrl && c.qr.size == StylesFor(template.id).qrSize as real
              && c.qr.fgColor == scheme.secondary && c.qr.bgColor == "transparent"
              && c.qr.level == H && c.qr.includeMargin
              && c.title == venueName && c.subtitle == "Scan for menu"
              && (c.badge.Some? <==> template.id == "template2" || template.id == "template4")
              && (c.badge.Some? ==> c.badge.value.backgroundColor == scheme.primary)
  {
    var styles := StylesFor(template.id);
    var body :=
      if isLoading then Placeholder
      else
        var logo := if Truthy(logoUrl) then logoUrl else None;
        var qr := QrSymbol(qrCodeUrl, styles.qrSize as real, scheme.secondary, "transparent", H, true);
        if template.id == "template3" then
          Loaded(Content(true, logo, qr, venueName, "Scan for menu", None))
        else
          var badge :=
            if template.id == "template2" || template.id == "template4"
            then Some(Badge("Powered by me&u", scheme.primary, "#fff"))
            else None;
          Loaded(Content(false, logo, qr, venueName, "Scan for menu", badge));
    Preview(scheme.accent, scheme.secondary, body)
  }

  /** The tag and the horizontal layout never appear together. */
  lemma BadgeOnlyVertical(
    template: Template, scheme: ColorScheme, logoUrl: Option<string>,
    venueName: string, qrCodeUrl: string)
    ensures var c := RenderPreview(template, scheme, logoUrl, venueName, qrCodeUrl, false).body.content;
            c.badge.Some? ==> !c.horizontal
  {
  }

  /** Removing the logo, which sends the empty string, hides it in the
      preview just as having none does. */
  lemma EmptyLogoHidden(
    template: Template, scheme: ColorScheme, venueName: string, qrCodeUrl: string)
    ensures RenderPreview(template, scheme, Some(""), venueName, qrCodeUrl, false)
            == RenderPreview(template, scheme, None, venueName, qrCodeUrl, false)
  {
  }
}
