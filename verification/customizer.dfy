/** The three-step QR customizer (`QRCodeCustomizer.tsx`): the template,
    colour and logo tabs with their next and back buttons, the catalogues it
    offers, and the address the QR code encodes, derived from the venue
    name. */
module Customizer {
  import opened Common
  import JsString
  import QrPreview

  /** The tabs, in wizard order; `TabValue` is the tab's string value. */
  datatype Tab = TemplateTab | ColorsTab | LogoTab

  function TabValue(t: Tab): string {
    match t
    case TemplateTab => "template"
    case ColorsTab => "colors"
    case LogoTab => "logo"
  }

  /** Distinct tabs have distinct values. */
  lemma TabValueInjective(a: Tab, b: Tab)
    ensures TabValue(a) == TabValue(b) <==> a == b
  {
    if a != b {
      assert TabValue(a)[0] != TabValue(b)[0];
    }
  }

  const Templates: seq<QrPreview.Template> := [
    QrPreview.Template("template1", "Classic",
      "https://images.unsplash.com/photo-1581091226825-a6a2a5aee158?w=500&auto=format&fit=crop&q=60&ixlib=rb-4.0.3&ixid=M3wxMjA3fDB8MHxzZWFyY2h8Mnx8Y29tcHV0ZXIlMjBwZXJzb258ZW58MHx8MHx8fDA%3D"),
    QrPreview.Template("template2", "Modern",
      "https://images.unsplash.com/photo-1498050108023-c5249f4df085?w=500&auto=format&fit=crop&q=60&ixlib=rb-4.0.3&ixid=M3wxMjA3fDB8MHxzZWFyY2h8Nnx8Y29tcHV0ZXIlMjBjb2RlfGVufDB8fDB8fHww"),
    QrPreview.Template("template3", "Minimal",
      "https://images.unsplash.com/photo-1486312338219-ce68d2c6f44d?w=500&auto=format&fit=crop&q=60&ixlib=rb-4.0.3&ixid=M3wxMjA3fDB8MHxzZWFyY2h8M3x8Y29tcHV0ZXIlMjBwZXJzb258ZW58MHx8MHx8fDA%3D"),
    QrPreview.Template("template4", "Bold",
      "https://images.unsplash.com/photo-1487058792275-0ad4aaf24ca7?w=500&auto=format&fit=crop&q=60&ixlib=rb-4.0.3&ixid=M3wxMjA3fDB8MHxzZWFyY2h8NHx8Y29tcHV0ZXIlMjBjb2RlfGVufDB8fDB8fHww")
  ]

  const ColorSchemes: seq<QrPreview.ColorScheme> := [
    QrPreview.ColorScheme("scheme1", "#c8ff00", "#101820", "#ffffff"),
    QrPreview.ColorScheme("scheme2", "#ff5a5f", "#484848", "#ffffff"),
    QrPreview.ColorScheme("scheme3", "#00a699", "#2d3e4e", "#f5f5f5"),
    QrPreview.ColorScheme("scheme4", "#7848f4", "#2b2a35", "#f7f7f7"),
    QrPreview.ColorScheme("scheme5", "#ff9900", "#232f3e", "#ffffff"),
    QrPreview.ColorScheme("scheme6", "#1db954", "#191414", "#ffffff")
  ]

  /** Every offered template has its own style record: none falls to the
      default branch of the preview's lookup. */
  lemma TemplatesKnownToPreview(i: int)
    requires 0 <= i < |Templates|
    ensures QrPreview.IsKnownTemplate(Templates[i].id)
    ensures Templates[i].id == "template3" <==> i == 2
  {
  }

  datatype CustomizerState = CustomizerState(
    activeTab: Tab,
    template: QrPreview.Template,
    scheme: QrPreview.ColorScheme,
    logo: Option<string>,
    qrCodeUrl: string)

  /** The state on first render, before the effect has run. */
  const InitialCustomizer := CustomizerState(TemplateTab, Templates[0], ColorSchemes[0], None, "https://meand.u/demo")

  /** The first render shows the template tab, the first template, the first
      scheme and no logo. */
  lemma InitialShape()
    ensures InitialCustomizer.activeTab == TemplateTab && IsFirstStep(InitialCustomizer.activeTab)
    ensures InitialCustomizer.template.id == "template1" && InitialCustomizer.scheme.id == "scheme1"
    ensures !Truthy(InitialCustomizer.logo)
  {
  }

  // ---------------------------------------------------------------------------
  // The address
  // ---------------------------------------------------------------------------

  /** `venueName.toLowerCase().replace(/\s+/g, '-')`. */
  function Slug(venueName: string): (r: string)
    ensures JsString.NoWhitespace(r)
    ensures JsString.IsLowered(r)
    ensures |r| <= |venueName|
  {
    JsString.DashKeepsLowered(JsString.Lower(venueName));
    JsString.DashWhitespaceRuns(JsString.Lower(venueName))
  }

  /** A slug is its own slug. */
  lemma SlugIdempotent(venueName: string)
    ensures Slug(Slug(venueName)) == Slug(venueName)
  {
    var s := Slug(venueName);
    JsString.LowerOfLowered(s);
    JsString.DashIdentityOnClean(s);
  }

  /** A name with no white space and no capitals is its own slug. */
  lemma CleanNameIsSlug(venueName: string)
    requires JsString.NoWhitespace(venueName) && JsString.IsLowered(venueName)
    ensures Slug(venueName) == venueName
  {
    JsString.LowerOfLowered(venueName);
    JsString.DashIdentityOnClean(venueName);
  }

  /** Two words with a run of white space between them are joined by one
      '-'. */
  lemma SlugJoinsWords(a: string, gap: string, b: string)
    requires JsString.NoWhitespace(a) && JsString.IsLowered(a) && JsString.IsLowered(b)
    requires gap != [] && JsString.AllWhitespace(gap)
    requires JsString.NoWhitespace(b)
    ensures Slug(a + gap + b) == a + "-" + b
  {
    var s := a + gap + b;
    assert JsString.Lower(s) == a + JsString.Lower(gap) + b by {
      JsString.LowerOfLowered(a);
      JsString.LowerOfLowered(b);
      assert forall i :: 0 <= i < |s| ==> JsString.Lower(s)[i] == (a + JsString.Lower(gap) + b)[i];
    }
    JsString.DashOneRun(a, JsString.Lower(gap), b);
    JsString.DashIdentityOnClean(b);
  }

  const UrlPrefix := "https://meand.u/"

  /** The address the effect stores for a venue name. */
  function QrUrl(venueName: string): (url: string)
    ensures |url| == |UrlPrefix| + |Slug(venueName)|
    ensures url[..|UrlPrefix|] == UrlPrefix && url[|UrlPrefix|..] == Slug(venueName)
    ensures JsString.NoWhitespace(url)
  {
    UrlPrefix + Slug(venueName)
  }

  /** The effect on the venue name: the stored address follows the name;
      nothing else changes. */
  function NameEffect(st: CustomizerState, venueName: string): (r: CustomizerState)
    ensures r.qrCodeUrl == QrUrl(venueName)
    ensures r.(qrCodeUrl := st.qrCodeUrl) == st
  {
    st.(qrCodeUrl := QrUrl(venueName))
  }

  // ---------------------------------------------------------------------------
  // The wizard
  // ---------------------------------------------------------------------------

  predicate IsFirstStep(t: Tab) {
    TabValue(t) == "template"
  }

  predicate IsLastStep(t: Tab) {
    TabValue(t) == "logo"
  }

  /** The first-step flag marks the template tab, the last-step flag the
      logo tab, and no tab is both. */
  lemma StepFlags(t: Tab)
    ensures IsFirstStep(t) <==> t == TemplateTab
    ensures IsLastStep(t) <==> t == LogoTab
    ensures !(IsFirstStep(t) && IsLastStep(t))
  {
    TabValueInjective(t, TemplateTab);
    TabValueInjective(t, LogoTab);
  }

  /** "Continue": template to colours to logo; on the logo tab the button
      reads "Place Order" and only shows a notice, so the tab stays. The
      flag says whether the order notice was shown. */
  function NextStep(t: Tab): (r: (Tab, bool))
    ensures r.1 <==> IsLastStep(t)
    ensures r.1 ==> r.0 == t
    ensures !IsLastStep(t) ==> TabIndex(r.0) == TabIndex(t) + 1
  {
    StepFlags(t);
    match t
    case TemplateTab => (ColorsTab, false)
    case ColorsTab => (LogoTab, false)
    case LogoTab => (LogoTab, true)
  }

  /** "Back": logo to colours to template; on the template tab the button is
      "Start Over" instead, and this handler leaves the tab alone. */
  function PreviousStep(t: Tab): (r: Tab)
    ensures IsFirstStep(t) ==> r == t
    ensures !IsFirstStep(t) ==> TabIndex(r) == TabIndex(t) - 1
  {
    StepFlags(t);
    match t
    case TemplateTab => TemplateTab
    case ColorsTab => TemplateTab
    case LogoTab => ColorsTab
  }

  /** The tab's position in the wizard. */
  function TabIndex(t: Tab): nat {
    match t
    case TemplateTab => 0
    case ColorsTab => 1
    case LogoTab => 2
  }

  /** "Back" undoes "Continue" everywhere but on the last tab, and
      "Continue" undoes "Back" everywhere but on the first. */
  lemma StepsInverse(t: Tab)
    ensures !IsLastStep(t) ==> PreviousStep(NextStep(t).0) == t
    ensures !IsFirstStep(t) ==> NextStep(PreviousStep(t)).0 == t
  {
    StepFlags(t);
  }

  /** Two presses of "Continue" reach the last tab from anywhere, and
      further presses stay there. */
  lemma ContinueReachesLast(t: Tab)
    ensures IsLastStep(NextStep(NextStep(t).0).0)
    ensures IsLastStep(t) ==> NextStep(t).0 == t
  {
    StepFlags(LogoTab);
  }

  /** A logo sent by the uploader is stored as sent, the empty string of the
      remove button included. */
  function LogoUpload(st: CustomizerState, imageUrl: string): (r: CustomizerState)
    ensures r.logo == Some(imageUrl)
    ensures r.(logo := st.logo) == st
  {
    st.(logo := Some(imageUrl))
  }

  /** What the preview shows for the current state. */
  function PreviewOf(st: CustomizerState, venueName: string, isLoading: bool): QrPreview.Preview {
    QrPreview.RenderPreview(st.template, st.scheme, st.logo, venueName, st.qrCodeUrl, isLoading)
  }

  /** After the effect, the preview's QR code encodes the venue's address. */
  lemma PreviewEncodesVenue(st: CustomizerState, venueName: string)
    ensures PreviewOf(NameEffect(st, venueName), venueName, false).body.content.qr.value == QrUrl(venueName)
  {
  }
}
