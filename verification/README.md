# Collateral designer and QR customizer, modelled in Dafny

This project models the logic of the collateralv2 front end. That front end lets a venue:

- design a printable table collateral (a card carrying a table number, an action text, a QR code, the venue name and a logo);
- order printed copies of it;
- in a second flow, set up a QR menu card: a start form, then a three-step customizer with a live preview.

The React components are modelled as pure functions:

- a component's state becomes a datatype;
- each event handler becomes a function from the old state (and the event's data) to the new state;
- each update record a child sends to the design page becomes a `Design.Patch`. This is one optional value per setting, which the page merges with `{ ...prev, ...updates }`.

Rendering is modelled only as far as it decides something: which elements appear, their boxes, positions and constraints, the QR symbol's parameters, the CSS values derived from the settings, and which texts and badges the preview shows.

Modules:

| module | file | models |
|---|---|---|
| `Common` | `common.dfy` | shared records: options, points, shapes, text style, QR symbol parameters |
| `JsString` | `jsstring.dfy` | the JavaScript string operations the handlers use: white-space test, `trim`, `toLowerCase`, `replace(/\s+/g, '-')`, `parseInt` with and without radix 10 |
| `Design` | `design.dfy` | the design page: settings record, defaults, shallow merge, order-form switch |
| `Canvas` | `canvas.dfy` | the collateral preview: canvas size, element boxes and drag bounds, placement on square and circle, drag and resize handlers, pattern tile, text CSS, rendered view |
| `Patterns` | `patterns.dfy` | the pattern picker: catalogue, thumbnail style, click handler |
| `TextPanel` | `text_panel.dfy` | the text panel: action text, font dropdown, font sizes, style switches, highlight colour |
| `FontGroups` | `font_groups.dfy` | the font panel: fonts grouped by type with a `reduce`, radio selection |
| `OrderForm` | `order_form.dfy` | the order form: fields, validation, e-mail pattern, input handlers, pricing, submit up to payment |
| `StartForm` | `start_form.dfy` | the start form: name, table count, duplicates, submit |
| `LogoUploader` | `logo_uploader.dfy` | the customizer's logo uploader: hover flag, file checks, remove button |
| `QrPreview` | `qr_preview.dfy` | the customizer's preview: template styles and what is shown |
| `Customizer` | `customizer.dfy` | the customizer: catalogues, address derived from the venue name, wizard steps, logo hand-over |

JavaScript numbers are modelled as follows:

- integers are modelled as `int`;
- fractional sizes are modelled as `real`;
- prices are in cents, so $5.50 and 10% VAT stay exact.

## Model

| member | source | states |
|---|---|---|
| JsString.Trim | src/components/StartForm.tsx:35 | `trim()` is empty exactly for all-white-space text; otherwise the result starts and ends with a non-space; it is the input with only white space removed before and after it |
| JsString.TrimIdempotent | src/components/StartForm.tsx:35 | trimming a trimmed string changes nothing |
| JsString.Lower | src/components/QRCodeCustomizer.tsx:54 | `toLowerCase()` restricted to ASCII: each character is mapped on its own, 'A'-'Z' to 'a'-'z' (code plus 32) and every other character to itself, so no ASCII capital is left and white space stays white space |
| JsString.DashWhitespaceRuns | src/components/QRCodeCustomizer.tsx:54 | `replace(/\s+/g, '-')` leaves no white space and never lengthens the text |
| JsString.DashOneRun | src/components/QRCodeCustomizer.tsx:54 | a maximal run of white space after a clean head becomes exactly one '-' |
| JsString.DashIdentityOnClean | src/components/QRCodeCustomizer.tsx:54 | text without white space is unchanged by the replacement |
| JsString.DashIdempotent | src/components/QRCodeCustomizer.tsx:54 | replacing twice is replacing once |
| JsString.ContainsInContext | src/components/customizer/LogoUploader.tsx:45 | an unanchored match survives any text added around the subject |
| JsString.ParseIntRoundTrip | src/components/order/OrderForm.tsx:121 | `parseInt` of any integer's decimal numeral gives that integer back, with or without radix 10 |
| JsString.ParseInt | src/components/StartForm.tsx:85 | no contract of its own: what `parseInt` reads is stated by JsString.ParseIntRoundTrip (a numeral reads back as its integer) and JsString.ParsedNumberHasDigit (NaN without a digit) |
| JsString.ParsedNumberHasDigit | src/components/StartForm.tsx:85 | `parseInt` yields a number only for text that holds a decimal digit; otherwise it is NaN |
| Design.Merge | src/pages/Design.tsx:163-169 | no contract of its own: the merge is stated key by key by Design.MergeAt and characterised by Design.MergeSpec |
| Design.MergeAt | src/pages/Design.tsx:163-169 | under every key, the merged settings hold the update's value when the update carries one, and the previous value otherwise |
| Design.MergeSpec | src/pages/Design.tsx:163-169 | the merge is the one and only record that `{ ...prev, ...updates }` describes |
| Design.ThenAt | src/pages/Design.tsx:163-169 | in two updates combined, the later update's keys win |
| Design.MergeNoChange | src/pages/Design.tsx:163-169 | an empty update leaves the settings unchanged |
| Design.MergeIdempotent | src/pages/Design.tsx:163-169 | applying the same update twice equals applying it once |
| Design.MergeThen | src/pages/Design.tsx:163-169 | two successive updates equal one combined update |
| Design.MergeKeepsUntouched | src/pages/Design.tsx:163-169 | a key the update does not carry keeps its value |
| Design.NestedReplacedWhole | src/pages/Design.tsx:163-169 | a nested record in an update (text style, font sizes) replaces the old one whole; the result does not depend on what was there before |
| Design.DefaultSettings | src/pages/Design.tsx:93-153 | the defaults: rectangle, no logo or background image, sizes 48/30/130/18 and a 31×31 logo, three pairwise different position sets, all style flags off |
| Design.InitialPage | src/pages/Design.tsx:156-158 | the page starts on the default settings with the customization tabs shown |
| Design.VisiblePanel | src/pages/Design.tsx:246-248 | the order form is shown exactly when its flag is set |
| Design.NextSteps | src/pages/Design.tsx:172-174 | "Next Steps" shows the order form and keeps the design and the tab |
| Design.BackToDesign | src/pages/Design.tsx:177-179 | "Back to Design" shows the tabs again and keeps the design and the tab |
| Design.BackUndoesNext | src/pages/Design.tsx:172-179 | going to the order form and back restores the page exactly |
| Design.UpdateSettings | src/pages/Design.tsx:163-169 | the page's settings become the merge, and the panel switch and tab are kept |
| Canvas.ElementIdRoundTrip | src/components/collateral/CollateralPreview.tsx:277-301 | the handlers' `switch (element)` recognises exactly the five element names, each as its own element |
| Canvas.CanvasSize | src/components/collateral/CollateralPreview.tsx:189-190 | the canvas is 400 high; it is narrower than high exactly for the rectangle (300 wide), otherwise 400 wide |
| Canvas.BoxFor | src/components/collateral/CollateralPreview.tsx:380-442 | a text or QR element's box is its stored size high and aspect-ratio times as wide (2, 4, 1, 3) |
| Canvas.Box | src/components/collateral/CollateralPreview.tsx:380-498 | boxes follow their aspect ratio, the QR box is square at the QR size, and the logo box is the stored logo size |
| Canvas.ElementBounds | src/components/collateral/CollateralPreview.tsx:354-361 | the drag bounds start at the canvas origin and end where the box touches the right and bottom edges of the canvas |
| Canvas.DragBoundsKeepBoxInside | src/components/collateral/CollateralPreview.tsx:354-361 | a position lies within an element's drag bounds exactly when the element's box drawn there stays inside the canvas |
| Canvas.MinBox | src/components/collateral/CollateralPreview.tsx:380-498 | every element's minimum box has a positive width and height |
| Canvas.MaxBox | src/components/collateral/CollateralPreview.tsx:380-498 | every element's maximum box fits inside the narrowest canvas, the 300×400 rectangle |
| Canvas.ConstraintRanges | src/components/collateral/CollateralPreview.tsx:380-498 | every element's resize range is non-empty, and the QR range is square |
| Canvas.AdjustPosition | src/components/collateral/CollateralPreview.tsx:205-273 | the stored position is used on the rectangle, for a dragged element, and for an unknown name |
| Canvas.UndraggedIgnoresStoredPosition | src/components/collateral/CollateralPreview.tsx:205-273 | on the square and the circle, an undragged element is drawn at the same place whatever position is stored |
| Canvas.SquarePlacements | src/components/collateral/CollateralPreview.tsx:226-247 | the fixed square placements of the five undragged elements |
| Canvas.CirclePlacements | src/components/collateral/CollateralPreview.tsx:249-271 | the fixed circle placements: four elements on the vertical centre line, and the logo near the top right |
| Canvas.SquareVenueOutsideBounds | src/components/collateral/CollateralPreview.tsx:226-247 | on the square, an undragged venue name bigger than 15 starts outside its own drag bounds |
| Canvas.CircleLogoOutsideBounds | src/components/collateral/CollateralPreview.tsx:249-271 | on the circle, an undragged logo wider than 20 starts outside its own drag bounds |
| Canvas.DragStop | src/components/collateral/CollateralPreview.tsx:277-301 | a drag that ends on an unknown element name records nothing |
| Canvas.DragStopEffect | src/components/collateral/CollateralPreview.tsx:277-301 | ending a drag moves exactly that element to the drop point and marks it dragged; other elements, all sizes and all content keep their values |
| Canvas.DragStopUnknownId | src/components/collateral/CollateralPreview.tsx:277-301 | an unknown element name leaves the settings unchanged |
| Canvas.DroppedWhereReleased | src/components/collateral/CollateralPreview.tsx:205-301 | after a drag, the element is drawn exactly where it was dropped, on every shape |
| Canvas.ResizeStop | src/components/collateral/CollateralPreview.tsx:305-330 | for the handler's declared `{ width, height }` parameter, a resize that ends on an unknown element name records nothing |
| Canvas.ResizeRoundTrip | src/components/collateral/CollateralPreview.tsx:305-330 | after the handler runs on a declared `{ width, height }` parameter, the element's box has that width and the height its aspect ratio gives; the logo keeps both dimensions; nothing else changes |
| Canvas.ResizeIgnoresHeight | src/components/collateral/CollateralPreview.tsx:312-325 | for the text and QR elements, the final height of the resize is dropped |
| Canvas.LogoResizeNotSquared | src/components/collateral/CollateralPreview.tsx:322-325 | a 50×40 logo resize is stored as 50×40 |
| Canvas.PatternTile | src/components/collateral/CollateralPreview.tsx:82-187 | every background-image value the style sets is in the text colour; a tile is at most 60 pixels; an offset lies inside its tile and is half of it except for confetti; a size or offset comes only with an image value |
| Canvas.TextStyles | src/components/collateral/CollateralPreview.tsx:69-80 | bold, underline and the highlight padding and background each appear exactly when their flag is on; with a flag off the value is "normal", "none" or "0" and no background is set |
| Canvas.TextStylesReflectStyle | src/components/collateral/CollateralPreview.tsx:69-80 | two text styles with the same CSS have the same three flags, and the same colour when highlighted, so the CSS shows every switch |
| Canvas.Render | src/components/collateral/CollateralPreview.tsx:335-498 | the view shows the venue name only when it is non-empty and the logo only when it is set; each shown element sits at its adjusted position in its own box, with its own minimum and maximum box; the text elements carry the text-style CSS; the background layer appears iff an image is set; the QR symbol is 20 smaller than its box, at level H |
| Canvas.QrBoxSquare | src/components/collateral/CollateralPreview.tsx:435-454 | the QR box is square, and the symbol plus 20 pixels of padding fills it |
| Canvas.ActionTextMaxWidth | src/components/collateral/CollateralPreview.tsx:403-410 | the action text is capped at 300px except on the circle |
| Canvas.DefaultVenueBoxBelowMinimum | src/components/collateral/CollateralPreview.tsx:462-473 | the default venue size of 18 gives a 54×18 box, below the element's own minimum of 60×20 |
| Patterns.CatalogueShape | src/components/collateral/CollateralPatterns.tsx:48-69 | twenty patterns with distinct ids, "none" first; the design's default pattern is one of them |
| Patterns.ThumbnailStyle | src/components/collateral/CollateralPatterns.tsx:72-196 | a thumbnail keeps its own background colour, sets any background-image value in the text colour, and is plain exactly when it sets none |
| Patterns.ThumbnailMatchesCanvas | src/components/collateral/CollateralPatterns.tsx:72-196 | a thumbnail shows its background colour under the same tile the canvas draws for that pattern |
| Patterns.CatalogueEntryDraws | src/components/collateral/CollateralPatterns.tsx:72-196 | every catalogue entry except "none" sets a background-image value |
| Patterns.UnknownPatternPlain | src/components/collateral/CollateralPatterns.tsx:192-195 | an id outside the catalogue shows the plain background |
| Patterns.SvgPatternsUnsized | src/components/collateral/CollateralPatterns.tsx:86-100 | waves, zigzag and bubbles draw an image with no tile size or offset |
| Patterns.SelectPattern | src/components/collateral/CollateralPatterns.tsx:208 | a click sends an update with the pattern id and nothing else |
| Patterns.SelectPatternEffect | src/components/collateral/CollateralPatterns.tsx:208 | after the click the design has the pattern, and no other setting changes |
| TextPanel.InitialPanel | src/components/collateral/CollateralText.tsx:53-55 | the dropdown and colour picker start closed, with the design's font selected |
| TextPanel.ToggleDropdown | src/components/collateral/CollateralText.tsx:206 | the font button flips the dropdown and nothing else |
| TextPanel.ActionTextChange | src/components/collateral/CollateralText.tsx:62-64 | typing sends the new action text alone |
| TextPanel.FontChange | src/components/collateral/CollateralText.tsx:66-71 | picking a font sends that font alone, selects it and closes the dropdown |
| TextPanel.FinalSize | src/components/collateral/CollateralText.tsx:75 | the action-text size is the larger of 30 and the requested value; other sizes are taken as given |
| TextPanel.UpdateFontSize | src/components/collateral/CollateralText.tsx:73-83 | a size change sends a whole font-size record, with the chosen entry set and the others copied from the current record |
| TextPanel.SliderValuesStoredExactly | src/components/collateral/CollateralText.tsx:337-361 | every value the sliders can produce (24-72, 30-48) is stored unchanged |
| TextPanel.FontSizeEffect | src/components/collateral/CollateralText.tsx:73-83 | after a size change, only the chosen font size differs in the design |
| TextPanel.Toggle | src/components/collateral/CollateralText.tsx:86-111 | each switch inverts its own flag and keeps the other flags and the colour |
| TextPanel.ToggleTwice | src/components/collateral/CollateralText.tsx:86-111 | flipping the same switch twice restores the style |
| TextPanel.TogglesCommute | src/components/collateral/CollateralText.tsx:86-111 | two switches give the same style in either order |
| TextPanel.ToggleUpdate | src/components/collateral/CollateralText.tsx:86-111 | a switch sends the whole text-style record and nothing else |
| TextPanel.UpdateHighlightColor | src/components/collateral/CollateralText.tsx:113-120 | a colour choice sends the style with the new colour and the same flags |
| TextPanel.FindFont | src/components/collateral/CollateralText.tsx:211 | `find` returns the first entry carrying the value, or nothing exactly when no entry carries it |
| TextPanel.DisplayName | src/components/collateral/CollateralText.tsx:211 | the button shows the name of the first entry carrying the selected value ("Poppins" if that name is empty), never an empty name, and "Poppins" for a value outside the list |
| TextPanel.FirstEntryNamesValue | src/components/collateral/CollateralText.tsx:211 | the first entry carrying a value is the one found, even if later entries repeat it |
| TextPanel.MontserratNotGaret | src/components/collateral/CollateralText.tsx:127-164 | the Montserrat value is listed again as "Garet", and the button shows "Montserrat" |
| TextPanel.OpenSauceShowsPoppins | src/components/collateral/CollateralText.tsx:124-166 | choosing "Open Sauce" shows "Poppins", because both share one value |
| FontGroups.LabelInjective | src/components/collateral/CollateralFonts.tsx:34-45 | the three type labels are pairwise distinct |
| FontGroups.FindGroup | src/components/collateral/CollateralFonts.tsx:48-54 | the lookup finds the group keyed by the font's type if there is one |
| FontGroups.GroupByKind | src/components/collateral/CollateralFonts.tsx:48-54 | the `reduce` gives no more groups than fonts, and no group exactly for an empty list |
| FontGroups.GroupByKindIsPartition | src/components/collateral/CollateralFonts.tsx:48-54 | the `reduce` equals the reference partition: one group per type, in order of first appearance, each holding that type's fonts in list order |
| FontGroups.GroupsPartitionFonts | src/components/collateral/CollateralFonts.tsx:48-54 | every group is non-empty, and a font lies in a group exactly when its type is the group's key |
| FontGroups.MemberOfKind | src/components/collateral/CollateralFonts.tsx:48-54 | every font appears among the fonts of its type |
| FontGroups.OfKindOnlyKind | src/components/collateral/CollateralFonts.tsx:48-54 | a type's fonts all have that type |
| FontGroups.GroupKeysDistinct | src/components/collateral/CollateralFonts.tsx:48-54 | no two groups share a type |
| FontGroups.GroupingKeepsCount | src/components/collateral/CollateralFonts.tsx:48-54 | the groups together hold exactly as many fonts as the list |
| FontGroups.PanelSections | src/components/collateral/CollateralFonts.tsx:34-61 | the panel shows three sections: Sans-serif with 6 fonts, Serif with 3, Display with 1 |
| FontGroups.FontKinds | src/components/collateral/CollateralFonts.tsx:34-45 | the types first appear in the order Sans-serif, Serif, Display |
| FontGroups.FontCounts | src/components/collateral/CollateralFonts.tsx:34-45 | the list has 6 sans-serif, 3 serif and 1 display font |
| FontGroups.SelectFont | src/components/collateral/CollateralFonts.tsx:66 | a radio choice sends the font alone |
| FontGroups.SelectFontEffect | src/components/collateral/CollateralFonts.tsx:66 | after the choice the design uses the font, and nothing else changes |
| OrderForm.WithText | src/components/order/OrderForm.tsx:102 | the edited text field takes the value; the other fields and the quantity are kept |
| OrderForm.EmailMatches | src/components/order/OrderForm.tsx:85 | any text the e-mail pattern accepts has at least five characters, as in "a@b.c" |
| OrderForm.EmailNeedsAt | src/components/order/OrderForm.tsx:85 | text without an '@' never matches the e-mail pattern |
| OrderForm.EmailMatchInContext | src/components/order/OrderForm.tsx:85 | the pattern is unanchored, so a matching address stays matching inside any text |
| OrderForm.EmailExamples | src/components/order/OrderForm.tsx:85 | "a@b.c" matches; "a@b" and "a@.c" do not |
| OrderForm.ValidationErrors | src/components/order/OrderForm.tsx:79-96 | a field has a message exactly when it fails its check, and every message is non-empty |
| OrderForm.IsValid | src/components/order/OrderForm.tsx:79-96 | the form is valid exactly when all seven text fields are filled, the e-mail matches and the quantity is at least 1 |
| OrderForm.EmailErrorsExclusive | src/components/order/OrderForm.tsx:83-87 | an empty e-mail is "required" and never "invalid"; a non-empty one is "invalid" exactly when it fails the pattern |
| OrderForm.ClearError | src/components/order/OrderForm.tsx:105-107 | editing a field clears that field's message and keeps every other message |
| OrderForm.TextChange | src/components/order/OrderForm.tsx:100-108 | a text edit sets that field, keeps every other field and message, and clears the field's own message |
| OrderForm.QuantityChange | src/components/order/OrderForm.tsx:111-133 | a quantity edit changes only the quantity and the quantity's message |
| OrderForm.QuantityReadsNumber | src/components/order/OrderForm.tsx:121-126 | typing any integer's numeral stores that integer |
| OrderForm.QuantityFallbacks | src/components/order/OrderForm.tsx:117-126 | an empty box stores 1, and text without a digit keeps the old quantity |
| OrderForm.NonPositiveQuantityRejected | src/components/order/OrderForm.tsx:93 | a typed zero or negative quantity is stored and then fails validation with the quantity message |
| OrderForm.Pricing | src/components/order/OrderForm.tsx:72-77 | the subtotal is 550 cents per collateral, the VAT exactly a tenth of it, and the total 605 cents each |
| OrderForm.PriceStep | src/components/order/OrderForm.tsx:72-77 | each extra collateral adds exactly 605 cents to the total |
| OrderForm.Submit | src/components/order/OrderForm.tsx:180-207 | without the payment system nothing changes; otherwise the messages are stored, the payment error is cleared, and processing starts exactly when the order is complete |
| OrderForm.IncompleteNeverProcesses | src/components/order/OrderForm.tsx:197-205 | an incomplete order never starts processing |
| OrderForm.PayEnabled | src/components/order/OrderForm.tsx:502 | the pay button is enabled exactly when the payment system is ready and nothing is processing, so a click never meets an unready system |
| StartForm.TableCountInput | src/components/StartForm.tsx:85 | `parseInt(value) \|\| 0`: the parsed integer, or 0 for NaN |
| StartForm.TableCountReadsNumber | src/components/StartForm.tsx:85 | typing any integer's numeral stores that integer |
| StartForm.NonNumericCountIsZero | src/components/StartForm.tsx:85 | text without a decimal digit stores 0 |
| StartForm.HexCountAccepted | src/components/StartForm.tsx:85 | without a radix, "0x1F" is read as 31 tables |
| StartForm.SetVenueName | src/components/StartForm.tsx:67 | typing the name sets it and nothing else |
| StartForm.SetTableCount | src/components/StartForm.tsx:85 | typing the count sets it and nothing else |
| StartForm.SetDuplicates | src/components/StartForm.tsx:100 | the checkbox sets the flag exactly when it reports checked, so indeterminate counts as off |
| StartForm.StartValidation | src/components/StartForm.tsx:33-45 | the name message appears exactly for an all-white-space name; the count gets the "at least 1" or the "maximum 500" message, never both |
| StartForm.HandleSubmit | src/components/StartForm.tsx:30-54 | the messages are stored, and the details go out exactly when the name has a non-space and the count is 1 to 500; the name goes out trimmed |
| StartForm.NonNumericCountRejected | src/components/StartForm.tsx:85 | a count typed without a digit is always refused with the "at least 1" message |
| StartForm.TypedCountAccepted | src/components/StartForm.tsx:39-47 | a typed count passes exactly when it is 1 to 500, both ends included |
| StartForm.SubmittedNameTrimmed | src/components/StartForm.tsx:47-49 | the submitted name is non-empty, has no surrounding white space and is its own trim |
| LogoUploader.CheckFile | src/components/customizer/LogoUploader.tsx:44-61 | a file is accepted exactly when its type contains "image" and it is at most 5 MB; the type is checked first |
| LogoUploader.SizeLimitInclusive | src/components/customizer/LogoUploader.tsx:54 | exactly 5,242,880 bytes pass and one more byte does not |
| LogoUploader.ImageAnywhere | src/components/customizer/LogoUploader.tsx:45 | any type with "image" anywhere passes the type check; "application/pdf" does not |
| LogoUploader.TypeCheckedFirst | src/components/customizer/LogoUploader.tsx:45-61 | an oversized file of the wrong type is reported for its type |
| LogoUploader.HandleFile | src/components/customizer/LogoUploader.tsx:44-64 | only an accepted file starts loading, and the hover flag is untouched |
| LogoUploader.HandleFiles | src/components/customizer/LogoUploader.tsx:33-41 | with no file nothing happens; otherwise only the first file is checked |
| LogoUploader.DragOver | src/components/customizer/LogoUploader.tsx:19-22 | dragging over turns the highlight on |
| LogoUploader.DragLeave | src/components/customizer/LogoUploader.tsx:24-27 | leaving turns the highlight off |
| LogoUploader.Drop | src/components/customizer/LogoUploader.tsx:29-36 | a drop turns the highlight off, then handles the first file if any, exactly as a check of that file on the un-highlighted zone |
| LogoUploader.FileInput | src/components/customizer/LogoUploader.tsx:38-42 | the file picker keeps the highlight, ignores an empty choice, and otherwise checks the first chosen file and handles it |
| LogoUploader.HoverFlagFollowsLastEvent | src/components/customizer/LogoUploader.tsx:19-42 | after any run of events, the zone is highlighted exactly when the last drag event was a drag-over |
| LogoUploader.RemoveLogo | src/components/customizer/LogoUploader.tsx:78-80 | the remove button sends a falsy logo |
| QrPreview.StylesFor | src/components/customizer/QRPreview.tsx:42-85 | every id gets a QR size of 130, 150 or 160, 130 exactly for template3, and an unknown id gets the classic styles |
| QrPreview.UnknownTemplateIsClassic | src/components/customizer/QRPreview.tsx:76-84 | an unknown template id gets exactly the classic styles |
| QrPreview.QrSizes | src/components/customizer/QRPreview.tsx:42-85 | the QR sizes are 150, 160, 130 and 160, and every id gets one of these |
| QrPreview.RenderPreview | src/components/customizer/QRPreview.tsx:89-170 | the box takes the scheme's accent and secondary colours; it shows the placeholder exactly while loading. Once loaded: the layout is horizontal iff template3, the logo shows iff it is truthy, and the QR symbol encodes the address at the template's size, in the secondary colour, at level H. The tag appears exactly for template2 and template4 |
| QrPreview.BadgeOnlyVertical | src/components/customizer/QRPreview.tsx:105-165 | the tag never appears in the horizontal layout |
| QrPreview.EmptyLogoHidden | src/components/customizer/QRPreview.tsx:110-112 | a removed logo (the empty string) looks exactly like no logo |
| Customizer.TabValueInjective | src/components/QRCodeCustomizer.tsx:123-128 | the three tab values are pairwise distinct |
| Customizer.TemplatesKnownToPreview | src/components/QRCodeCustomizer.tsx:15-20 | every offered template has its own style record in the preview, and only the third is template3 |
| Customizer.InitialShape | src/components/QRCodeCustomizer.tsx:44-48 | the customizer starts on the first tab, the first template and scheme, and no logo |
| Customizer.Slug | src/components/QRCodeCustomizer.tsx:54 | the sanitized name has no white space and no ASCII capital, and is no longer than the name |
| Customizer.SlugIdempotent | src/components/QRCodeCustomizer.tsx:54 | sanitizing a sanitized name changes nothing |
| Customizer.CleanNameIsSlug | src/components/QRCodeCustomizer.tsx:54 | a name without white space or ASCII capitals is kept as it is |
| Customizer.SlugJoinsWords | src/components/QRCodeCustomizer.tsx:54 | two words separated by white space are joined by exactly one '-' |
| Customizer.QrUrl | src/components/QRCodeCustomizer.tsx:55 | the address is the fixed prefix followed by the sanitized name, and has no white space |
| Customizer.NameEffect | src/components/QRCodeCustomizer.tsx:53-56 | the effect sets the address from the venue name and changes nothing else |
| Customizer.StepFlags | src/components/QRCodeCustomizer.tsx:108-109 | the first-step flag marks the template tab, the last-step flag the logo tab, and no tab is both |
| Customizer.NextStep | src/components/QRCodeCustomizer.tsx:85-98 | "Continue" moves one tab forward; on the last tab it stays and shows the order notice |
| Customizer.PreviousStep | src/components/QRCodeCustomizer.tsx:100-106 | "Back" moves one tab back and does nothing on the first tab |
| Customizer.StepsInverse | src/components/QRCodeCustomizer.tsx:85-106 | "Back" undoes "Continue" except on the last tab, and "Continue" undoes "Back" except on the first |
| Customizer.ContinueReachesLast | src/components/QRCodeCustomizer.tsx:85-98 | two presses of "Continue" reach the last tab from anywhere, and further presses stay there |
| Customizer.LogoUpload | src/components/QRCodeCustomizer.tsx:76-83 | an uploaded logo is stored as sent, and nothing else changes |
| Customizer.PreviewEncodesVenue | src/components/QRCodeCustomizer.tsx:53-56 | after the effect, the preview's QR symbol encodes the venue's address |

## Behaviour as coded

These behaviours follow the code:

- **Resize callback data.** The resize handler declares its third parameter as `{ width, height }`, but every call site passes the resize widget's callback data straight through (CollateralPreview.tsx lines 388, 411, 443, 474, 499). That data is `{ node, size, handle }` in the widget library's documented interface, so `size.width` reads `undefined` and the stored size becomes NaN. The model takes the declared parameter at face value (`Canvas.ResizeStop`, `Canvas.ResizeRoundTrip`); the library is not part of this model.
- **"leaves" pattern.** Its `backgroundImage` value places layer positions (`0 0`, `8px 8px`) after each gradient (CollateralPreview.tsx line 140, CollateralPatterns.tsx line 141). Only the `background` shorthand accepts positions there, so a browser drops the declaration and "leaves" shows no image on the canvas or the thumbnail. The model records the value the style object sets (`Canvas.PatternTile`, `Patterns.CatalogueEntryDraws`).
- **Browser form validation.** The order form's quantity box is `type="number" min="1"` and its e-mail box `type="email"` (OrderForm.tsx lines 324, 419-420); the start form's count box has `min={1} max={500}` (StartForm.tsx lines 81-83). A browser refuses to fire `submit` while these constraints fail, and a number box hands over "" for text without a number. So `OrderForm.NonPositiveQuantityRejected`, the digitless-text path of `OrderForm.QuantityFallbacks`, and the "at least 1" and "maximum 500" table messages are true of the handlers but not reached by typing in a browser.
- **Logo resize.** The code keeps the logo's width and height as resized. It does not square the logo, although the logo's minimum and maximum constraints are square (`Canvas.LogoResizeNotSquared`).
- **Manual positions.** A dragged element is remembered by one flag per element in the settings, not by a set per shape. So a drag on one shape also marks the element as placed on the other shapes. There is no snapping to a grid.
- **Start form table count.** `parseInt` is called without a radix, so the handler reads a "0x" prefix as hexadecimal (`StartForm.HexCountAccepted`). The box is `type="number"` (StartForm.tsx line 81), and a browser hands such a box "" for typed "0x1F", so the hexadecimal reading exists in the handler but is not reached by typing. Text without a digit gives 0, and 0 is refused.
- **Two settings types.** The design page declares a settings type with one position set per shape. The preview reads flat positions and dragged flags. The two are modelled as `Design.Settings` and `Canvas.CanvasSettings`, and the model does not reconcile them.
- **Default venue-name box.** With the default venue-name size of 18, the box is 54×18, below the element's own minimum of 60×20 (`Canvas.DefaultVenueBoxBelowMinimum`).
- **Default placements leave their own bounds.** On the square, any venue-name size above 15 places the undragged name outside its drag bounds. On the circle, any logo wider than 20 does the same for the logo (`Canvas.SquareVenueOutsideBounds`, `Canvas.CircleLogoOutsideBounds`).

## Left out

- The Stripe payment calls are left out: loading Stripe, creating and confirming the payment intent, the timer-driven success path and the completion callback. `OrderForm.Submit` stops where processing starts, and Stripe's readiness is the parameter `ready`.
- Toasts, `console.log` and navigation are left out. They have no effect on the modelled state; `Customizer.NextStep` records only whether the order notice is shown.
- Reading an accepted logo file is left out: the `setTimeout` and `FileReader` of LogoUploader.tsx lines 66-75. The model stops at the decision to read.
- QRPreview's half-second loading timer is the parameter `isLoading`.
- The SVG markup inside the pattern images is left out. The tiles record which motif is drawn, in which colour, at what size and offset.
- The `layout`, `icons`, `cornerRadius` and `fontSize` settings are kept in `Design.Settings` but are not drawn by the canvas model, because the preview does not read them.
- The tab triggers that set a tab directly (`onValueChange={setActiveTab}`) are left out. They are plain assignments; the wizard buttons are modelled.
- The template and colour-scheme select handlers, and "Start Over", are left out. They are plain assignments followed by a toast or a callback.
- Clearing a field's error is modelled as a key that either is absent or maps to the empty string. This stands for the source's `undefined` value.
- `Canvas.AdjustPosition`: its contract states when the stored position is kept. The fixed placements on the square and circle are stated by `Canvas.SquarePlacements` and `Canvas.CirclePlacements`.
- Prices are in integer cents. The source computes in floating-point dollars, so its rounding of `toFixed(2)` is not modelled.
- JsString.Lower: only 'A'-'Z' are lower-cased. JavaScript's `toLowerCase()` also maps non-ASCII capitals ("É" to "é") and can lengthen a string ("İ" becomes two code units); neither is modelled, so Customizer.Slug, Customizer.CleanNameIsSlug and Customizer.SlugJoinsWords speak of ASCII capitals only.
- Customizer.Slug: "no capitals" means no ASCII capital, and the length bound holds for the ASCII lower-casing only, because JsString.Lower is ASCII-only; a name with "É" keeps it, and one with "İ" may grow under JavaScript.
- Customizer.CleanNameIsSlug: "no capitals" in its precondition means no ASCII capital, because JsString.Lower is ASCII-only; a name holding "É" is kept by the model but lower-cased by JavaScript.
- Customizer.SlugJoinsWords: the words are lower-cased in the ASCII sense only, because JsString.Lower is ASCII-only.
- JsString.ParseIntRoundTrip: JavaScript's `parseInt` returns a double, exact only up to 2^53 in magnitude; the model reads numerals as unbounded integers, so the round trip is promised for all integers while the source keeps it only within that range.
- OrderForm.QuantityReadsNumber: holds in the source only for quantities up to 2^53 in magnitude, because `parseInt` returns a double; the model reads unbounded integers.
- StartForm.TableCountReadsNumber: holds in the source only for counts up to 2^53 in magnitude, because `parseInt` returns a double; the model reads unbounded integers.
- Canvas.ResizeStop: takes the handler's declared `{ width, height }` parameter at face value; the call sites pass the widget's `{ node, size, handle }` callback data, whose missing `width` makes the stored sizes NaN, and that is not modelled.
- Canvas.ResizeRoundTrip: holds for the declared `{ width, height }` parameter only, for the same reason as Canvas.ResizeStop.
