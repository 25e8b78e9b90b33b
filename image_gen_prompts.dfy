/**
 * The system prompts sent with every image-generation request: a fixed
 * preamble, the brand's identity (name, industry, description, voice,
 * logo policy, colours) and fixed visual standards, optionally followed
 * by the product's context.  Each builder collects its sections in order
 * and joins them with line breaks; optional sections appear only when the
 * organisation or product supplies a (non-empty) value.
 */
module ImageGenPrompts {

  import opened Wrappers
  import opened Strings

  datatype BrandContext = BrandContext(
    name: string,
    industry: Option<string>,
    description: Option<string>,
    brandVoice: Option<seq<string>>,
    logoPolicy: Option<string>,
    colorPalette: Option<seq<string>>)

  datatype ProductContext = ProductContext(name: string, description: Option<string>, tags: Option<seq<string>>)

  /** JavaScript truthiness of an optional string. */
  predicate Given(s: Option<string>) {
    s.Some? && |s.value| > 0
  }

  predicate NonEmptyList(xs: Option<seq<string>>) {
    xs.Some? && |xs.value| > 0
  }

  /** The fixed texts the builders push. */
  datatype FixedText =
    | CorePrompt
    | IdentityHeader | VoiceHeader | VoiceNote | LogoHeader | PaletteHeader | PaletteNote
    | AlwaysLogo | UsuallyLogo | RarelyLogo | DefaultLogo
    | StandardsHeader | Standard1 | Standard2 | Standard3 | Standard4
    | ProductHeader | ProductNote | ContextNote | CharacteristicsNote
    | AtmosphereHeader | Atmosphere1 | Atmosphere2 | Atmosphere3 | Atmosphere4

  /** The texts that carry a value after a fixed label. */
  datatype Label =
    | BrandName | Industry | BrandDescription | Qualities | BrandColors
    | ProductName | ProductContextLine | Characteristics

  /** One entry of a builder's `sections` array. */
  datatype Section = Fixed(piece: FixedText) | Labelled(key: Label, value: string)

  function FixedString(t: FixedText): string {
    match t
    case CorePrompt =>
      "\nYou are a professional brand designer and photographer creating high-quality marketing materials. \n"
      + "Generate images that are:\n"
      + "- Professional and commercially viable\n"
      + "- Consistent with brand identity and visual language\n"
      + "- Suitable for marketing, advertising, and promotional use\n"
      + "- High resolution with excellent composition and lighting\n"
      + "- Modern and visually appealing\n"
      + "\n"
      + "Always maintain brand consistency and create images that would be appropriate for commercial use.\n"
    case IdentityHeader => "\n## BRAND IDENTITY"
    case VoiceHeader => "\n## BRAND VOICE & PERSONALITY"
    case VoiceNote => "Ensure all visual elements reflect this brand personality and tone."
    case LogoHeader => "\n## LOGO USAGE"
    case PaletteHeader => "\n## COLOR PALETTE"
    case PaletteNote =>
      "Use these colors as the primary palette. You can use variations and complementary colors, but ensure the brand colors are prominent and recognizable."
    case AlwaysLogo =>
      "CRITICAL: The brand logo must be prominently featured in every generated image. The logo should be clearly visible and well-integrated into the design. Never generate images without the logo."
    case UsuallyLogo =>
      "IMPORTANT: Include the brand logo in most generated images when it makes sense visually. The logo should be tastefully integrated and enhance rather than distract from the overall design."
    case RarelyLogo =>
      "The brand logo should only be included when specifically requested or when it significantly enhances the image's purpose. Focus on conveying brand identity through colors, style, and visual elements rather than explicit logo placement."
    case DefaultLogo => "Include the brand logo when it enhances the image and maintains good composition."
    case StandardsHeader => "\n## VISUAL STANDARDS"
    case Standard1 => "- Maintain consistent visual style across all generated images"
    case Standard2 => "- Use professional photography techniques (proper lighting, composition, depth of field)"
    case Standard3 => "- Ensure images work well for both digital and print applications"
    case Standard4 => "- Create images that align with modern design trends while respecting brand identity"
    case ProductHeader => "\n## PRODUCT CONTEXT FOR ATMOSPHERE & VIBE"
    case ProductNote =>
      "This information is for creating appropriate atmosphere, environment, and mood - NOT for literal inclusion in the image."
    case ContextNote => "Use this context to understand the appropriate mood, setting, and atmosphere for the image."
    case CharacteristicsNote =>
      "These characteristics should inform the visual style, mood, and environmental context of the image."
    case AtmosphereHeader => "\n## ATMOSPHERE GUIDELINES"
    case Atmosphere1 => "- Create an environment and mood that complements this product context"
    case Atmosphere2 => "- Choose lighting, colors, and composition that reflect the product's intended use and audience"
    case Atmosphere3 => "- Consider the lifestyle and environment where this product would naturally fit"
    case Atmosphere4 =>
      "- The goal is to create imagery that evokes the right feeling and context, not to show the product itself"
  }

  function LabelString(l: Label): string {
    match l
    case BrandName => "Brand: "
    case Industry => "Industry: "
    case BrandDescription => "Brand Description: "
    case Qualities => "The brand embodies these qualities: "
    case BrandColors => "Brand colors: "
    case ProductName => "Product Name: "
    case ProductContextLine => "\nProduct Context: "
    case Characteristics => "\nProduct Characteristics: "
  }

  function Render(s: Section): string {
    match s
    case Fixed(t) => FixedString(t)
    case Labelled(l, v) => LabelString(l) + v
  }

  /** `sections.join('\n')`, with each section rendered by `f`. */
  function JoinLines(xs: seq<Section>, f: Section -> string): string {
    Join(seq(|xs|, i requires 0 <= i < |xs| => f(xs[i])), "\n")
  }

  function RenderAll(xs: seq<Section>): string {
    JoinLines(xs, Render)
  }

  /** `getLogoPolicyInstructions`. */
  function GetLogoPolicyInstructions(logoPolicy: string): FixedText {
    if logoPolicy == "always" then AlwaysLogo
    else if logoPolicy == "usually" then UsuallyLogo
    else if logoPolicy == "rarely" then RarelyLogo
    else DefaultLogo
  }

  /** The three named policies get three different texts, and every other value the default one. */
  lemma LogoPolicyTexts(logoPolicy: string)
    ensures GetLogoPolicyInstructions("always") != GetLogoPolicyInstructions("usually")
    ensures GetLogoPolicyInstructions("always") != GetLogoPolicyInstructions("rarely")
    ensures GetLogoPolicyInstructions("usually") != GetLogoPolicyInstructions("rarely")
    ensures GetLogoPolicyInstructions(logoPolicy) == DefaultLogo <==>
      logoPolicy != "always" && logoPolicy != "usually" && logoPolicy != "rarely"
  {
  }

  const VisualStandards: seq<Section> :=
    [Fixed(StandardsHeader), Fixed(Standard1), Fixed(Standard2), Fixed(Standard3), Fixed(Standard4)]

  function IdentitySections(ctx: BrandContext): seq<Section> {
    [Fixed(IdentityHeader), Labelled(BrandName, ctx.name)]
    + (if Given(ctx.industry) then [Labelled(Industry, ctx.industry.value)] else [])
    + (if Given(ctx.description) then [Labelled(BrandDescription, ctx.description.value)] else [])
  }

  function VoiceSections(ctx: BrandContext): seq<Section> {
    if NonEmptyList(ctx.brandVoice) then
      [Fixed(VoiceHeader), Labelled(Qualities, Join(ctx.brandVoice.value, ", ")), Fixed(VoiceNote)]
    else []
  }

  function LogoSections(ctx: BrandContext): seq<Section> {
    if Given(ctx.logoPolicy) then [Fixed(LogoHeader), Fixed(GetLogoPolicyInstructions(ctx.logoPolicy.value))] else []
  }

  function PaletteSections(ctx: BrandContext): seq<Section> {
    if NonEmptyList(ctx.colorPalette) then
      [Fixed(PaletteHeader), Labelled(BrandColors, Join(ctx.colorPalette.value, ", ")), Fixed(PaletteNote)]
    else []
  }

  /** The `sections` array of `buildBrandSystemPrompt`, in push order. */
  function BrandSections(ctx: BrandContext): seq<Section> {
    [Fixed(CorePrompt)] + BrandBody(ctx)
  }

  /** The sections pushed after the preamble. */
  function BrandBody(ctx: BrandContext): seq<Section> {
    IdentitySections(ctx) + OptionalBlocks(ctx) + VisualStandards
  }

  /** The voice, logo and colour blocks, each present or absent as a whole. */
  function OptionalBlocks(ctx: BrandContext): seq<Section> {
    VoiceSections(ctx) + LogoSections(ctx) + PaletteSections(ctx)
  }

  /** `buildBrandSystemPrompt`. */
  function BuildBrandSystemPrompt(ctx: BrandContext): string {
    RenderAll(BrandSections(ctx))
  }

  /** Some section carries label `l`. */
  ghost predicate HasLabel(xs: seq<Section>, l: Label) {
    exists v :: Labelled(l, v) in xs
  }

  lemma JoinLinesAppend(a: seq<Section>, b: seq<Section>, f: Section -> string)
    requires |a| > 0 && |b| > 0
    ensures JoinLines(a + b, f) == JoinLines(a, f) + "\n" + JoinLines(b, f)
  {
    var ra := seq(|a|, i requires 0 <= i < |a| => f(a[i]));
    var rb := seq(|b|, i requires 0 <= i < |b| => f(b[i]));
    assert seq(|a + b|, i requires 0 <= i < |a + b| => f((a + b)[i])) == ra + rb;
    JoinAppend(ra, rb, "\n");
  }

  /** The joined text opens with the first section. */
  lemma JoinLinesOpening(xs: seq<Section>, f: Section -> string)
    requires |xs| > 0
    ensures StartsWith(JoinLines(xs, f), f(xs[0]))
  {
    JoinStartsWith(seq(|xs|, i requires 0 <= i < |xs| => f(xs[i])), "\n");
  }

  lemma JoinLinesFrame(a: seq<Section>, b: seq<Section>, f: Section -> string)
    requires |a| > 0 && |b| > 0
    ensures StartsWith(JoinLines(a + b, f), f(a[0]))
    ensures EndsWith(JoinLines(a + b, f), "\n" + JoinLines(b, f))
  {
    JoinLinesAppend(a, b, f);
    var ra := seq(|a|, i requires 0 <= i < |a| => f(a[i]));
    JoinStartsWith(ra, "\n");
    StartsWithConcat(JoinLines(a, f), "\n" + JoinLines(b, f), f(a[0]));
    ConcatParts(JoinLines(a, f), "\n" + JoinLines(b, f));
  }

  /** Every section's text occurs in the joined text. */
  lemma JoinLinesContains(xs: seq<Section>, k: nat, f: Section -> string)
    requires k < |xs|
    ensures Contains(JoinLines(xs, f), f(xs[k]))
  {
    var rs := seq(|xs|, i requires 0 <= i < |xs| => f(xs[i]));
    JoinContainsElement(rs, "\n", k);
  }

  /** The brand prompt opens with the fixed preamble. */
  lemma BrandPromptOpening(ctx: BrandContext)
    ensures StartsWith(BuildBrandSystemPrompt(ctx), FixedString(CorePrompt))
  {
    var xs := BrandSections(ctx);
    assert xs[0] == Fixed(CorePrompt);
    JoinLinesOpening(xs, Render);
  }

  /** The brand prompt always names the brand. */
  lemma BrandPromptNamesBrand(ctx: BrandContext)
    ensures Contains(BuildBrandSystemPrompt(ctx), "Brand: " + ctx.name)
  {
    assert BrandSections(ctx)[2] == Labelled(BrandName, ctx.name);
    JoinLinesContains(BrandSections(ctx), 2, Render);
  }

  /** The brand prompt's last five sections are the visual standards, whatever else it holds. */
  lemma BrandSectionsClosing(ctx: BrandContext)
    ensures BrandSections(ctx)[|BrandSections(ctx)| - 5..] == VisualStandards
  {
    assert BrandSections(ctx) == ([Fixed(CorePrompt)] + (IdentitySections(ctx) + OptionalBlocks(ctx))) + VisualStandards;
  }

  /** The brand prompt ends with the rendered visual standards. */
  lemma BrandPromptClosing(ctx: BrandContext)
    ensures EndsWith(BuildBrandSystemPrompt(ctx), "\n" + RenderAll(VisualStandards))
  {
    var front := [Fixed(CorePrompt)] + (IdentitySections(ctx) + OptionalBlocks(ctx));
    assert BrandSections(ctx) == front + VisualStandards;
    JoinLinesFrame(front, VisualStandards, Render);
  }

  /** Where a section of the brand prompt can come from. */
  lemma InBrandSections(ctx: BrandContext, s: Section)
    ensures s in BrandSections(ctx) <==>
      (s == Fixed(CorePrompt) || s in IdentitySections(ctx) || s in VoiceSections(ctx)
       || s in LogoSections(ctx) || s in PaletteSections(ctx) || s in VisualStandards)
  {
    assert BrandSections(ctx) == [Fixed(CorePrompt)] + (IdentitySections(ctx) + OptionalBlocks(ctx) + VisualStandards);
  }

  /** Labelled lines of the brand prompt outside the identity block carry only the voice or colour labels. */
  lemma BrandLabelOrigin(ctx: BrandContext, l: Label, v: string)
    requires Labelled(l, v) in BrandSections(ctx)
    requires l != Qualities && l != BrandColors
    ensures Labelled(l, v) in IdentitySections(ctx)
  {
    var s := Labelled(l, v);
    InBrandSections(ctx, s);
    assert s !in VoiceSections(ctx) && s !in PaletteSections(ctx);
    assert s !in LogoSections(ctx);
    assert s !in VisualStandards;
  }

  /** The industry line appears exactly when the industry is set and non-empty, carrying its value. */
  lemma BrandPromptIndustryLine(ctx: BrandContext)
    ensures HasLabel(BrandSections(ctx), Industry) <==> Given(ctx.industry)
    ensures Given(ctx.industry) ==> Labelled(Industry, ctx.industry.value) in BrandSections(ctx)
  {
    if Given(ctx.industry) {
      InBrandSections(ctx, Labelled(Industry, ctx.industry.value));
    }
    if HasLabel(BrandSections(ctx), Industry) {
      var v :| Labelled(Industry, v) in BrandSections(ctx);
      BrandLabelOrigin(ctx, Industry, v);
    }
  }

  /** The description line appears exactly when the description is set and non-empty, carrying its value. */
  lemma BrandPromptDescriptionLine(ctx: BrandContext)
    ensures HasLabel(BrandSections(ctx), BrandDescription) <==> Given(ctx.description)
    ensures Given(ctx.description) ==> Labelled(BrandDescription, ctx.description.value) in BrandSections(ctx)
  {
    if Given(ctx.description) {
      InBrandSections(ctx, Labelled(BrandDescription, ctx.description.value));
    }
    if HasLabel(BrandSections(ctx), BrandDescription) {
      var v :| Labelled(BrandDescription, v) in BrandSections(ctx);
      BrandLabelOrigin(ctx, BrandDescription, v);
    }
  }

  /**
   * The voice block appears exactly when the brand voice list is
   * non-empty, listing its items separated by ", ".
   */
  lemma BrandPromptVoiceBlock(ctx: BrandContext)
    ensures Fixed(VoiceHeader) in BrandSections(ctx) <==> NonEmptyList(ctx.brandVoice)
    ensures NonEmptyList(ctx.brandVoice) ==> Labelled(Qualities, Join(ctx.brandVoice.value, ", ")) in BrandSections(ctx)
  {
    InBrandSections(ctx, Fixed(VoiceHeader));
    if NonEmptyList(ctx.brandVoice) {
      InBrandSections(ctx, Labelled(Qualities, Join(ctx.brandVoice.value, ", ")));
    }
  }

  /** The logo block appears exactly when a logo policy is set, and carries that policy's text. */
  lemma BrandPromptLogoBlock(ctx: BrandContext)
    ensures Fixed(LogoHeader) in BrandSections(ctx) <==> Given(ctx.logoPolicy)
    ensures Given(ctx.logoPolicy) ==> Fixed(GetLogoPolicyInstructions(ctx.logoPolicy.value)) in BrandSections(ctx)
  {
    InBrandSections(ctx, Fixed(LogoHeader));
    if Given(ctx.logoPolicy) {
      InBrandSections(ctx, Fixed(GetLogoPolicyInstructions(ctx.logoPolicy.value)));
    }
  }

  /**
   * The colour block appears exactly when the palette is non-empty,
   * listing its colours separated by ", ".
   */
  lemma BrandPromptPaletteBlock(ctx: BrandContext)
    ensures Fixed(PaletteHeader) in BrandSections(ctx) <==> NonEmptyList(ctx.colorPalette)
    ensures NonEmptyList(ctx.colorPalette) ==> Labelled(BrandColors, Join(ctx.colorPalette.value, ", ")) in BrandSections(ctx)
  {
    InBrandSections(ctx, Fixed(PaletteHeader));
    if NonEmptyList(ctx.colorPalette) {
      InBrandSections(ctx, Labelled(BrandColors, Join(ctx.colorPalette.value, ", ")));
    }
  }

  const AtmosphereGuidelines: seq<Section> :=
    [Fixed(AtmosphereHeader), Fixed(Atmosphere1), Fixed(Atmosphere2), Fixed(Atmosphere3), Fixed(Atmosphere4)]

  /** The `sections` array of `buildProductContextPrompt`, in push order. */
  function ProductSections(ctx: ProductContext): seq<Section> {
    [Fixed(ProductHeader), Labelled(ProductName, ctx.name), Fixed(ProductNote)]
    + (if Given(ctx.description) then [Labelled(ProductContextLine, ctx.description.value), Fixed(ContextNote)] else [])
    + (if NonEmptyList(ctx.tags) then [Labelled(Characteristics, Join(ctx.tags.value, ", ")), Fixed(CharacteristicsNote)] else [])
    + AtmosphereGuidelines
  }

  /** `buildProductContextPrompt`. */
  function BuildProductContextPrompt(ctx: ProductContext): string {
    RenderAll(ProductSections(ctx))
  }

  /**
   * The product prompt always names the product, has the context and
   * characteristics lines exactly when a description or tags are given,
   * and ends with the atmosphere guidelines.
   */
  lemma ProductPromptShape(ctx: ProductContext)
    ensures ProductSections(ctx)[1] == Labelled(ProductName, ctx.name)
    ensures Contains(BuildProductContextPrompt(ctx), "Product Name: " + ctx.name)
    ensures HasLabel(ProductSections(ctx), ProductContextLine) <==> Given(ctx.description)
    ensures Given(ctx.description) ==> Labelled(ProductContextLine, ctx.description.value) in ProductSections(ctx)
    ensures HasLabel(ProductSections(ctx), Characteristics) <==> NonEmptyList(ctx.tags)
    ensures NonEmptyList(ctx.tags) ==> Labelled(Characteristics, Join(ctx.tags.value, ", ")) in ProductSections(ctx)
    ensures EndsWith(BuildProductContextPrompt(ctx), "\n" + RenderAll(AtmosphereGuidelines))
  {
    var xs := ProductSections(ctx);
    JoinLinesContains(xs, 1, Render);
    var d: seq<Section> := if Given(ctx.description) then [Labelled(ProductContextLine, ctx.description.value), Fixed(ContextNote)] else [];
    var t: seq<Section> := if NonEmptyList(ctx.tags) then [Labelled(Characteristics, Join(ctx.tags.value, ", ")), Fixed(CharacteristicsNote)] else [];
    var front := [Fixed(ProductHeader), Labelled(ProductName, ctx.name), Fixed(ProductNote)] + d + t;
    assert xs == front + AtmosphereGuidelines;
    JoinLinesFrame(front, AtmosphereGuidelines, Render);
    if Given(ctx.description) {
      assert xs[3] == Labelled(ProductContextLine, ctx.description.value);
    }
    if NonEmptyList(ctx.tags) {
      assert xs[3 + |d|] == Labelled(Characteristics, Join(ctx.tags.value, ", "));
    }
  }

  /** `buildComprehensiveSystemPrompt`. */
  function BuildComprehensiveSystemPrompt(brand: BrandContext, product: Option<ProductContext>): string {
    var brandPrompt := BuildBrandSystemPrompt(brand);
    match product
    case Some(p) => brandPrompt + BuildProductContextPrompt(p)
    case None => brandPrompt
  }

  /**
   * Without a product the comprehensive prompt is the brand prompt; with
   * one, the brand prompt is followed directly (no separator) by the
   * product prompt.
   */
  lemma ComprehensivePromptParts(brand: BrandContext, product: Option<ProductContext>)
    ensures StartsWith(BuildComprehensiveSystemPrompt(brand, product), BuildBrandSystemPrompt(brand))
    ensures product.None? ==> BuildComprehensiveSystemPrompt(brand, product) == BuildBrandSystemPrompt(brand)
    ensures product.Some? ==>
      BuildComprehensiveSystemPrompt(brand, product)[|BuildBrandSystemPrompt(brand)|..]
      == BuildProductContextPrompt(product.value)
  {
    if product.Some? {
      ConcatParts(BuildBrandSystemPrompt(brand), BuildProductContextPrompt(product.value));
    }
  }
}
