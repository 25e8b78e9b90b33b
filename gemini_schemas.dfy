/**
 * The schemas of the image generation and image editing remote
 * functions: the ids and the prompt, an aspect ratio among five (square
 * by default) for generation, and an optional list of mask rectangles
 * for editing.
 */
module GeminiSchemas {

  import opened Wrappers
  import opened JsonValues
  import opened SchemaFields

  /** `union([literal('1:1'), literal('9:16'), literal('16:9'), literal('3:4'), literal('4:3')])`. */
  predicate IsAspectRatio(s: string) {
    s == "1:1" || s == "9:16" || s == "16:9" || s == "3:4" || s == "4:3"
  }

  const DefaultAspectRatio := "1:1"

  /** `optional(union(…), '1:1')` accepts an absent property or one of the five ratios. */
  predicate AspectRatioOk(o: Props) {
    Absent(o, "aspectRatio") || (StrAt(o, "aspectRatio").Some? && IsAspectRatio(StrAt(o, "aspectRatio").value))
  }

  datatype GenerateInput = GenerateInput(
    organizationId: string,
    productId: string,
    prompt: string,
    aspectRatio: string,
    negativePrompt: Option<string>)

  /** `generateImageSchema`. */
  function ParseGenerate(o: Props): Result<GenerateInput, seq<Issue>> {
    Validated(
      Expect(StrAt(o, "organizationId").Some?, "organizationId", None)
      + Expect(StrAt(o, "productId").Some?, "productId", None)
      + Expect(StrAt(o, "prompt").Some?, "prompt", None)
      + Expect(AspectRatioOk(o), "aspectRatio", None)
      + Expect(OptStrOk(o, "negativePrompt"), "negativePrompt", None),
      GenerateInput(Text(o, "organizationId"), Text(o, "productId"), Text(o, "prompt"),
        OrElse(StrAt(o, "aspectRatio"), DefaultAspectRatio), StrAt(o, "negativePrompt")))
  }

  /** A mask rectangle; its coordinates are strings. */
  datatype Mask = Mask(x: string, y: string, width: string, height: string)

  /** `object({x, y, width, height: string()})`: an object whose four coordinates are strings. */
  predicate IsMask(v: Json) {
    v.JObj? && StrAt(v.members, "x").Some? && StrAt(v.members, "y").Some?
    && StrAt(v.members, "width").Some? && StrAt(v.members, "height").Some?
  }

  /** The rectangle an accepted item parses to; other properties of the item are dropped. */
  function MaskOf(v: Json): Mask
    requires IsMask(v)
  {
    Mask(StrAt(v.members, "x").value, StrAt(v.members, "y").value, StrAt(v.members, "width").value, StrAt(v.members, "height").value)
  }

  predicate AllMasks(items: seq<Json>) {
    forall i :: 0 <= i < |items| ==> IsMask(items[i])
  }

  /** `optional(array(object(…)))`: absent, or an array of rectangles. */
  function MasksAt(o: Props): Option<seq<Mask>> {
    match Lookup<Json>(o, "maskCoordinates")
    case Some(JArr(items)) =>
      if AllMasks(items) then Some(seq(|items|, i requires 0 <= i < |items| && AllMasks(items) => MaskOf(items[i]))) else None
    case _ => None
  }

  predicate MasksOk(o: Props) {
    Absent(o, "maskCoordinates") || MasksAt(o).Some?
  }

  datatype EditInput = EditInput(
    organizationId: string,
    productId: string,
    imageId: string,
    prompt: string,
    maskCoordinates: Option<seq<Mask>>,
    negativePrompt: Option<string>)

  /** `editImageSchema`. */
  function ParseEdit(o: Props): Result<EditInput, seq<Issue>> {
    Validated(
      Expect(StrAt(o, "organizationId").Some?, "organizationId", None)
      + Expect(StrAt(o, "productId").Some?, "productId", None)
      + Expect(StrAt(o, "imageId").Some?, "imageId", None)
      + Expect(StrAt(o, "prompt").Some?, "prompt", None)
      + Expect(MasksOk(o), "maskCoordinates", None)
      + Expect(OptStrOk(o, "negativePrompt"), "negativePrompt", None),
      EditInput(Text(o, "organizationId"), Text(o, "productId"), Text(o, "imageId"), Text(o, "prompt"),
        MasksAt(o), StrAt(o, "negativePrompt")))
  }

  /**
   * Generation needs the organisation id, the product id and the prompt;
   * the aspect ratio, when present, is one of the five, and the parsed
   * ratio is always one of them, `1:1` when absent.
   */
  lemma GenerateAccepts(o: Props)
    ensures ParseGenerate(o).Ok? <==>
      StrAt(o, "organizationId").Some? && StrAt(o, "productId").Some? && StrAt(o, "prompt").Some?
      && AspectRatioOk(o) && OptStrOk(o, "negativePrompt")
    ensures ParseGenerate(o).Ok? ==> IsAspectRatio(ParseGenerate(o).value.aspectRatio)
    ensures ParseGenerate(o).Ok? && Absent(o, "aspectRatio") ==> ParseGenerate(o).value.aspectRatio == "1:1"
    ensures ParseGenerate(o).Ok? && !Absent(o, "aspectRatio") ==> ParseGenerate(o).value.aspectRatio == StrAt(o, "aspectRatio").value
    ensures ParseGenerate(o).Ok? ==> ParseGenerate(o).value.negativePrompt == StrAt(o, "negativePrompt")
  {
  }

  /** A ratio outside the five, say `2:1`, is refused. */
  lemma OtherRatioRefused(o: Props)
    requires StrAt(o, "aspectRatio").Some? && !IsAspectRatio(StrAt(o, "aspectRatio").value)
    ensures ParseGenerate(o).Err? && Issue("aspectRatio", None) in ParseGenerate(o).error
  {
    var before := Expect(StrAt(o, "organizationId").Some?, "organizationId", None)
      + Expect(StrAt(o, "productId").Some?, "productId", None)
      + Expect(StrAt(o, "prompt").Some?, "prompt", None);
    var issues := before + [Issue("aspectRatio", None)] + Expect(OptStrOk(o, "negativePrompt"), "negativePrompt", None);
    assert issues[|before|] == Issue("aspectRatio", None);
  }

  /**
   * Editing additionally needs the image id; the mask, when present, is
   * an array of rectangles with four string coordinates, parsed item by
   * item in order.
   */
  lemma EditAccepts(o: Props)
    ensures ParseEdit(o).Ok? <==>
      StrAt(o, "organizationId").Some? && StrAt(o, "productId").Some? && StrAt(o, "imageId").Some?
      && StrAt(o, "prompt").Some? && MasksOk(o) && OptStrOk(o, "negativePrompt")
    ensures ParseEdit(o).Ok? && Absent(o, "maskCoordinates") ==> ParseEdit(o).value.maskCoordinates.None?
    ensures ParseEdit(o).Ok? && !Absent(o, "maskCoordinates") ==>
      Lookup(o, "maskCoordinates").value.JArr?
      && ParseEdit(o).value.maskCoordinates.Some?
      && |ParseEdit(o).value.maskCoordinates.value| == |Lookup(o, "maskCoordinates").value.items|
      && forall i :: 0 <= i < |ParseEdit(o).value.maskCoordinates.value| ==>
        IsMask(Lookup(o, "maskCoordinates").value.items[i])
        && ParseEdit(o).value.maskCoordinates.value[i] == MaskOf(Lookup(o, "maskCoordinates").value.items[i])
  {
  }

  /** Every input editing accepts carries what generation requires, except that its ratio is not read. */
  lemma EditNeedsMore(o: Props)
    requires ParseEdit(o).Ok? && AspectRatioOk(o)
    ensures ParseGenerate(o).Ok?
    ensures ParseGenerate(o).value.prompt == ParseEdit(o).value.prompt
    ensures ParseGenerate(o).value.negativePrompt == ParseEdit(o).value.negativePrompt
  {
    EditAccepts(o);
    GenerateAccepts(o);
  }
}
