/**
 * The organisation schemas: the creation form (name, industry,
 * description, brand voices and logo policy), the remote logo update
 * with its colour palette, and the lookup by id.
 */
module OrganizationSchemas {

  import opened Wrappers
  import opened Strings
  import opened JsonValues
  import opened SchemaFields
  import ColorExtraction

  datatype CreateInput = CreateInput(
    organizationName: string,
    industry: string,
    description: string,
    brandVoice: seq<string>,
    logoPolicy: string)

  /** `createOrganizationSchema`. */
  function CreateIssues(o: Props): seq<Issue> {
    BoundedIssues(o, "organizationName", None, 50, "Organization name is required", "Organization name must be at most 50 characters")
    + MinLengthIssues(o, "industry", None, 1, "Industry is required")
    + BoundedIssues(o, "description", None, 140, "Description is required", "Description must be at most 140 characters")
    + NonEmptyListIssues(o, "brandVoice", "Please select at least one brand voice")
    + MinLengthIssues(o, "logoPolicy", None, 1, "Logo policy is required")
  }

  function ParseCreate(o: Props): Result<CreateInput, seq<Issue>> {
    Validated(CreateIssues(o), CreateInput(
      Text(o, "organizationName"), Text(o, "industry"), Text(o, "description"),
      OrElse(StrArrayAt(o, "brandVoice"), []), Text(o, "logoPolicy")))
  }

  /** `s` matches `^#[0-9A-Fa-f]{6}$`. */
  predicate IsHexColor(s: string) {
    |s| == 7 && s[0] == '#' && forall i :: 1 <= i < 7 ==> IsHexDigit(s[i])
  }

  /** `array(pipe(string(), regex(…)))` over the items of `colorPalette`: one issue per bad item. */
  function PaletteIssues(items: seq<Json>): seq<Issue> {
    if |items| == 0 then []
    else
      PaletteIssues(items[..|items| - 1])
      + match items[|items| - 1]
        case JStr(s) => Expect(IsHexColor(s), "colorPalette", Some("Invalid hex color format"))
        case _ => [Issue("colorPalette", None)]
  }

  datatype LogoUpdate = LogoUpdate(organizationId: string, logoFile: string, colorPalette: seq<string>)

  /** `updateOrganizationLogoRemoteSchema`. */
  function LogoIssues(o: Props): seq<Issue> {
    Expect(StrAt(o, "organizationId").Some?, "organizationId", None)
    + Expect(StrAt(o, "logoFile").Some?, "logoFile", None)
    + match Lookup<Json>(o, "colorPalette")
      case Some(JArr(items)) => PaletteIssues(items)
      case _ => [Issue("colorPalette", None)]
  }

  function ParseLogo(o: Props): Result<LogoUpdate, seq<Issue>> {
    Validated(LogoIssues(o), LogoUpdate(
      Text(o, "organizationId"), Text(o, "logoFile"), OrElse(StrArrayAt(o, "colorPalette"), [])))
  }

  /** `fetchOrganizationByIdSchema`. */
  function ParseFetchById(o: Props): Result<string, seq<Issue>> {
    Validated(Expect(StrAt(o, "organizationId").Some?, "organizationId", None), Text(o, "organizationId"))
  }

  /**
   * Creating an organisation needs a name of 1 to 50 characters, an
   * industry, a description of 1 to 140 characters, at least one brand
   * voice and a logo policy; the parsed value carries the input's values.
   */
  lemma CreateAccepts(o: Props)
    ensures ParseCreate(o).Ok? <==>
      StrAt(o, "organizationName").Some? && 1 <= |StrAt(o, "organizationName").value| <= 50
      && StrAt(o, "industry").Some? && StrAt(o, "industry").value != ""
      && StrAt(o, "description").Some? && 1 <= |StrAt(o, "description").value| <= 140
      && StrArrayAt(o, "brandVoice").Some? && |StrArrayAt(o, "brandVoice").value| >= 1
      && StrAt(o, "logoPolicy").Some? && StrAt(o, "logoPolicy").value != ""
    ensures ParseCreate(o).Ok? ==>
      ParseCreate(o) == Ok(CreateInput(StrAt(o, "organizationName").value, StrAt(o, "industry").value,
        StrAt(o, "description").value, StrArrayAt(o, "brandVoice").value, StrAt(o, "logoPolicy").value))
  {
  }

  /** The palette's items raise no issue exactly when every item is a hex colour string. */
  lemma {:induction false} PaletteIssuesNone(items: seq<Json>)
    ensures PaletteIssues(items) == [] <==> forall i :: 0 <= i < |items| ==> items[i].JStr? && IsHexColor(items[i].s)
  {
    if |items| > 0 {
      var init := items[..|items| - 1];
      PaletteIssuesNone(init);
      assert forall i :: 0 <= i < |init| ==> init[i] == items[i];
    }
  }

  /** A palette item the schema accepts: a hex colour string. */
  predicate HexItem(v: Json) {
    v.JStr? && IsHexColor(v.s)
  }

  /** The positions of the items that are not hex colour strings. */
  function BadItems(items: seq<Json>): set<int> {
    set i | 0 <= i < |items| && !HexItem(items[i])
  }

  lemma BadItemsStep(items: seq<Json>)
    requires |items| > 0
    ensures |BadItems(items)| == |BadItems(items[..|items| - 1])| + if HexItem(items[|items| - 1]) then 0 else 1
  {
    var n := |items| - 1;
    var init := items[..n];
    assert forall i :: 0 <= i < n ==> init[i] == items[i];
    if HexItem(items[n]) {
      assert BadItems(items) == BadItems(init);
    } else {
      assert BadItems(items) == BadItems(init) + {n};
    }
  }

  /** One issue per item that is not a hex colour string. */
  lemma {:induction false} PaletteIssuesCount(items: seq<Json>)
    ensures |PaletteIssues(items)| == |BadItems(items)|
  {
    if |items| > 0 {
      var n := |items| - 1;
      PaletteIssuesCount(items[..n]);
      BadItemsStep(items);
      assert |PaletteIssues(items)| == |PaletteIssues(items[..n])| + if HexItem(items[n]) then 0 else 1;
    } else {
      assert BadItems(items) == {};
    }
  }

  /**
   * The logo update needs the organisation id, the file and a palette
   * whose every entry matches `^#[0-9A-Fa-f]{6}$`; an empty palette is
   * accepted.
   */
  lemma LogoAccepts(o: Props)
    ensures ParseLogo(o).Ok? <==>
      StrAt(o, "organizationId").Some? && StrAt(o, "logoFile").Some?
      && StrArrayAt(o, "colorPalette").Some?
      && forall i :: 0 <= i < |StrArrayAt(o, "colorPalette").value| ==> IsHexColor(StrArrayAt(o, "colorPalette").value[i])
    ensures StrAt(o, "organizationId").Some? && StrAt(o, "logoFile").Some? && StrArrayAt(o, "colorPalette") == Some([]) ==>
      ParseLogo(o).Ok?
    ensures ParseLogo(o).Ok? ==> ParseLogo(o).value.colorPalette == StrArrayAt(o, "colorPalette").value
  {
    match Lookup<Json>(o, "colorPalette")
    case Some(JArr(items)) =>
      PaletteIssuesNone(items);
      if AllStrings(items) {
        var xs := StringsOf(items);
        assert forall i :: 0 <= i < |items| ==> items[i].s == xs[i];
      } else {
        var i :| 0 <= i < |items| && !items[i].JStr?;
      }
    case _ =>
  }

  /** The lookup by id needs only the organisation id. */
  lemma FetchByIdAccepts(o: Props)
    ensures ParseFetchById(o).Ok? <==> StrAt(o, "organizationId").Some?
    ensures ParseFetchById(o).Ok? ==> ParseFetchById(o).value == StrAt(o, "organizationId").value
  {
  }

  lemma HexColorOfRgb(c: ColorExtraction.Rgb)
    ensures IsHexColor(ColorExtraction.RgbToHex(ColorExtraction.Components(c)))
  {
    ColorExtraction.RgbToHexShape(c);
  }

  /**
   * Every colour the logo page extracts, fallbacks and fill-ins included,
   * is one the logo update schema accepts.
   */
  lemma ExtractedColorsAreHex(palette: Option<seq<ColorExtraction.Rgb>>, similar: (ColorExtraction.Rgb, ColorExtraction.Rgb) -> bool)
    ensures forall i :: 0 <= i < |ColorExtraction.ExtractedColors(palette, similar)| ==>
      IsHexColor(ColorExtraction.ExtractedColors(palette, similar)[i])
  {
    var colors := ColorExtraction.ExtractedColors(palette, similar);
    assert IsHexColor("#DDDDDD") && IsHexColor("#333333");
    if palette.Some? && |palette.value| >= 3 {
      var p := palette.value;
      var picks := ColorExtraction.Picks(p, similar);
      ColorExtraction.ExtractedColorsShape(p, similar);
      forall i | 0 <= i < |colors|
        ensures IsHexColor(colors[i])
      {
        if i < |picks| {
          HexColorOfRgb(p[picks[i]]);
        } else if |picks| == 1 {
          assert colors[i] == colors[1..][i - 1];
        } else {
          assert colors[i] == colors[2..][i - 2];
        }
      }
    } else {
      ColorExtraction.ExtractedColorsFallback(palette, similar);
      assert IsHexColor("#3B82F6") && IsHexColor("#8B5CF6") && IsHexColor("#EC4899");
    }
  }
}
