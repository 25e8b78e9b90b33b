/**
 * Choosing a brand palette from an uploaded logo: the image library hands
 * back up to six dominant colours, the most dominant one is always kept,
 * up to two more are picked greedily among those not similar to a colour
 * already picked, and fixed grey tones fill any slot left over.  The
 * similarity test works on floating-point hue, saturation and lightness,
 * so it is a parameter here.
 */
module ColorExtraction {

  import opened Wrappers
  import opened Strings

  /** A colour component as the image library returns it. */
  type Channel = x: int | 0 <= x < 256

  datatype Rgb = Rgb(r: Channel, g: Channel, b: Channel)

  function Components(c: Rgb): seq<Channel> {
    [c.r, c.g, c.b]
  }

  predicate IsLowerHexDigit(c: char) {
    IsDigit(c) || 'a' <= c <= 'f'
  }

  function HexDigitChar(d: nat): (c: char)
    requires d < 16
    ensures IsLowerHexDigit(c) && DigitValue(c) == d
  {
    if d < 10 then ('0' as int + d) as char else ('a' as int + d - 10) as char
  }

  /** `n.toString(16)`: lower-case hexadecimal, no leading zeros. */
  function ToHex(n: nat): string {
    if n < 16 then [HexDigitChar(n)] else ToHex(n / 16) + [HexDigitChar(n % 16)]
  }

  /** The value of a string of hexadecimal digits, most significant first. */
  function HexValue(s: string): nat
    requires forall i :: 0 <= i < |s| ==> IsLowerHexDigit(s[i])
  {
    if |s| == 0 then 0
    else
      assert IsLowerHexDigit(s[|s| - 1]);
      HexValue(s[..|s| - 1]) * 16 + DigitValue(s[|s| - 1])
  }

  /** `toString(16)` gives lower-case digits, with no leading zero, that read back as the number. */
  lemma {:induction false} ToHexDigits(n: nat)
    ensures |ToHex(n)| > 0 && forall i :: 0 <= i < |ToHex(n)| ==> IsLowerHexDigit(ToHex(n)[i])
    ensures |ToHex(n)| > 1 ==> ToHex(n)[0] != '0'
    ensures HexValue(ToHex(n)) == n
  {
    if n >= 16 {
      ToHexDigits(n / 16);
      var r := ToHex(n);
      assert r[..|r| - 1] == ToHex(n / 16);
    }
  }

  /** `s.padStart(width, fill)`. */
  function PadStart(s: string, width: nat, fill: char): string {
    if |s| >= width then s else seq(width - |s|, _ => fill) + s
  }

  /** Padding keeps a long enough string and otherwise fills on the left up to the width. */
  lemma PadStartSpec(s: string, width: nat, fill: char)
    ensures |s| >= width ==> PadStart(s, width, fill) == s
    ensures |s| < width ==>
      (|PadStart(s, width, fill)| == width && PadStart(s, width, fill)[width - |s|..] == s
       && forall i :: 0 <= i < width - |s| ==> PadStart(s, width, fill)[i] == fill)
  {
  }

  /** One component as two hexadecimal digits. */
  function ChannelHex(x: Channel): string {
    PadStart(ToHex(x), 2, '0')
  }

  /** `rgb.map(…).join('')`: each component's two digits, in order. */
  function ChannelsHex(rgb: seq<Channel>): string {
    if |rgb| == 0 then "" else ChannelsHex(rgb[..|rgb| - 1]) + ChannelHex(rgb[|rgb| - 1])
  }

  /** `rgbToHex`: `#` followed by each component's two digits. */
  function RgbToHex(rgb: seq<Channel>): string {
    "#" + ChannelsHex(rgb)
  }

  /** Reads two hexadecimal digits as a number; -1 for anything else. */
  function ReadHexByte(s: string): int {
    if |s| == 2 && IsHexDigit(s[0]) && IsHexDigit(s[1]) then DigitValue(s[0]) * 16 + DigitValue(s[1]) else -1
  }

  /** Every component below 256 gives exactly two digits that read back as the component. */
  lemma ChannelHexValue(x: Channel)
    ensures |ChannelHex(x)| == 2
    ensures IsLowerHexDigit(ChannelHex(x)[0]) && IsLowerHexDigit(ChannelHex(x)[1])
    ensures ReadHexByte(ChannelHex(x)) == x
  {
    if x < 16 {
      assert seq(1, _ => '0') == ['0'];
      assert ChannelHex(x) == ['0', HexDigitChar(x)];
    } else {
      assert ToHex(x / 16) == [HexDigitChar(x / 16)];
      assert ChannelHex(x) == [HexDigitChar(x / 16), HexDigitChar(x % 16)];
    }
  }

  /**
   * For three components in 0..255 the hex form is `#` and six lower-case
   * digits, two per component, each pair reading back as its component.
   */
  lemma RgbToHexShape(c: Rgb)
    ensures |RgbToHex(Components(c))| == 7 && RgbToHex(Components(c))[0] == '#'
    ensures forall i :: 1 <= i < 7 ==> IsLowerHexDigit(RgbToHex(Components(c))[i])
    ensures ReadHexByte(RgbToHex(Components(c))[1..3]) == c.r
    ensures ReadHexByte(RgbToHex(Components(c))[3..5]) == c.g
    ensures ReadHexByte(RgbToHex(Components(c))[5..7]) == c.b
  {
    ChannelHexValue(c.r);
    ChannelHexValue(c.g);
    ChannelHexValue(c.b);
    var rgb := Components(c);
    assert rgb[..2][..1] == [c.r] && rgb[..2] == [c.r, c.g] && rgb[..1] == [c.r];
    assert ChannelsHex([c.r]) == ChannelHex(c.r);
    assert ChannelsHex(rgb[..2]) == ChannelHex(c.r) + ChannelHex(c.g);
    assert ChannelsHex(rgb) == ChannelHex(c.r) + ChannelHex(c.g) + ChannelHex(c.b);
    var h := RgbToHex(Components(c));
    assert h == "#" + ChannelHex(c.r) + ChannelHex(c.g) + ChannelHex(c.b);
    assert h[1..3] == ChannelHex(c.r);
    assert h[3..5] == ChannelHex(c.g);
    assert h[5..7] == ChannelHex(c.b);
  }

  /** The colours returned when there is no usable palette. */
  const FallbackColors: seq<string> := ["#3B82F6", "#8B5CF6", "#EC4899"]

  /** `candidate` is similar to one of the colours picked so far (the picks are palette positions). */
  predicate SimilarToPicked(palette: seq<Rgb>, similar: (Rgb, Rgb) -> bool, candidate: Rgb, picked: seq<nat>)
    requires forall k :: 0 <= k < |picked| ==> picked[k] < |palette|
  {
    exists k :: 0 <= k < |picked| && similar(candidate, palette[picked[k]])
  }

  predicate Increasing(xs: seq<nat>) {
    forall a, b :: 0 <= a < b < |xs| ==> xs[a] < xs[b]
  }

  /**
   * The greedy choice from position `i` on, given the positions `picked`
   * so far: stop at the end of the palette or with three picks; otherwise
   * pick the candidate when it is not similar to any pick.
   */
  function PickFrom(palette: seq<Rgb>, similar: (Rgb, Rgb) -> bool, i: nat, picked: seq<nat>): (r: seq<nat>)
    requires 1 <= |picked| <= 3
    requires forall k :: 0 <= k < |picked| ==> picked[k] < |palette|
    ensures |picked| <= |r| <= 3 && r[..|picked|] == picked
    ensures forall k :: 0 <= k < |r| ==> r[k] < |palette|
    decreases |palette| - i
  {
    if i >= |palette| || |picked| >= 3 then picked
    else if SimilarToPicked(palette, similar, palette[i], picked) then PickFrom(palette, similar, i + 1, picked)
    else PickFrom(palette, similar, i + 1, picked + [i])
  }

  /** The picks made from position `i` on come after `i` and keep palette order. */
  lemma {:induction false} PickFromOrder(palette: seq<Rgb>, similar: (Rgb, Rgb) -> bool, i: nat, picked: seq<nat>)
    requires 1 <= |picked| <= 3 && Increasing(picked)
    requires forall k :: 0 <= k < |picked| ==> picked[k] < i && picked[k] < |palette|
    ensures Increasing(PickFrom(palette, similar, i, picked))
    ensures forall k :: |picked| <= k < |PickFrom(palette, similar, i, picked)| ==> i <= PickFrom(palette, similar, i, picked)[k]
    decreases |palette| - i
  {
    if i >= |palette| || |picked| >= 3 {
    } else if SimilarToPicked(palette, similar, palette[i], picked) {
      PickFromOrder(palette, similar, i + 1, picked);
    } else {
      var next := picked + [i];
      assert Increasing(next);
      PickFromOrder(palette, similar, i + 1, next);
    }
  }

  /** No pick made from position `i` on is similar to any pick before it. */
  lemma {:induction false} PickFromDiverse(palette: seq<Rgb>, similar: (Rgb, Rgb) -> bool, i: nat, picked: seq<nat>)
    requires 1 <= |picked| <= 3
    requires forall k :: 0 <= k < |picked| ==> picked[k] < |palette|
    ensures forall a, b :: 0 <= a < b < |PickFrom(palette, similar, i, picked)| && |picked| <= b ==>
      !similar(palette[PickFrom(palette, similar, i, picked)[b]], palette[PickFrom(palette, similar, i, picked)[a]])
    decreases |palette| - i
  {
    if i >= |palette| || |picked| >= 3 {
    } else if SimilarToPicked(palette, similar, palette[i], picked) {
      PickFromDiverse(palette, similar, i + 1, picked);
    } else {
      var next := picked + [i];
      PickFromDiverse(palette, similar, i + 1, next);
      var r := PickFrom(palette, similar, i, picked);
      assert r == PickFrom(palette, similar, i + 1, next);
      assert r[..|next|] == next;
      forall a, b | 0 <= a < b < |r| && |picked| <= b
        ensures !similar(palette[r[b]], palette[r[a]])
      {
        if b == |picked| {
          assert r[b] == i && r[a] == picked[a];
        }
      }
    }
  }

  /** A candidate unlike every pick, met while fewer than three are picked, is picked. */
  lemma PickFromTakes(palette: seq<Rgb>, similar: (Rgb, Rgb) -> bool, i: nat, picked: seq<nat>)
    requires 1 <= |picked| <= 3
    requires forall k :: 0 <= k < |picked| ==> picked[k] < |palette|
    ensures i < |palette| && |picked| < 3 && !SimilarToPicked(palette, similar, palette[i], picked) ==>
      PickFrom(palette, similar, i, picked)[|picked|] == i
  {
    if i < |palette| && |picked| < 3 && !SimilarToPicked(palette, similar, palette[i], picked) {
      var next := picked + [i];
      assert PickFrom(palette, similar, i, picked)[..|next|] == next;
    }
  }

  /** The palette positions kept: the dominant colour, then the greedy picks. */
  function Picks(palette: seq<Rgb>, similar: (Rgb, Rgb) -> bool): seq<nat>
    requires |palette| > 0
  {
    PickFrom(palette, similar, 1, [0])
  }

  /** The `while` that tops the list up to three colours. */
  function FillUp(colors: seq<string>): (r: seq<string>)
    requires 1 <= |colors| <= 3
    decreases 3 - |colors|
  {
    if |colors| >= 3 then colors
    else if |colors| == 1 then FillUp(colors + ["#DDDDDD"])
    else FillUp(colors + ["#333333"])
  }

  /** The hex form of each picked colour, in pick order. */
  function HexOfPicks(palette: seq<Rgb>, picks: seq<nat>): (r: seq<string>)
    requires forall k :: 0 <= k < |picks| ==> picks[k] < |palette|
    ensures |r| == |picks|
  {
    if |picks| == 0 then []
    else HexOfPicks(palette, picks[..|picks| - 1]) + [RgbToHex(Components(palette[picks[|picks| - 1]]))]
  }

  lemma {:induction false} HexOfPicksAt(palette: seq<Rgb>, picks: seq<nat>, k: nat)
    requires forall j :: 0 <= j < |picks| ==> picks[j] < |palette|
    requires k < |picks|
    ensures HexOfPicks(palette, picks)[k] == RgbToHex(Components(palette[picks[k]]))
  {
    if k < |picks| - 1 {
      HexOfPicksAt(palette, picks[..|picks| - 1], k);
    }
  }

  /**
   * `extractColorsFromImage`, given what `getPalette` produced (`None`
   * for a missing palette or a thrown error).
   */
  function ExtractedColors(palette: Option<seq<Rgb>>, similar: (Rgb, Rgb) -> bool): seq<string> {
    if palette.Some? && |palette.value| >= 3 then
      FillUp(HexOfPicks(palette.value, Picks(palette.value, similar)))
    else FallbackColors
  }

  /** The inner `for … of` with `break`: is `candidate` unlike every selected colour? */
  method NotSimilarToAny(candidate: Rgb, selectedColors: seq<Rgb>, similar: (Rgb, Rgb) -> bool) returns (isDifferent: bool)
    ensures isDifferent <==> forall k :: 0 <= k < |selectedColors| ==> !similar(candidate, selectedColors[k])
  {
    isDifferent := true;
    var j := 0;
    while j < |selectedColors|
      invariant 0 <= j <= |selectedColors|
      invariant forall k :: 0 <= k < j ==> !similar(candidate, selectedColors[k])
    {
      if similar(candidate, selectedColors[j]) {
        isDifferent := false;
        break;
      }
      j := j + 1;
    }
  }

  /** The colours kept so far stand for the picked positions when testing similarity. */
  lemma SimilarToSelected(p: seq<Rgb>, similar: (Rgb, Rgb) -> bool, candidate: Rgb, picked: seq<nat>, selectedColors: seq<Rgb>)
    requires forall k :: 0 <= k < |picked| ==> picked[k] < |p|
    requires |selectedColors| == |picked| && forall k :: 0 <= k < |picked| ==> selectedColors[k] == p[picked[k]]
    ensures SimilarToPicked(p, similar, candidate, picked) <==>
      exists k :: 0 <= k < |selectedColors| && similar(candidate, selectedColors[k])
  {
    if SimilarToPicked(p, similar, candidate, picked) {
      var k :| 0 <= k < |picked| && similar(candidate, p[picked[k]]);
      assert similar(candidate, selectedColors[k]);
    }
  }

  /** The choice ends at the end of the palette or with three picks. */
  lemma PickFromStops(palette: seq<Rgb>, similar: (Rgb, Rgb) -> bool, i: nat, picked: seq<nat>)
    requires 1 <= |picked| <= 3
    requires forall k :: 0 <= k < |picked| ==> picked[k] < |palette|
    requires i >= |palette| || |picked| == 3
    ensures PickFrom(palette, similar, i, picked) == picked
  {
  }

  /** One step of the greedy choice. */
  lemma PickStep(palette: seq<Rgb>, similar: (Rgb, Rgb) -> bool, i: nat, picked: seq<nat>)
    requires 1 <= |picked| < 3 && i < |palette|
    requires forall k :: 0 <= k < |picked| ==> picked[k] < i
    ensures !SimilarToPicked(palette, similar, palette[i], picked) ==>
      PickFrom(palette, similar, i, picked) == PickFrom(palette, similar, i + 1, picked + [i])
    ensures SimilarToPicked(palette, similar, palette[i], picked) ==>
      PickFrom(palette, similar, i, picked) == PickFrom(palette, similar, i + 1, picked)
  {
  }

  lemma HexOfPicksSnoc(palette: seq<Rgb>, picks: seq<nat>, i: nat)
    requires forall k :: 0 <= k < |picks| ==> picks[k] < |palette|
    requires i < |palette|
    ensures HexOfPicks(palette, picks + [i]) == HexOfPicks(palette, picks) + [RgbToHex(Components(palette[i]))]
  {
    assert (picks + [i])[..|picks|] == picks;
  }

  /**
   * The state of the `for` loop after position `i`: the positions picked so
   * far, the colours kept for them and their hex forms, and the choice
   * still to come from `i` on.
   */
  ghost predicate SelectionState(p: seq<Rgb>, similar: (Rgb, Rgb) -> bool, i: nat, picked: seq<nat>,
                                 selectedColors: seq<Rgb>, colors: seq<string>, target: seq<nat>)
  {
    1 <= i <= |p| && 1 <= |picked| <= 3
    && (forall k :: 0 <= k < |picked| ==> picked[k] < i)
    && |selectedColors| == |picked| && (forall k :: 0 <= k < |picked| ==> selectedColors[k] == p[picked[k]])
    && colors == HexOfPicks(p, picked)
    && PickFrom(p, similar, i, picked) == target
  }

  /** One turn of the loop keeps the state, taking candidate `i` exactly when it is unlike every kept colour. */
  lemma SelectionStep(p: seq<Rgb>, similar: (Rgb, Rgb) -> bool, i: nat, picked: seq<nat>,
                      selectedColors: seq<Rgb>, colors: seq<string>, target: seq<nat>, isDifferent: bool)
    requires SelectionState(p, similar, i, picked, selectedColors, colors, target)
    requires i < |p| && |selectedColors| < 3
    requires isDifferent <==> forall k :: 0 <= k < |selectedColors| ==> !similar(p[i], selectedColors[k])
    ensures isDifferent ==> SelectionState(p, similar, i + 1, picked + [i], selectedColors + [p[i]],
                                           colors + [RgbToHex(Components(p[i]))], target)
    ensures !isDifferent ==> SelectionState(p, similar, i + 1, picked, selectedColors, colors, target)
  {
    SimilarToSelected(p, similar, p[i], picked, selectedColors);
    PickStep(p, similar, i, picked);
    if isDifferent {
      HexOfPicksSnoc(p, picked, i);
    }
  }

  /** The `for` loop of `extractColorsFromImage`: the dominant colour, then the greedy picks, as hex. */
  method SelectColors(p: seq<Rgb>, similar: (Rgb, Rgb) -> bool) returns (colors: seq<string>)
    requires |p| > 0
    ensures colors == HexOfPicks(p, Picks(p, similar))
  {
    colors := [RgbToHex(Components(p[0]))];
    var selectedColors := [p[0]];
    ghost var picked: seq<nat> := [0];
    ghost var target := Picks(p, similar);
    assert HexOfPicks(p, picked) == colors;
    var i := 1;
    while i < |p| && |selectedColors| < 3
      invariant SelectionState(p, similar, i, picked, selectedColors, colors, target)
      decreases |p| - i
    {
      var candidate := p[i];
      var isDifferent := NotSimilarToAny(candidate, selectedColors, similar);
      SelectionStep(p, similar, i, picked, selectedColors, colors, target, isDifferent);
      if isDifferent {
        selectedColors := selectedColors + [candidate];
        colors := colors + [RgbToHex(Components(candidate))];
        picked := picked + [i];
      }
      i := i + 1;
    }
    PickFromStops(p, similar, i, picked);
  }

  /** `extractColorsFromImage`: the picks, topped up to three colours, or the fallback. */
  method ExtractColorsFromImage(palette: Option<seq<Rgb>>, similar: (Rgb, Rgb) -> bool) returns (colors: seq<string>)
    ensures colors == ExtractedColors(palette, similar)
  {
    if palette.None? || |palette.value| < 3 {
      return FallbackColors;
    }
    colors := SelectColors(palette.value, similar);
    while |colors| < 3
      invariant 1 <= |colors| <= 3
      invariant FillUp(colors) == ExtractedColors(palette, similar)
      decreases 3 - |colors|
    {
      if |colors| == 1 {
        colors := colors + ["#DDDDDD"];
      } else {
        colors := colors + ["#333333"];
      }
    }
  }

  lemma {:induction false} FillUpShape(colors: seq<string>)
    requires 1 <= |colors| <= 3
    ensures |FillUp(colors)| == 3 && FillUp(colors)[..|colors|] == colors
    ensures |colors| == 1 ==> FillUp(colors)[1..] == ["#DDDDDD", "#333333"]
    ensures |colors| == 2 ==> FillUp(colors)[2..] == ["#333333"]
    decreases 3 - |colors|
  {
    if |colors| == 1 {
      FillUpShape(colors + ["#DDDDDD"]);
    } else if |colors| == 2 {
      FillUpShape(colors + ["#333333"]);
    }
  }

  /**
   * With a palette of three or more colours: exactly three results, the
   * first the dominant colour, then the picks in palette order, topped up
   * with `#DDDDDD` then `#333333`.
   */
  lemma ExtractedColorsShape(palette: seq<Rgb>, similar: (Rgb, Rgb) -> bool)
    requires |palette| >= 3
    ensures |ExtractedColors(Some(palette), similar)| == 3
    ensures ExtractedColors(Some(palette), similar)[0] == RgbToHex(Components(palette[0]))
    ensures Picks(palette, similar)[0] == 0
    ensures forall k :: 0 <= k < |Picks(palette, similar)| ==>
      ExtractedColors(Some(palette), similar)[k] == RgbToHex(Components(palette[Picks(palette, similar)[k]]))
    ensures |Picks(palette, similar)| == 1 ==> ExtractedColors(Some(palette), similar)[1..] == ["#DDDDDD", "#333333"]
    ensures |Picks(palette, similar)| == 2 ==> ExtractedColors(Some(palette), similar)[2..] == ["#333333"]
  {
    var picks := Picks(palette, similar);
    FillUpShape(HexOfPicks(palette, picks));
    forall k | 0 <= k < |picks|
      ensures ExtractedColors(Some(palette), similar)[k] == RgbToHex(Components(palette[picks[k]]))
    {
      HexOfPicksAt(palette, picks, k);
    }
  }

  /** A missing palette, an error, or fewer than three colours give the fixed fallback. */
  lemma ExtractedColorsFallback(palette: Option<seq<Rgb>>, similar: (Rgb, Rgb) -> bool)
    requires palette.None? || |palette.value| < 3
    ensures ExtractedColors(palette, similar) == ["#3B82F6", "#8B5CF6", "#EC4899"]
  {
  }

  /**
   * The picks keep palette order and no pick is similar to one made before
   * it; when similarity is symmetric, no two picks are similar at all.
   */
  lemma PicksDiverse(palette: seq<Rgb>, similar: (Rgb, Rgb) -> bool)
    requires |palette| > 0
    ensures Increasing(Picks(palette, similar))
    ensures forall a, b :: 0 <= a < b < |Picks(palette, similar)| ==>
      !similar(palette[Picks(palette, similar)[b]], palette[Picks(palette, similar)[a]])
    ensures (forall x, y :: similar(x, y) == similar(y, x)) ==>
      forall a, b :: 0 <= a < |Picks(palette, similar)| && 0 <= b < |Picks(palette, similar)| && a != b ==>
        !similar(palette[Picks(palette, similar)[a]], palette[Picks(palette, similar)[b]])
  {
    PickFromOrder(palette, similar, 1, [0]);
    PickFromDiverse(palette, similar, 1, [0]);
    var r := Picks(palette, similar);
    if forall x, y :: similar(x, y) == similar(y, x) {
      forall a, b | 0 <= a < |r| && 0 <= b < |r| && a != b
        ensures !similar(palette[r[a]], palette[r[b]])
      {
        if a < b {
          assert !similar(palette[r[b]], palette[r[a]]);
        }
      }
    }
  }

  /**
   * The choice is greedy and complete: while fewer than three colours are
   * picked, every colour passed over is similar to a pick made before it.
   */
  lemma {:induction false} PickFromMaximal(palette: seq<Rgb>, similar: (Rgb, Rgb) -> bool, i: nat, picked: seq<nat>, j: nat)
    requires 1 <= |picked| <= 3
    requires forall k :: 0 <= k < |picked| ==> picked[k] < i && picked[k] < |palette|
    requires i <= j < |palette| && |PickFrom(palette, similar, i, picked)| < 3
    requires j !in PickFrom(palette, similar, i, picked)
    ensures exists k :: (0 <= k < |PickFrom(palette, similar, i, picked)|
      && PickFrom(palette, similar, i, picked)[k] < j
      && similar(palette[j], palette[PickFrom(palette, similar, i, picked)[k]]))
    decreases |palette| - i
  {
    PickFromTakes(palette, similar, i, picked);
    var r := PickFrom(palette, similar, i, picked);
    if SimilarToPicked(palette, similar, palette[i], picked) {
      if j == i {
        var k :| 0 <= k < |picked| && similar(palette[i], palette[picked[k]]);
        assert r[k] == picked[k];
      } else {
        PickFromMaximal(palette, similar, i + 1, picked, j);
      }
    } else if j == i {
      assert false;
    } else {
      PickFromMaximal(palette, similar, i + 1, picked + [i], j);
    }
  }
}
