/** The materials estimator of the calculator section: a roof size and a
    season become counts of tins, activator bottles and matting rolls. The
    arithmetic is exact (`real`), an idealisation of the page's doubles. */
module Estimator {
  import opened Text
  import opened Numbers

  const TinKg: real := 15.0
  const ActivatorPerTinSummer: nat := 1
  const ActivatorPerTinWinter: nat := 2
  const RollLongM2: real := 180.0
  const RollShortM2: real := 25.0
  const KgPerM2: real := 2.0
  const MattingFactor: real := 1.05

  datatype Season = Summer | Winter
  datatype Mode = AreaMode | DimsMode

  /** The calculator's input state. `roofUnit` is kept as the string the unit
      selector holds. */
  datatype Inputs = Inputs(
    mode: Mode,
    roofUnit: string,
    roofAreaInput: string,
    lengthInput: string,
    widthInput: string,
    season: Season)

  /** The state the section starts in. */
  const DefaultInputs := Inputs(AreaMode, "m2", "40", "8", "5", Summer)

  /** `Math.ceil`: the least integer not below `x`. */
  function Ceil(x: real): (r: int)
    ensures x <= r as real < x + 1.0
  {
    -((-x).Floor)
  }

  /** `String(v).replace(",", ".")`: only the first comma becomes a dot. */
  function ReplaceFirstComma(s: string): (r: string)
    ensures |r| == |s|
    ensures var i := IndexOf(s, ',');
      && (forall j :: 0 <= j < |s| && j != i ==> r[j] == s[j])
      && (i < |s| ==> r[i] == '.')
  {
    if s == [] then []
    else if s[0] == ',' then ['.'] + s[1..]
    else [s[0]] + ReplaceFirstComma(s[1..])
  }

  /** `safeNum`: the parsed value when it is finite and positive, else 0. */
  function SafeNum(parse: Parser, v: string): (r: real)
    ensures r >= 0.0
    ensures r > 0.0 <==> parse(ReplaceFirstComma(v)).Some? && parse(ReplaceFirstComma(v)).value > 0.0
    ensures r > 0.0 ==> r == parse(ReplaceFirstComma(v)).value
  {
    var n := parse(ReplaceFirstComma(v));
    if n.Some? && n.value > 0.0 then n.value else 0.0
  }

  /** `areaM2`: length times width in dims mode, the area field otherwise. */
  function AreaM2(parse: Parser, inp: Inputs): (r: real)
    ensures r >= 0.0
  {
    if inp.mode == DimsMode then
      var l := SafeNum(parse, inp.lengthInput);
      var w := SafeNum(parse, inp.widthInput);
      l * w
    else
      var a := SafeNum(parse, inp.roofAreaInput);
      if inp.roofUnit == "m2" then a else a
  }

  /** `approxKgNeeded`. */
  function ApproxKg(area: real): (kg: real)
    ensures kg >= 0.0
    ensures kg > 0.0 <==> area > 0.0
    ensures area > 0.0 ==> kg == KgPerM2 * area
  {
    var kg := area * KgPerM2;
    if kg > 0.0 then kg else 0.0
  }

  /** `tinsNeeded`: 0 without material, else at least one tin. */
  function Tins(kg: real): (n: int)
    ensures kg == 0.0 ==> n == 0
    ensures kg > 0.0 ==> n >= 1 && TinKg * n as real >= kg && (n == 1 || TinKg * (n - 1) as real < kg)
  {
    if kg == 0.0 then 0 else Max(1, Ceil(kg / TinKg))
  }

  /** `activatorBottles`. */
  function Bottles(tins: int, season: Season): (b: int)
    ensures season == Summer ==> b == tins
    ensures season == Winter ==> b == 2 * tins
  {
    if tins == 0 then 0
    else tins * (if season == Winter then ActivatorPerTinWinter else ActivatorPerTinSummer)
  }

  /** `approxMattingM2`. */
  function MattingM2(area: real): (m: real)
    ensures m == MattingFactor * area
    ensures area >= 0.0 ==> m >= area
  {
    if area == 0.0 then 0.0 else area * MattingFactor
  }

  datatype Rolls = Rolls(long: int, short: int)

  /** `mattingRolls`: as many long rolls as fit, then short rolls for what
      remains. */
  function MattingRolls(matting: real): (r: Rolls)
    ensures matting == 0.0 ==> r == Rolls(0, 0)
    ensures matting > 0.0 ==>
      && r.long >= 0 && r.short >= 0
      && RollLongM2 * r.long as real <= matting < RollLongM2 * (r.long + 1) as real
      && RollLongM2 * r.long as real + RollShortM2 * r.short as real >= matting
      && RollLongM2 * r.long as real + RollShortM2 * (r.short - 1) as real < matting
  {
    if matting == 0.0 then Rolls(0, 0)
    else
      var long := (matting / RollLongM2).Floor;
      var remaining := matting - long as real * RollLongM2;
      var short := Ceil(remaining / RollShortM2);
      Rolls(long, Max(0, short))
  }

  /** Every derived quantity of the section, and `hasInput`. */
  datatype Estimate = Estimate(
    area: real,
    kg: real,
    tins: int,
    bottles: int,
    matting: real,
    rolls: Rolls,
    hasInput: bool)

  function Compute(parse: Parser, inp: Inputs): (e: Estimate)
    ensures e.area == AreaM2(parse, inp)
  {
    var area := AreaM2(parse, inp);
    var kg := ApproxKg(area);
    var tins := Tins(kg);
    var matting := MattingM2(area);
    Estimate(area, kg, tins, Bottles(tins, inp.season), matting, MattingRolls(matting), area > 0.0)
  }

  // ---------- Properties of the estimate ----------

  /** In dims mode the area is the product of the two sizes, and it is 0 as
      soon as either size is unusable. */
  lemma DimsArea(parse: Parser, inp: Inputs)
    requires inp.mode == DimsMode
    ensures AreaM2(parse, inp) == SafeNum(parse, inp.lengthInput) * SafeNum(parse, inp.widthInput)
    ensures AreaM2(parse, inp) == 0.0 <==>
      SafeNum(parse, inp.lengthInput) == 0.0 || SafeNum(parse, inp.widthInput) == 0.0
  {
    var l, w := SafeNum(parse, inp.lengthInput), SafeNum(parse, inp.widthInput);
    if l > 0.0 && w > 0.0 {
      assert l * w > 0.0;
    }
  }

  /** In area mode the area is the parsed area field, whatever the unit. */
  lemma AreaModeIgnoresUnit(parse: Parser, inp: Inputs, unit: string)
    requires inp.mode == AreaMode
    ensures AreaM2(parse, inp) == AreaM2(parse, inp.(roofUnit := unit)) == SafeNum(parse, inp.roofAreaInput)
  {
  }

  /** No area: every count is 0 and there is no input to show. */
  lemma ZeroAreaZeroEstimate(parse: Parser, inp: Inputs)
    requires AreaM2(parse, inp) == 0.0
    ensures var e := Compute(parse, inp);
      e.kg == 0.0 && e.tins == 0 && e.bottles == 0 && e.matting == 0.0
      && e.rolls == Rolls(0, 0) && !e.hasInput
  {
  }

  /** For a positive area the tin count is the least number of 15 kg tins that
      hold the 2 kg per square metre the roof needs, and at least one. */
  lemma TinsLeastCover(area: real)
    requires area > 0.0
    ensures var t := Tins(ApproxKg(area));
      t >= 1 && TinKg * t as real >= KgPerM2 * area && TinKg * (t - 1) as real < KgPerM2 * area
  {
    var kg := ApproxKg(area);
    assert kg == area * 2.0;
    var c := Ceil(kg / 15.0);
    assert kg / 15.0 <= c as real < kg / 15.0 + 1.0;
    assert c >= 1;
    assert Tins(kg) == c;
  }

  /** Winter doubles the activator: for the same roof, winter bottles are twice
      the summer bottles, and summer bottles equal the tins. */
  lemma WinterDoublesActivator(parse: Parser, inp: Inputs)
    ensures var s := Compute(parse, inp.(season := Summer));
      var w := Compute(parse, inp.(season := Winter));
      s.bottles == s.tins && w.tins == s.tins && w.bottles == 2 * s.bottles
  {
    var a := AreaM2(parse, inp);
    assert AreaM2(parse, inp.(season := Summer)) == a;
    assert AreaM2(parse, inp.(season := Winter)) == a;
    var t := Tins(ApproxKg(a));
    assert Bottles(t, Summer) == t;
    assert Bottles(t, Winter) == 2 * t;
  }

  /** Roll packing for any area: the long-roll count is the floor of the
      matting area over 180, the short rolls are the least count that covers
      the remainder (which lies in [0, 180)), there are at most 8 of them,
      and together the rolls never under-cover the matting area. */
  lemma RollsCover(area: real)
    requires area >= 0.0
    ensures var m := MattingM2(area);
      var r := MattingRolls(m);
      var rem := m - r.long as real * RollLongM2;
      && m == area * MattingFactor
      && r.long == (m / RollLongM2).Floor && r.long >= 0
      && 0.0 <= rem < RollLongM2
      && RollShortM2 * r.short as real >= rem
      && RollShortM2 * (r.short - 1) as real < rem
      && 0 <= r.short <= 8
      && RollLongM2 * r.long as real + RollShortM2 * r.short as real >= m
  {
    var m := MattingM2(area);
    if m != 0.0 {
      var q := m / 180.0;
      var long := q.Floor;
      assert long as real <= q < long as real + 1.0;
      assert m == q * 180.0;
      var rem := m - long as real * 180.0;
      assert 0.0 <= rem < 180.0;
      var c := Ceil(rem / 25.0);
      assert rem / 25.0 <= c as real < rem / 25.0 + 1.0;
      assert c >= 0;
      assert c <= 8;
    }
  }

  /** Whenever there is input the rolls add up to at least one, so the "one
      1m × 25m roll" fallback of the display is never needed. */
  lemma RollTotalPositive(parse: Parser, inp: Inputs)
    ensures var e := Compute(parse, inp);
      e.hasInput ==> e.rolls.long + e.rolls.short >= 1
  {
    var e := Compute(parse, inp);
    if e.hasInput {
      RollsCover(e.area);
      assert e.matting > 0.0;
    }
  }

  // ---------- Displayed text ----------

  datatype RollPart = LongRolls(count: int) | ShortRolls(count: int)

  /** `mattingRecommendationLine`: `None` is "Recommended: —"; otherwise the
      parts joined with " + ". */
  function RecommendationParts(e: Estimate): (r: Option<seq<RollPart>>)
    ensures r.None? <==> !e.hasInput
    ensures r.Some? ==> r.value != [] && forall p :: p in r.value ==> p.count > 0
    ensures r.Some? ==> (LongRolls(e.rolls.long) in r.value <==> e.rolls.long > 0)
    ensures r.Some? ==> (ShortRolls(e.rolls.short) in r.value <==> e.rolls.short > 0)
    ensures r.Some? && e.rolls.long <= 0 && e.rolls.short <= 0 ==> r.value == [ShortRolls(1)]
    ensures r.Some? && (e.rolls.long > 0 || e.rolls.short > 0) ==>
      forall p :: p in r.value ==> p == LongRolls(e.rolls.long) || p == ShortRolls(e.rolls.short)
    ensures r.Some? ==> |r.value| <= 2 && (|r.value| == 2 ==> r.value[0].LongRolls? && r.value[1].ShortRolls?)
  {
    if !e.hasInput then None
    else
      var parts := (if e.rolls.long > 0 then [LongRolls(e.rolls.long)] else [])
                 + (if e.rolls.short > 0 then [ShortRolls(e.rolls.short)] else []);
      Some(if parts == [] then [ShortRolls(1)] else parts)
  }

  /** The roll total shown beside the tins and bottles: the count, and whether
      the word is plural. */
  function RollTotalText(r: Rolls): (t: (int, bool))
    ensures t.0 > 0
  {
    var total := r.long + r.short;
    (if total > 0 then total else 1, total != 1)
  }

  /** With input, the displayed roll count is the actual total, and "Roll" is
      singular exactly when that total is one. */
  lemma DisplayedRollsExact(parse: Parser, inp: Inputs)
    ensures var e := Compute(parse, inp);
      e.hasInput ==>
        RollTotalText(e.rolls) == (e.rolls.long + e.rolls.short, e.rolls.long + e.rolls.short != 1)
  {
    RollTotalPositive(parse, inp);
  }

  // ---------- The section's defaults ----------

  lemma ReplaceFirstCommaNoComma(s: string)
    requires ',' !in s
    ensures ReplaceFirstComma(s) == s
  {
    var r := ReplaceFirstComma(s);
    assert IndexOf(s, ',') == |s|;
    assert forall j :: 0 <= j < |s| ==> r[j] == s[j];
  }

  /** The default area "40" m² in summer: 6 tins, 6 bottles, no long roll and
      2 short rolls; in winter 12 bottles. */
  lemma DefaultAreaEstimate(parse: Parser)
    requires parse("40") == Some(40.0)
    ensures var e := Compute(parse, DefaultInputs);
      e.area == 40.0 && e.tins == 6 && e.bottles == 6 && e.rolls == Rolls(0, 2)
    ensures Compute(parse, DefaultInputs.(season := Winter)).bottles == 12
  {
    ReplaceFirstCommaNoComma("40");
    DefaultEstimateFor40(parse, DefaultInputs);
    DefaultEstimateFor40(parse, DefaultInputs.(season := Winter));
  }

  /** The default dimensions 8 m × 5 m give the same 40 m² estimate. */
  lemma DefaultDimsEstimate(parse: Parser, season: Season)
    requires parse("8") == Some(8.0) && parse("5") == Some(5.0)
    ensures var e := Compute(parse, DefaultInputs.(mode := DimsMode, season := season));
      e.area == 40.0 && e.tins == 6 && e.rolls == Rolls(0, 2)
      && e.bottles == (if season == Winter then 12 else 6)
  {
    ReplaceFirstCommaNoComma("8");
    ReplaceFirstCommaNoComma("5");
    DefaultEstimateFor40(parse, DefaultInputs.(mode := DimsMode, season := season));
  }

  lemma DefaultEstimateFor40(parse: Parser, inp: Inputs)
    requires AreaM2(parse, inp) == 40.0
    ensures var e := Compute(parse, inp);
      e.tins == 6 && e.rolls == Rolls(0, 2) && e.bottles == (if inp.season == Winter then 12 else 6)
  {
    assert ApproxKg(40.0) == 80.0;
    assert Ceil(80.0 / 15.0) == 6;
    assert MattingM2(40.0) == 42.0;
    assert (42.0 / 180.0).Floor == 0;
    assert Ceil(42.0 / 25.0) == 2;
  }
}
