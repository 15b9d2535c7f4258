/**
 * The layout decisions of `render_battery_icon` and `create_battery_icon`:
 * which colour fills the battery, where the body, nub and fill go, whether the
 * charging bolt is drawn and which text is overlaid. The result is a
 * description of the 24x24 picture, not its pixels.
 */
module Icon {
  import opened Wrappers
  import opened Decimal

  datatype Rgba = Rgba(r: nat, g: nat, b: nat, a: nat)

  /** The three fill colours, chosen by thresholds on the percentage. */
  datatype Tier = Good | Warning | Critical

  /** A rectangle given by two corners, as the drawing calls take it. */
  datatype Rect = Rect(x0: int, y0: int, x1: int, y1: int)

  /** Everything `render_battery_icon` decides before it draws. */
  datatype RenderSpec = RenderSpec(
    size: nat,
    tier: Tier,
    fill: Rgba,
    body: Rect,
    nub: Rect,
    inner: Rect,
    fillWidth: nat,
    fillRect: Rect,
    bolt: bool,
    text: string,
    outline: Rgba,
    textColour: Rgba,
    shadow: Rgba)

  const Size: int := 24
  const Pad: int := 2
  const InnerPad: int := 4
  const NubW: int := 4
  const Outline := Rgba(235, 235, 235, 255)
  const TextColour := Rgba(255, 255, 255, 255)
  const ShadowColour := Rgba(0, 0, 0, 160)

  const Body := Rect(Pad, Pad, Size - Pad * 2, Size - Pad * 2)
  const NubH: int := Size / 3
  const Nub := Rect(Body.x1 + 1, Body.y0 + ((Body.y1 - Body.y0) - NubH) / 2,
                    Body.x1 + 1 + NubW, Body.y0 + ((Body.y1 - Body.y0) - NubH) / 2 + NubH)
  const Inner := Rect(Body.x0 + InnerPad, Body.y0 + InnerPad, Body.x1 - InnerPad, Body.y1 - InnerPad)
  const InnerWidth: int := Inner.x1 - Inner.x0

  /** The fixed geometry: body [2,2,20,20], nub [21,7,25,15], inner [6,6,16,16]. */
  lemma Geometry()
    ensures Body == Rect(2, 2, 20, 20)
    ensures Nub == Rect(21, 7, 25, 15)
    ensures Inner == Rect(6, 6, 16, 16)
    ensures InnerWidth == 10
  {
  }

  /** The first rule that matches wins: above 50 good, from 25 warning, below that critical. */
  function ColourTier(percent: int): (t: Tier)
    ensures t == Good <==> percent > 50
    ensures t == Warning <==> 25 <= percent <= 50
    ensures t == Critical <==> percent < 25
  {
    if percent > 50 then Good
    else if percent >= 25 then Warning
    else Critical
  }

  /**
   * The fill colour of a tier; every fill is opaque. Green dominates the fill
   * of a good battery, red and green together (yellow) a warning one, and red
   * a critical one.
   */
  function TierColour(t: Tier): (c: Rgba)
    ensures c.a == 255
    ensures t == Good ==> c.g > c.r && c.g > c.b
    ensures t == Warning ==> c.r > c.b && c.g > c.b
    ensures t == Critical ==> c.r > c.g && c.r > c.b
  {
    match t
    case Good => Rgba(70, 190, 80, 255)
    case Warning => Rgba(240, 180, 50, 255)
    case Critical => Rgba(230, 80, 70, 255)
  }

  /** The three tiers are told apart by their colours. */
  lemma TierColourInjective(t: Tier, u: Tier)
    requires TierColour(t) == TierColour(u)
    ensures t == u
  {
  }

  /** Worse battery, worse colour: the tiers are ordered Critical < Warning < Good. */
  function TierRank(t: Tier): nat {
    match t
    case Critical => 0
    case Warning => 1
    case Good => 2
  }

  lemma ColourTierMonotone(p: int, q: int)
    requires p <= q
    ensures TierRank(ColourTier(p)) <= TierRank(ColourTier(q))
  {
  }

  /** `max(0, min(100, percent))`. */
  function Clamp(percent: int): (c: int)
    ensures 0 <= c <= 100
    ensures 0 <= percent <= 100 ==> c == percent
    ensures percent < 0 ==> c == 0
    ensures percent > 100 ==> c == 100
  {
    if percent < 0 then 0 else if percent > 100 then 100 else percent
  }

  /**
   * `max(0, int(inner_w * clamp(percent) / 100))`. The quotient of the source
   * is a float that is never negative, and `int` truncates it; for these
   * operands that is the integer quotient below, the whole part of the
   * share of the inner width the clamped percentage stands for.
   */
  function FillWidth(percent: int): (w: nat)
    ensures w * 100 <= InnerWidth * Clamp(percent) < (w + 1) * 100
  {
    var w := InnerWidth * Clamp(percent) / 100;
    if w > 0 then w else 0
  }

  lemma FillWidthBounds(percent: int)
    ensures 0 <= FillWidth(percent) <= InnerWidth
    ensures FillWidth(0) == 0 && FillWidth(100) == InnerWidth
    ensures FillWidth(percent) == FillWidth(Clamp(percent))
  {
  }

  lemma FillWidthMonotone(p: int, q: int)
    requires p <= q
    ensures FillWidth(p) <= FillWidth(q)
  {
  }

  /**
   * `render_battery_icon(percent, charging)`, up to the drawing calls. The
   * bolt goes on a battery that is charging and not yet full.
   */
  function RenderBatteryIcon(percent: int, charging: bool): (r: RenderSpec)
    ensures r.size == 24 && r.body == Body && r.inner == Inner && r.nub == Nub
    ensures r.outline == Outline && r.textColour == TextColour && r.shadow == ShadowColour
    ensures r.tier == ColourTier(percent) && r.fill == TierColour(r.tier)
    ensures r.fillWidth == FillWidth(percent) && r.fillWidth <= InnerWidth
    ensures r.fillRect.x0 == r.inner.x0 && r.fillRect.x1 == Inner.x0 + r.fillWidth <= r.inner.x1
    ensures r.fillRect.y0 == r.inner.y0 && r.fillRect.y1 == r.inner.y1
    ensures r.bolt <==> charging && percent < 100
    ensures r.text == ZeroPad2(percent) && |r.text| >= 2
    ensures percent >= 0 ==> IsNumeral(r.text) && DigitsValue(r.text) == percent
    ensures percent < 0 ==> r.text == IntToString(percent)
  {
    var tier := ColourTier(percent);
    var w := FillWidth(percent);
    FillWidthBounds(percent);
    RenderSpec(
      size := Size,
      tier := tier,
      fill := TierColour(tier),
      body := Body,
      nub := Nub,
      inner := Inner,
      fillWidth := w,
      fillRect := Rect(Inner.x0, Inner.y0, Inner.x0 + w, Inner.y1),
      bolt := charging && percent < 100,
      text := ZeroPad2(percent),
      outline := Outline,
      textColour := TextColour,
      shadow := ShadowColour)
  }

  /** The labels the icon shows at a few characteristic levels. */
  lemma LabelExamples()
    ensures RenderBatteryIcon(0, false).text == "00"
    ensures RenderBatteryIcon(5, false).text == "05"
    ensures RenderBatteryIcon(45, false).text == "45"
    ensures RenderBatteryIcon(100, false).text == "100"
  {
  }

  /** A full battery never shows the bolt, whatever the charging flag says. */
  lemma FullNeverBolts(percent: int, charging: bool)
    requires percent >= 100
    ensures !RenderBatteryIcon(percent, charging).bolt
  {
  }

  /**
   * `create_battery_icon`: an unknown level is drawn as 0 and an unknown
   * charging flag as not charging.
   */
  function CreateBatteryIcon(level: Option<int>, charging: Option<bool>): (r: RenderSpec)
    ensures r.size == 24 && r.body == Body && r.inner == Inner && r.nub == Nub
    ensures r.outline == Outline && r.textColour == TextColour && r.shadow == ShadowColour
    ensures r.fill == TierColour(r.tier)
    ensures r.fillRect == Rect(Inner.x0, Inner.y0, Inner.x0 + r.fillWidth, Inner.y1)
    ensures level.Some? ==> r.text == ZeroPad2(level.value)
    ensures level.Some? ==> r.tier == ColourTier(level.value) && r.fillWidth == FillWidth(level.value)
    ensures level.None? ==> r.text == "00" && r.tier == Critical && r.fillWidth == 0
    ensures r.bolt <==> charging == Some(true) && level.GetOr(0) < 100
  {
    RenderBatteryIcon(level.GetOr(0), charging.GetOr(false))
  }
}
