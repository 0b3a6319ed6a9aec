/** The weather-code to icon table of public/script.js (`weatherCodeToIcon`). */
module Icons {

  /** The six icons the table can produce. */
  datatype Icon = Sunny | PartlyCloudy | Foggy | Rainy | Snowy | Overcast

  /** The one code tested for clear sky. */
  const SunnyCode: int := 113

  const PartlyCloudyCodes: seq<int> := [116, 119, 122]

  const FogCodes: seq<int> := [143, 248, 260]

  const RainCodes: seq<int> := [
    176, 200, 263, 266, 281, 284, 293, 296, 299, 302, 305, 308, 311, 314,
    353, 356, 359, 386, 389
  ]

  const SnowCodes: seq<int> := [
    179, 227, 230, 317, 320, 323, 326, 329, 332, 335, 338, 350, 368, 371,
    374, 377, 392, 395
  ]

  /** A code that one of the five tests recognises. */
  predicate KnownCode(code: int) {
    code == SunnyCode || code in PartlyCloudyCodes || code in FogCodes
    || code in RainCodes || code in SnowCodes
  }

  /** The table: the tests run in order, and a code that no test recognises
      falls through to the overcast icon. Because the five code groups are
      disjoint, each icon is produced for exactly the codes of its own group. */
  function CodeToIcon(code: int): (r: Icon)
    ensures r == Sunny <==> code == SunnyCode
    ensures r == PartlyCloudy <==> code in PartlyCloudyCodes
    ensures r == Foggy <==> code in FogCodes
    ensures r == Rainy <==> code in RainCodes
    ensures r == Snowy <==> code in SnowCodes
    ensures r == Overcast <==> !KnownCode(code)
  {
    if code == SunnyCode then Sunny
    else if code in PartlyCloudyCodes then PartlyCloudy
    else if code in FogCodes then Foggy
    else if code in RainCodes then Rainy
    else if code in SnowCodes then Snowy
    else Overcast
  }

  /** The emoji the page shows for each icon (with the variation selector
      U+FE0F where the script's literal carries one). */
  function Glyph(icon: Icon): string {
    match icon
    case Sunny => "\U{2600}\U{FE0F}"
    case PartlyCloudy => "\U{26C5}"
    case Foggy => "\U{1F32B}\U{FE0F}"
    case Rainy => "\U{1F327}\U{FE0F}"
    case Snowy => "\U{2744}\U{FE0F}"
    case Overcast => "\U{1F325}\U{FE0F}"
  }

  /** No code belongs to two groups. */
  lemma CodeGroupsDisjoint(code: int)
    ensures code in PartlyCloudyCodes ==> code != SunnyCode
    ensures code in FogCodes ==> code != SunnyCode && code !in PartlyCloudyCodes
    ensures code in RainCodes ==> code != SunnyCode && code !in PartlyCloudyCodes && code !in FogCodes
    ensures code in SnowCodes ==> code != SunnyCode && code !in PartlyCloudyCodes && code !in FogCodes && code !in RainCodes
  {
    var _ := CodeToIcon(code);
  }

  /** Distinct icons are shown as distinct glyphs. */
  lemma GlyphInjective(a: Icon, b: Icon)
    requires Glyph(a) == Glyph(b)
    ensures a == b
  {
    assert Glyph(a)[0] == Glyph(b)[0];
  }

  /** 113 is clear sky; the code an hour without a code is read as (0) is in no group. */
  lemma DefaultCodes()
    ensures CodeToIcon(113) == Sunny
    ensures CodeToIcon(0) == Overcast
  {
  }
}
