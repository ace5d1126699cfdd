/**
 * The colour helpers: a colour picked from a level's eight-step spectrum by
 * conformity, and the radius of an orbit by activity.
 */
module ColorGradients {

  /** The number of steps of every spectrum. */
  const SpectrumLength := 8

  /**
   * `colors[level] || colors[0]`: the level is a property key, so only the numbers
   * 0..3 select their own spectrum; every other number falls back to level 0.
   */
  function Spectrum(level: real): (spectrum: seq<string>)
    ensures |spectrum| == SpectrumLength
  {
    if level == 1.0 then ["#8B4513", "#D2691E", "#CD853F", "#F4A460", "#DEB887", "#D2B48C", "#BC8F8F", "#F5DEB3"]
    else if level == 2.0 then ["#006400", "#228B22", "#32CD32", "#90EE90", "#98FB98", "#8FBC8F", "#9ACD32", "#ADFF2F"]
    else if level == 3.0 then ["#00008B", "#0000CD", "#1E90FF", "#87CEEB", "#87CEFA", "#B0C4DE", "#B0E0E6", "#ADD8E6"]
    else ["#8B0000", "#DC143C", "#FF6347", "#FF7F50", "#FFA07A", "#FFB6C1", "#FFDAB9", "#FFE4E1"]
  }

  /** A level outside 0..3 (negative, too large or fractional) reads the level-0 spectrum. */
  lemma OtherLevelsUseFirstSpectrum(level: real)
    requires level !in {0.0, 1.0, 2.0, 3.0}
    ensures Spectrum(level) == Spectrum(0.0)
  {
  }

  /**
   * `Math.max(0, Math.min(len - 1, Math.floor(conformity * (len - 1))))`: the floor of
   * the scaled conformity, clamped into the spectrum.
   */
  function ColorIndex(conformity: real): (i: int)
    ensures 0 <= i < SpectrumLength
    ensures i == 0 || i as real <= conformity * 7.0
    ensures i == SpectrumLength - 1 || conformity * 7.0 < (i + 1) as real
  {
    var index := (conformity * (SpectrumLength - 1) as real).Floor;
    if index < 0 then 0 else if index > SpectrumLength - 1 then SpectrumLength - 1 else index
  }

  /** A higher conformity never selects an earlier step. */
  lemma ColorIndexMonotone(c1: real, c2: real)
    requires c1 <= c2
    ensures ColorIndex(c1) <= ColorIndex(c2)
  {
    assert c1 * 7.0 <= c2 * 7.0;
  }

  /**
   * `getSpiritualColor`: always a colour of the level's spectrum; no conformity gives
   * the first colour and full conformity the last.
   */
  function GetSpiritualColor(conformity: real, level: real): (color: string)
    ensures color in Spectrum(level)
    ensures conformity <= 0.0 ==> color == Spectrum(level)[0]
    ensures conformity >= 1.0 ==> color == Spectrum(level)[SpectrumLength - 1]
  {
    Spectrum(level)[ColorIndex(conformity)]
  }

  /** Conformities in the same seventh of the scale share a colour. */
  lemma SameStepSameColor(c1: real, c2: real, level: real, k: int)
    requires 0 <= k < SpectrumLength - 1
    requires k as real <= c1 * 7.0 < (k + 1) as real && k as real <= c2 * 7.0 < (k + 1) as real
    ensures GetSpiritualColor(c1, level) == GetSpiritualColor(c2, level) == Spectrum(level)[k]
  {
    assert ColorIndex(c1) == k;
    assert ColorIndex(c2) == k;
  }

  /** `calculateOrbitRadius`: 0.1 plus 19.9 per unit of activity; the base radius is never read. */
  function CalculateOrbitRadius(baseRadius: real, activity: real): (radius: real)
    ensures 0.0 <= activity <= 1.0 ==> 0.1 <= radius <= 20.0
  {
    0.1 + activity * 19.9
  }

  /** The radius does not depend on the base radius and grows linearly with activity. */
  lemma OrbitRadiusLinear(b1: real, b2: real, a1: real, a2: real)
    ensures CalculateOrbitRadius(b1, a1) == CalculateOrbitRadius(b2, a1)
    ensures CalculateOrbitRadius(b1, a1) - CalculateOrbitRadius(b1, a2) == 19.9 * (a1 - a2)
  {
  }
}
