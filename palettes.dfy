/** The aura's static colour table and the colour draw of `Particle.getColor`. */
module Palettes {

  /** Condition tag -> candidate colours, as the table inside `getColor` writes them. */
  const Colors: map<string, seq<string>> := map[
    "default"      := ["#ffffff", "#888888"],
    "Clear"        := ["#FFD700", "#FFA500", "#00BFFF"],
    "Clouds"       := ["#B0C4DE", "#778899", "#F0F8FF"],
    "Rain"         := ["#00008B", "#4B0082", "#00BFFF"],
    "Snow"         := ["#FFFFFF", "#F0FFFF", "#E0FFFF"],
    "Thunderstorm" := ["#4B0082", "#800080", "#FFD700"],
    "Drizzle"      := ["#ADD8E6", "#87CEEB"],
    "Mist"         := ["#D3D3D3", "#C0C0C0"]
  ]

  /** A random draw in [0, 1), the range of `Math.random()`. */
  predicate IsDraw(r: real) {
    0.0 <= r < 1.0
  }

  /** The palette for a mode: the table's entry, or the `default` entry for a tag the table lacks. */
  function Palette(mode: string): (p: seq<string>)
    ensures 2 <= |p| <= 3
    ensures mode !in Colors ==> p == ["#ffffff", "#888888"]
  {
    if mode in Colors then Colors[mode] else Colors["default"]
  }

  /** `floor(r * n)` is a valid index into a sequence of length `n` for every draw `r`. */
  lemma FloorIndexInRange(r: real, n: nat)
    requires IsDraw(r) && 0 < n
    ensures 0 <= (r * n as real).Floor < n
  {
  }

  /** `getColor`: the palette entry at index `floor(r * length)`. */
  function ColorFor(mode: string, r: real): (c: string)
    requires IsDraw(r)
    ensures c in Palette(mode)
    ensures mode !in Colors ==> c in Colors["default"]
  {
    var p := Palette(mode);
    FloorIndexInRange(r, |p|);
    p[(r * |p| as real).Floor]
  }

  /** Every colour of the active palette can be drawn: index `i` is hit by the draw `i / length`. */
  lemma EveryColorReachable(mode: string, i: nat)
    requires i < |Palette(mode)|
    ensures IsDraw(i as real / |Palette(mode)| as real)
    ensures ColorFor(mode, i as real / |Palette(mode)| as real) == Palette(mode)[i]
  {
  }

  /** A tag outside the table draws exactly what `default` draws. */
  lemma UnknownModeIsDefault(mode: string, r: real)
    requires IsDraw(r) && mode !in Colors
    ensures ColorFor(mode, r) == ColorFor("default", r)
  {
  }

  /** Drawing twice for the same tag can give different colours: recolouring is not a no-op. */
  lemma RecolorCanChangeColor()
    ensures ColorFor("Rain", 0.0) != ColorFor("Rain", 0.5)
  {
  }
}
