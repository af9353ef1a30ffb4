/** The fill colour of a map feature (`color_map`): a five-step ramp indexed by the
    integer part of the feature's score, white for anything else. */
module Colors {
  import opened Wrappers

  /** A cell of the `VALOR` column as pandas hands it to the style function: a number,
      or a missing value (NaN or None). */
  datatype Cell = Number(x: real) | Missing

  const White: string := "#ffffff"

  /** `colores`, from white (score 0) to dark red (score 4). */
  const Palette: seq<string> := [White, "#FFD0CB", "#FD8D89", "#FF4B4B", "#A40000"]

  /** Python `int(x)` on a float truncates toward zero. */
  function Truncate(x: real): (n: int)
    ensures x >= 0.0 ==> n as real <= x < n as real + 1.0
    ensures x < 0.0 ==> n as real - 1.0 < x <= n as real
  {
    if x >= 0.0 then x.Floor else -((-x).Floor)
  }

  /** Python `int(valor)`; `None` where it raises `ValueError` or `TypeError`. */
  function ToInt(c: Cell): (r: Option<int>)
    ensures r.Some? <==> c.Number?
    ensures r.Some? ==> -1.0 < c.x - r.value as real < 1.0
  {
    match c
    case Number(x) => Some(Truncate(x))
    case Missing => None
  }

  /** The colour of a cell: ramp entry `floor(x)` when 0 <= x < 5, white otherwise,
      white also when the conversion fails. */
  function ColorMap(c: Cell): (color: string)
    ensures color in Palette
    ensures c.Number? && 0.0 <= c.x < |Palette| as real ==> color == Palette[c.x.Floor]
    ensures !(c.Number? && 0.0 <= c.x < |Palette| as real) ==> color == White
  {
    match ToInt(c)
    case None => White
    case Some(k) => if 0 <= k < |Palette| then Palette[k] else White
  }

  /** The five ramp colours are distinct, so the colour of an in-range integer score
      identifies the score. */
  lemma ColorIdentifiesScore(a: int, b: int)
    requires 0 <= a < 5 && 0 <= b < 5
    requires ColorMap(Number(a as real)) == ColorMap(Number(b as real))
    ensures a == b
  {
    assert Palette[a] == ColorMap(Number(a as real));
    assert Palette[b] == ColorMap(Number(b as real));
  }
}
