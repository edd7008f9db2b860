/** How the JavaScript template literals of the shape classes turn numbers and
    coordinate arrays into text. */
module JsText {

  /** JavaScript's number-to-string conversion, as used by `${x}` in a template
      literal. It is left uninterpreted: no property of the model depends on how a
      number is spelled. */
  const NumStr: real -> string

  /** `${v[i]}`: the entry's text, or "undefined" when the array is too short. */
  function Coord(v: seq<real>, i: nat): string {
    if i < |v| then NumStr(v[i]) else "undefined"
  }

  /** `vec2f(${v[0]}, ${v[1]})`: only the first two entries of `v` are read. */
  function Vec2fText(v: seq<real>): string {
    "vec2f(" + Coord(v, 0) + ", " + Coord(v, 1) + ")"
  }

  /** Entries past the second never reach the text. */
  lemma Vec2fIgnoresExtra(v: seq<real>, extra: seq<real>)
    requires |v| >= 2
    ensures Vec2fText(v + extra) == Vec2fText(v)
  {
    assert (v + extra)[0] == v[0] && (v + extra)[1] == v[1];
  }
}
