/** Values shared by every variant of the tools: optional values, the cells a
    pandas row hands to the pricing code, match outcomes and betting sides. */
module Common {

  datatype Option<T> = None | Some(value: T)

  /** A numeric column read through `to_f(row.get(col, default))`: either the
      column is absent from the row (`row.get` yields the default), or it is
      present and `float()` accepted its text (Some) or rejected it (None). */
  datatype Field = Absent | Present(parsed: Option<real>)

  /** to_f(row.get(col, default)): the default for an absent column, the
      parsed number, or 0.0 when the text does not parse. */
  function ToF(f: Field, default: real): real
  {
    match f
    case Absent => default
    case Present(Some(x)) => x
    case Present(None) => 0.0
  }

  /** A league-standing cell as `row.get` returns it: no such column (None),
      an empty cell (NaN), a number, or a non-empty text together with what
      `float()` makes of it (None when it raises). */
  datatype Cell = Missing | Blank | Num(v: real) | Text(parsed: Option<real>)

  /** pd.isna: None and NaN. */
  predicate IsNa(c: Cell)
  {
    c.Missing? || c.Blank?
  }

  /** Python truthiness: None and 0 are false; NaN and non-empty text are true. */
  predicate Truthy(c: Cell)
  {
    match c
    case Missing => false
    case Blank => true
    case Num(v) => v != 0.0
    case Text(_) => true
  }

  /** float(c) on a cell that is not NA; None when float() raises. */
  function FloatOf(c: Cell): Option<real>
  {
    match c
    case Num(v) => Some(v)
    case Text(p) => p
    case _ => None
  }

  /** The three spellings under which a standing is looked up:
      'place1a', 'Place 1a' and 'place 1a' (and likewise for the away side). */
  datatype Aliases = Aliases(plain: Cell, titled: Cell, spaced: Cell)

  /** The columns of one fixture that the pricing code reads:
      elohomeo, eloawayo, cotaa, cotae, cotad and the two standings. */
  datatype Row = Row(eloHome: Field, eloAway: Field,
                     oddsHome: Field, oddsDraw: Field, oddsAway: Field,
                     homePlace: Aliases, awayPlace: Aliases)

  /** A 1X2 outcome or pick: '1' home win, 'X' draw, '2' away win. */
  datatype Tag = One | Draw | Two

  datatype Side = Home | Away
}
