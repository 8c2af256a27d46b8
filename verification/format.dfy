/**
 * `utils::pretty_ops`: an operations-per-second figure is shown in the
 * largest of op/s, K, M, G or T op/s that keeps it readable. The text
 * rendering with two decimals is not modelled; a result is the scale chosen
 * and the number shown before the suffix.
 */
module Format {

  datatype Scale = Unit | Kilo | Mega | Giga | Tera

  /** What follows the number: a unit `op/s`, with the scale's letter before it except at `Unit`. */
  function Suffix(s: Scale): (t: string)
    ensures |t| >= 4 && t[|t| - 4..] == "op/s"
    ensures s == Unit <==> |t| == 4
  {
    match s
    case Unit => "op/s"
    case Kilo => "K op/s"
    case Mega => "M op/s"
    case Giga => "G op/s"
    case Tera => "T op/s"
  }

  /**
   * What a scaled figure is divided by. The source writes each divisor as a
   * `float` literal; 10^3, 10^6 and 10^9 are exact in single precision,
   * but `1000000000000.0f` is the nearest `float` to 10^12, 999999995904.
   */
  function Divisor(s: Scale): (d: real)
    ensures d >= 1.0
  {
    match s
    case Unit => 1.0
    case Kilo => 1000.0
    case Mega => 1000000.0
    case Giga => 1000000000.0
    case Tera => 999999995904.0
  }

  /** The band of values each scale is chosen for: `[Lower, Upper)`, open below for `Unit` and above for `Tera`. */
  predicate InBand(val: real, s: Scale)
  {
    match s
    case Unit => val < 1000.0
    case Kilo => 1000.0 <= val < 1000000.0
    case Mega => 1000000.0 <= val < 1000000000.0
    case Giga => 1000000000.0 <= val < 1000000000000.0
    case Tera => 1000000000000.0 <= val
  }

  /** A figure as `pretty_ops` shows it: `mantissa` followed by `Suffix(scale)`. */
  datatype Pretty = Pretty(mantissa: real, scale: Scale)

  /**
   * The first test that holds picks the scale, so the value lies in that
   * scale's band, and the number shown is the value over the scale's
   * divisor; a value of `T` is taken as an exact real.
   */
  function PrettyOps(val: real): (p: Pretty)
    ensures InBand(val, p.scale)
    ensures p.mantissa * Divisor(p.scale) == val
  {
    if val < 1000.0 then Pretty(val, Unit)
    else if val < 1000000.0 then Pretty(val / 1000.0, Kilo)
    else if val < 1000000000.0 then Pretty(val / 1000000.0, Mega)
    else if val < 1000000000000.0 then Pretty(val / 1000000000.0, Giga)
    else Pretty(val / 999999995904.0, Tera)
  }

  /** The scales are the bands: `PrettyOps` picks `s` exactly when `val` lies in the band of `s`. */
  lemma ScaleIsBand(val: real, s: Scale)
    ensures PrettyOps(val).scale == s <==> InBand(val, s)
  {
  }

  /**
   * Below 1000 the value is shown as it is; from 1000 up to 10^12 the
   * number shown lies in `[1, 1000)`; from 10^12 on it is at least 1.
   */
  lemma MantissaRange(val: real)
    ensures val < 1000.0 ==> PrettyOps(val).mantissa == val
    ensures 1000.0 <= val < 1000000000000.0 ==> 1.0 <= PrettyOps(val).mantissa < 1000.0
    ensures 1000000000000.0 <= val ==> PrettyOps(val).mantissa > 1.0
  {
    var p := PrettyOps(val);
    if 1000.0 <= val < 1000000000000.0 {
      assert p.mantissa * Divisor(p.scale) == val;
      assert val < 1000.0 * Divisor(p.scale);
      assert Divisor(p.scale) <= val;
    } else if 1000000000000.0 <= val {
      assert p.mantissa * 999999995904.0 == val;
    }
  }

  /** Each scale has a suffix of its own, so the text shown names the scale. */
  lemma SuffixNamesScale(a: Scale, b: Scale)
    requires Suffix(a) == Suffix(b)
    ensures a == b
  {
  }

  /** The position of a scale from `Unit` up. */
  function Rank(s: Scale): nat
  {
    match s
    case Unit => 0
    case Kilo => 1
    case Mega => 2
    case Giga => 3
    case Tera => 4
  }

  /** A larger value is never shown in a smaller scale. */
  lemma ScaleMonotone(a: real, b: real)
    requires a <= b
    ensures Rank(PrettyOps(a).scale) <= Rank(PrettyOps(b).scale)
  {
  }
}
