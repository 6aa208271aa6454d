/** The names of the chart files written by `run_data_viz`: a chart prefix,
    the window as Python's `str` of an int, then `.html`. */
module FileNames {

  datatype ChartKind = DensityHeatmap | ScatterPlot | PieChart | BarChart

  function Prefix(kind: ChartKind): (p: string)
    ensures |p| > 0
  {
    match kind
    case DensityHeatmap => "density_heatmap_"
    case ScatterPlot => "scatter_plot_"
    case PieChart => "pie_chart_"
    case BarChart => "bar_chart_"
  }

  const Extension: string := ".html"

  function DigitChar(d: nat): (c: char)
    requires d < 10
    ensures '0' <= c <= '9'
  {
    ('0' as int + d) as char
  }

  function DigitValue(c: char): int {
    c as int - '0' as int
  }

  /** Base-ten digits of a natural number, most significant first, with no
      leading zero. */
  function NatDecimal(n: nat): (s: string)
    ensures |s| > 0
    ensures forall i :: 0 <= i < |s| ==> '0' <= s[i] <= '9'
  {
    if n < 10 then [DigitChar(n)] else NatDecimal(n / 10) + [DigitChar(n % 10)]
  }

  /** Python's `str` of an int. */
  function Decimal(i: int): (s: string)
    ensures |s| > 0
  {
    if i < 0 then "-" + NatDecimal(-i) else NatDecimal(i)
  }

  function ParseNat(s: string): int {
    if s == [] then 0 else ParseNat(s[..|s| - 1]) * 10 + DigitValue(s[|s| - 1])
  }

  /** Python's `int` of a decimal string; the inverse of `Decimal`. */
  function ParseDecimal(s: string): int {
    if |s| > 0 && s[0] == '-' then -ParseNat(s[1..]) else ParseNat(s)
  }

  lemma {:induction false} ParseNatDecimal(n: nat)
    ensures ParseNat(NatDecimal(n)) == n
  {
    if n >= 10 {
      ParseNatDecimal(n / 10);
      var s := NatDecimal(n);
      assert s[..|s| - 1] == NatDecimal(n / 10);
    }
  }

  /** Reading a window back from its decimal text gives the window. */
  lemma DecimalRoundTrip(i: int)
    ensures ParseDecimal(Decimal(i)) == i
  {
    if i < 0 {
      ParseNatDecimal(-i);
      assert Decimal(i)[1..] == NatDecimal(-i);
    } else {
      ParseNatDecimal(i);
    }
  }

  /** `"<prefix>" + str(days_filter) + ".html"`. */
  function FileName(kind: ChartKind, days: int): (name: string)
    ensures |name| > |Prefix(kind)| + |Extension|
  {
    Prefix(kind) + Decimal(days) + Extension
  }

  /** Different (chart kind, window) combinations never write to the same
      file. */
  lemma FileNameInjective(k1: ChartKind, d1: int, k2: ChartKind, d2: int)
    requires FileName(k1, d1) == FileName(k2, d2)
    ensures k1 == k2 && d1 == d2
  {
    var name := FileName(k1, d1);
    assert name[0] == Prefix(k1)[0] == Prefix(k2)[0];
    var p := Prefix(k1);
    assert name[|p|..|name| - |Extension|] == Decimal(d1);
    assert FileName(k2, d2)[|p|..|name| - |Extension|] == Decimal(d2);
    DecimalRoundTrip(d1);
    DecimalRoundTrip(d2);
  }
}
