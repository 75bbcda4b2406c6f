/** The table the validation scripts read with `pd.read_csv`: a column-major frame whose
    columns all have the frame's length. Only the three cell kinds the scripts meet
    are represented: text, integers and pandas' missing value. */
module Frame {
  import opened PyRuntime

  datatype Value = Str(s: string) | Int(i: int) | NaN

  /** `str(v)`: missing values print as "nan". */
  function PyStr(v: Value): (s: string)
    ensures !v.Str? ==> forall k :: 0 <= k < |s| ==> s[k] != '@'
  {
    match v
    case Str(s) => s
    case Int(i) => Decimal(i)
    case NaN => "nan"
  }

  datatype DataFrame = DataFrame(length: nat, columns: map<string, seq<Value>>) {
    /** Every column holds one cell per row. */
    predicate WellFormed()
    {
      forall c :: c in columns ==> |columns[c]| == length
    }
  }

  /** `df[name]`: the column's cells in row order, or `KeyError` when it is absent. */
  function Column(df: DataFrame, name: string): (r: Result<seq<Value>>)
    requires df.WellFormed()
    ensures r.Ok? <==> name in df.columns
    ensures r.Ok? ==> |r.value| == df.length && r.value == df.columns[name]
    ensures r.Err? ==> r.error == KeyError(name)
  {
    if name in df.columns then Ok(df.columns[name]) else Err(KeyError(name))
  }

  /** Some cell of the column is text (pandas then refuses numeric comparisons). */
  predicate HoldsText(col: seq<Value>)
  {
    exists i :: 0 <= i < |col| && col[i].Str?
  }

  /** Every cell of the column is text (`re.match` accepts nothing else). */
  predicate AllText(col: seq<Value>)
  {
    forall i :: 0 <= i < |col| ==> col[i].Str?
  }
}
