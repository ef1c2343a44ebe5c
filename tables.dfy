/**
 * The article table the pipeline loads from CSV and writes back: an ordered
 * list of column names and, per row, a map from column name to cell text.
 */
module Tables {

  /** The column every input table must have. */
  const ArticleColumn: string := "ARTICLE_TEXT"

  /** The column the pipeline adds. */
  const SummaryColumn: string := "summary"

  type Row = map<string, string>

  datatype Table = Table(columns: seq<string>, rows: seq<Row>)

  /** Every row has a cell for every column, as a loaded data frame does. */
  ghost predicate Rectangular(t: Table) {
    forall i, c :: 0 <= i < |t.rows| && c in t.columns ==> c in t.rows[i]
  }

  /** The cells of column `c`, top to bottom. */
  function Column(t: Table, c: string): seq<string>
    requires Rectangular(t) && c in t.columns
  {
    seq(|t.rows|, i requires 0 <= i < |t.rows| => t.rows[i][c])
  }

  /**
   * Assigning a list of values to a column: an existing column is overwritten
   * in place, a new one is appended after the others.
   */
  function WithColumn(t: Table, name: string, values: seq<string>): (r: Table)
    requires Rectangular(t) && |values| == |t.rows|
    ensures Rectangular(r) && |r.rows| == |t.rows|
    ensures name in r.columns && Column(r, name) == values
    ensures name in t.columns ==> r.columns == t.columns
    ensures name !in t.columns ==> r.columns == t.columns + [name]
    ensures forall c :: c in t.columns && c != name ==> c in r.columns && Column(r, c) == Column(t, c)
  {
    var cols := if name in t.columns then t.columns else t.columns + [name];
    Table(cols, seq(|t.rows|, i requires 0 <= i < |t.rows| => t.rows[i][name := values[i]]))
  }
}
