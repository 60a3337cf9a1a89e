/** A financial statement table: the pandas `DataFrame` whose row labels are
    line-item names and whose column labels are reporting dates. */
module Tables {
  import opened Dates

  /** One cell: a number, or pandas' missing value. */
  datatype Cell = Num(value: real) | NaN

  datatype Frame = Frame(index: set<string>, columns: seq<Date>, data: map<string, map<Date, Cell>>)

  /** A data frame has a cell for every row label and every column label, and
      no two columns share a date. */
  predicate Rectangular(f: Frame) {
    && f.data.Keys == f.index
    && (forall i, j :: 0 <= i < j < |f.columns| ==> f.columns[i] != f.columns[j])
    && (forall item :: item in f.data ==> f.data[item].Keys == set d | d in f.columns)
  }

  type Table = f: Frame | Rectangular(f) witness Frame({}, [], map[])

  /** `df.empty`: no rows or no columns. */
  predicate IsEmpty(t: Frame) {
    |t.index| == 0 || |t.columns| == 0
  }
}
