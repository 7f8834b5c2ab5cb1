/** A stored prediction (a row of the `kol_sentiment` table) as the
    scoring pipeline reads it: who called it, the label, and the three
    forward returns, each possibly missing. */
module KolRecords {
  import opened Wrappers

  datatype Record = Record(kol: string, sentiment: string,
                           return1d: Option<real>, return3d: Option<real>, return10d: Option<real>)
}
