/** A CSV file as the scripts use it: absent, or a header line followed by
    data rows. The scripts append with the rule "write the header only if
    the file does not exist yet" (`append_to_playlist_csv` in init.py,
    `append_to_csv` in example.py). */
module Csv {
  import opened Common

  datatype Table<R> = Table(header: seq<string>, rows: seq<R>)

  /** The data rows a reader sees; an absent file reads as no rows. */
  function RowsOf<R>(file: Option<Table<R>>): seq<R> {
    if file.Some? then file.value.rows else []
  }

  /** Append `rows` to `file`, creating it with `header` when it is absent. */
  function AppendRows<R>(file: Option<Table<R>>, header: seq<string>, rows: seq<R>): (r: Table<R>)
    ensures r.header == (if file.Some? then file.value.header else header)
    ensures r.rows == RowsOf(file) + rows
  {
    match file
    case None => Table(header, rows)
    case Some(t) => Table(t.header, t.rows + rows)
  }

  /** The header is written once: appending in two batches leaves the same
      file as appending both batches at once, whether or not the file
      existed before. */
  lemma AppendTwice<R>(file: Option<Table<R>>, header: seq<string>, a: seq<R>, b: seq<R>)
    ensures AppendRows(Some(AppendRows(file, header, a)), header, b) == AppendRows(file, header, a + b)
  {
    assert RowsOf(file) + a + b == RowsOf(file) + (a + b);
  }

  /** The file after `rows` are appended one call at a time, each call
      writing one row: untouched (possibly still absent) when there is
      nothing to append. */
  function AppendEach<R>(file: Option<Table<R>>, header: seq<string>, rows: seq<R>): Option<Table<R>> {
    if |rows| == 0 then file else Some(AppendRows(file, header, rows))
  }

  /** One more single-row append extends the batch view by that row. */
  lemma AppendEachSnoc<R>(file: Option<Table<R>>, header: seq<string>, rows: seq<R>, row: R)
    ensures AppendEach(file, header, rows + [row]) == Some(AppendRows(AppendEach(file, header, rows), header, [row]))
  {
    if rows == [] {
      assert rows + [row] == [row];
    } else {
      AppendTwice(file, header, rows, [row]);
    }
  }
}
