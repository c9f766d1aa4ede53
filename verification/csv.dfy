/**
 * The tolerant Etherscan CSV importer (`parseEtherscanCsv` with `splitCsvLine`, `strip` and
 * `toNumber`). The CSV's date strings are turned into milliseconds by the parameter `toMillis`.
 */
module Csv {
  import opened Wrappers
  import opened Text
  import opened JsNumber
  import opened Activities
  import Seqs

  // ---------------------------------------------------------------- lines

  /** Drops one trailing carriage return. */
  function DropCR(s: string): (r: string)
    ensures r == s || (s == r + "\r")
  {
    if s != [] && s[|s| - 1] == '\r' then s[..|s| - 1] else s
  }

  /** `text.split(/\r?\n/)`: a `\r` right before a line break belongs to the break. */
  function SplitLinesRaw(text: string): (r: seq<string>)
    ensures |r| >= 1
    ensures forall i :: 0 <= i < |r| ==> '\n' !in r[i]
    ensures |r| == |Split(text, '\n')|
    ensures forall i :: 0 <= i < |r| - 1 ==> r[i] == DropCR(Split(text, '\n')[i])
    ensures r[|r| - 1] == Split(text, '\n')[|r| - 1]
  {
    var pieces := Split(text, '\n');
    var r := Seqs.Map(DropCR, pieces[..|pieces| - 1]) + [pieces[|pieces| - 1]];
    Seqs.MapAt(DropCR, pieces[..|pieces| - 1]);
    assert forall i :: 0 <= i < |r| - 1 ==> r[i] == DropCR(pieces[i]);
    r
  }

  predicate NonEmpty(s: string) {
    s != ""
  }

  /** `text.split(/\r?\n/).filter(Boolean)`. */
  function SplitLines(text: string): (r: seq<string>)
  {
    Seqs.Filter(NonEmpty, SplitLinesRaw(text))
  }

  /** Without carriage returns, the lines are the non-empty pieces between line feeds. */
  lemma SplitLinesUnix(text: string)
    requires '\r' !in text
    ensures SplitLines(text) == Seqs.Filter(NonEmpty, Split(text, '\n'))
  {
    SplitWithout(text, '\n', '\r');
    NoCarriageReturns(Split(text, '\n'));
  }

  /** Pieces without a carriage return are left as they are. */
  lemma NoCarriageReturns(pieces: seq<string>)
    requires |pieces| > 0
    requires forall i :: 0 <= i < |pieces| ==> '\r' !in pieces[i]
    ensures Seqs.Map(DropCR, pieces[..|pieces| - 1]) + [pieces[|pieces| - 1]] == pieces
  {
    var init := pieces[..|pieces| - 1];
    Seqs.MapAt(DropCR, init);
    forall i | 0 <= i < |init|
      ensures DropCR(init[i]) == init[i]
    {
      assert init[i] == pieces[i];
      if init[i] != [] {
        assert init[i][|init[i]| - 1] in init[i];
      }
    }
    assert Seqs.Map(DropCR, init) == init;
    assert init + [pieces[|pieces| - 1]] == pieces;
  }

  // ---------------------------------------------------------------- header

  /** `s.replace(/^"|"$/g, '')`: at most one leading and one trailing quote go. */
  function StripQuotes(s: string): (r: string)
    ensures |s| - 2 <= |r| <= |s|
    ensures s != [] && s[0] == '"' ==> r == StripTrailingQuote(s[1..])
    ensures (s == [] || s[0] != '"') ==> r == StripTrailingQuote(s)
  {
    var t := if s != [] && s[0] == '"' then s[1..] else s;
    StripTrailingQuote(t)
  }

  function StripTrailingQuote(s: string): (r: string)
    ensures s != [] && s[|s| - 1] == '"' ==> r == s[..|s| - 1]
    ensures (s == [] || s[|s| - 1] != '"') ==> r == s
  {
    if s != [] && s[|s| - 1] == '"' then s[..|s| - 1] else s
  }

  /** `strip(s)`: outer quotes removed, then white space trimmed; a missing field is "". */
  function Strip(s: string): string {
    Trim(StripQuotes(s))
  }

  /** `raw[i]`, which is `undefined` (read as "") outside the row. */
  function Field(raw: seq<string>, i: int): string {
    if 0 <= i < |raw| then raw[i] else ""
  }

  /** `header.findIndex(h => h.toLowerCase().startsWith(name.toLowerCase()))`. */
  function ColumnIndex(header: seq<string>, name: string): (r: int)
    ensures -1 <= r < |header|
    ensures r >= 0 ==> StartsWith(Lower(header[r]), Lower(name))
    ensures r >= 0 ==> forall i :: 0 <= i < r ==> !StartsWith(Lower(header[i]), Lower(name))
    ensures r == -1 <==> forall i :: 0 <= i < |header| ==> !StartsWith(Lower(header[i]), Lower(name))
  {
    if header == [] then -1
    else if StartsWith(Lower(header[0]), Lower(name)) then 0
    else
      var k := ColumnIndex(header[1..], name);
      if k == -1 then -1 else k + 1
  }

  /** The column of each field the importer reads. */
  datatype Columns = Columns(hash: int, date: int, from: int, to: int, valueIn: int, valueOut: int, current: int, methodName: int)

  function HeaderFields(line: string): seq<string> {
    Seqs.Map(StripQuotes, Split(line, ','))
  }

  function ColumnsOf(header: seq<string>): Columns {
    Columns(
      hash := ColumnIndex(header, "Transaction Hash"),
      date := ColumnIndex(header, "DateTime"),
      from := ColumnIndex(header, "From"),
      to := ColumnIndex(header, "To"),
      valueIn := ColumnIndex(header, "Value_IN"),
      valueOut := ColumnIndex(header, "Value_OUT"),
      current := ColumnIndex(header, "CurrentValue"),
      methodName := ColumnIndex(header, "Method"))
  }

  // ---------------------------------------------------------------- fields

  /** The state of the field splitter: finished fields, the current field, inside quotes. */
  datatype ScanState = ScanState(done: seq<string>, cur: string, inQuotes: bool)

  /** One character of `splitCsvLine`. */
  function ScanChar(st: ScanState, c: char): ScanState {
    if c == '"' then st.(inQuotes := !st.inQuotes)
    else if c == ',' && !st.inQuotes then ScanState(st.done + [st.cur], "", st.inQuotes)
    else st.(cur := st.cur + [c])
  }

  function Scan(line: string): ScanState {
    if line == [] then ScanState([], "", false)
    else ScanChar(Scan(line[..|line| - 1]), line[|line| - 1])
  }

  /** The fields of a line. */
  function CsvFields(line: string): seq<string> {
    var st := Scan(line);
    st.done + [st.cur]
  }

  /** `splitCsvLine`. */
  method SplitCsvLine(line: string) returns (res: seq<string>)
    ensures res == CsvFields(line)
  {
    res := [];
    var cur := "";
    var inQ := false;
    for i := 0 to |line|
      invariant Scan(line[..i]) == ScanState(res, cur, inQ)
    {
      assert line[..i + 1][..i] == line[..i];
      var ch := line[i];
      if ch == '"' {
        inQ := !inQ;
      } else if ch == ',' && !inQ {
        res := res + [cur];
        cur := "";
      } else {
        cur := cur + [ch];
      }
    }
    assert line[..|line|] == line;
    res := res + [cur];
  }

  /** An odd number of quotes: the splitter is inside a quoted section. */
  function OddQuotes(s: string): bool {
    if s == [] then false else OddQuotes(s[..|s| - 1]) != (s[|s| - 1] == '"')
  }

  /** The commas outside quoted sections. */
  function UnquotedCommas(s: string): nat {
    if s == [] then 0
    else UnquotedCommas(s[..|s| - 1]) + (if s[|s| - 1] == ',' && !OddQuotes(s[..|s| - 1]) then 1 else 0)
  }

  /** The line without its quote characters. */
  function RemoveQuotes(s: string): string {
    if s == [] then [] else RemoveQuotes(s[..|s| - 1]) + (if s[|s| - 1] == '"' then [] else [s[|s| - 1]])
  }

  lemma JoinSnoc(parts: seq<string>, x: string, sep: char)
    requires parts != []
    ensures Join(parts + [x], sep) == Join(parts, sep) + [sep] + x
  {
    assert (parts + [x])[..|parts|] == parts;
  }

  /**
   * The splitter's invariant: quote mode is the parity of the quotes read, one field is finished per
   * unquoted comma, no field holds a quote, and joining the fields with commas gives back the line
   * without its quotes.
   */
  lemma {:induction false} ScanFacts(line: string)
    ensures Scan(line).inQuotes == OddQuotes(line)
    ensures |Scan(line).done| == UnquotedCommas(line)
    ensures forall f :: f in Scan(line).done ==> '"' !in f
    ensures '"' !in Scan(line).cur
    ensures Join(Scan(line).done + [Scan(line).cur], ',') == RemoveQuotes(line)
  {
    if line != [] {
      var init := line[..|line| - 1];
      var c := line[|line| - 1];
      var st := Scan(init);
      ScanFacts(init);
      if c == ',' && !st.inQuotes {
        JoinSnoc(st.done + [st.cur], "", ',');
        assert st.done + [st.cur] + [""] == (st.done + [st.cur]) + [""];
      } else if c != '"' {
        if st.done == [] {
          assert Join([st.cur + [c]], ',') == st.cur + [c];
        } else {
          JoinSnoc(st.done, st.cur, ',');
          JoinSnoc(st.done, st.cur + [c], ',');
        }
      }
    }
  }

  /** The field count is the number of unquoted commas plus one, and no field holds a quote. */
  lemma CsvFieldsFacts(line: string)
    ensures |CsvFields(line)| == UnquotedCommas(line) + 1
    ensures forall f :: f in CsvFields(line) ==> '"' !in f
    ensures Join(CsvFields(line), ',') == RemoveQuotes(line)
  {
    ScanFacts(line);
  }

  lemma {:induction false} RemoveQuotesNone(s: string)
    requires '"' !in s
    ensures RemoveQuotes(s) == s
  {
    if s != [] {
      RemoveQuotesNone(s[..|s| - 1]);
    }
  }

  /** A line without quotes splits back into itself. */
  lemma QuoteFreeRoundTrip(line: string)
    requires '"' !in line
    ensures Join(CsvFields(line), ',') == line
  {
    CsvFieldsFacts(line);
    RemoveQuotesNone(line);
  }

  // ---------------------------------------------------------------- numbers and types

  predicate IsNumberChar(c: char) {
    '0' <= c <= '9' || c == '.' || c == '-'
  }

  /** `toNumber`: only digits, `.` and `-` are kept; anything that is not a finite number is 0. */
  function ToNumber(s: string): real {
    NumberOf(Filter(s, IsNumberChar)).GetOr(0.0)
  }

  /** Text without digits, `.` or `-` reads as 0. */
  lemma ToNumberNoDigits(s: string)
    requires forall i :: 0 <= i < |s| ==> !IsNumberChar(s[i])
    ensures ToNumber(s) == 0.0
  {
    FilterDropsAll(s, IsNumberChar);
  }

  /** A digit string reads as its value. */
  lemma ToNumberDigits(s: string)
    requires s != [] && AllDigits(s)
    ensures ToNumber(s) == DigitsValue(s) as real
  {
    FilterKeepsAll(s, IsNumberChar);
    DigitsNumber(s);
  }

  /** Digits around a point read as the decimal fraction they write. */
  lemma ToNumberDecimal(w: string, f: string)
    requires AllDigits(w) && AllDigits(f) && |w| + |f| > 0
    ensures ToNumber(w + "." + f) == (DigitsValue(w + f) as real) / (Pow10(|f|) as real)
  {
    var t := w + "." + f;
    assert forall i :: 0 <= i < |t| ==> t[i] == '.' || IsDigit(t[i]);
    FilterKeepsAll(t, IsNumberChar);
    DecimalNumber(w, f);
  }

  /** Characters other than digits, `.` and `-` do not change the value, wherever they stand. */
  lemma ToNumberIgnoresNoise(a: string, noise: string, b: string)
    requires forall i :: 0 <= i < |noise| ==> !IsNumberChar(noise[i])
    ensures ToNumber(a + noise + b) == ToNumber(a + b)
  {
    FilterConcat(a + noise, b, IsNumberChar);
    FilterConcat(a, noise, IsNumberChar);
    FilterConcat(a, b, IsNumberChar);
    FilterDropsAll(noise, IsNumberChar);
    assert Filter(a, IsNumberChar) + [] == Filter(a, IsNumberChar);
  }

  /** The activity type named by the lower-cased method; the first keyword found wins. */
  function MethodType(m: string): (t: ActivityType)
    ensures t == Transfer <==> Contains(m, "transfer")
    ensures t == Swap <==> !Contains(m, "transfer") && Contains(m, "swap")
    ensures t == Mint <==> !Contains(m, "transfer") && !Contains(m, "swap") && Contains(m, "mint")
    ensures t == Burn <==> !Contains(m, "transfer") && !Contains(m, "swap") && !Contains(m, "mint") && Contains(m, "burn")
    ensures t == Nft <==>
      && !Contains(m, "transfer") && !Contains(m, "swap") && !Contains(m, "mint") && !Contains(m, "burn")
      && (Contains(m, "fulfill") || Contains(m, "atomic") || Contains(m, "order"))
    ensures t != Bridge
  {
    if Contains(m, "transfer") then Transfer
    else if Contains(m, "swap") then Swap
    else if Contains(m, "mint") then Mint
    else if Contains(m, "burn") then Burn
    else if Contains(m, "fulfill") || Contains(m, "atomic") || Contains(m, "order") then Nft
    else Unknown
  }

  // ---------------------------------------------------------------- rows

  /** The id `csv:${chainId}:${txHash}`. */
  function CsvId(chainId: int, txHash: string): string {
    "csv:" + IntToString(chainId) + ":" + txHash
  }

  /** A row is imported when it has at least five fields and a non-empty hash. */
  predicate Accepted(raw: seq<string>, cols: Columns) {
    |raw| >= 5 && Strip(Field(raw, cols.hash)) != ""
  }

  /** The activity of an imported row. */
  function RowActivity(raw: seq<string>, cols: Columns, chainId: int, toMillis: string -> int): Activity {
    var txHash := Strip(Field(raw, cols.hash));
    var currentUsd := ToNumber(Strip(Field(raw, cols.current)));
    Activity(
      id := CsvId(chainId, txHash),
      chainId := chainId,
      timestamp := toMillis(Strip(Field(raw, cols.date))),
      kind := MethodType(Lower(Strip(Field(raw, cols.methodName)))),
      from := Strip(Field(raw, cols.from)),
      to := Strip(Field(raw, cols.to)),
      token := None,
      amount := None,
      amountUSD := Some(currentUsd),
      txHash := txHash,
      meta := NoMeta)
  }

  /** Zero or one activity for a data line. */
  function RowOut(line: string, cols: Columns, chainId: int, toMillis: string -> int): seq<Activity> {
    var raw := CsvFields(line);
    if Accepted(raw, cols) then [RowActivity(raw, cols, chainId, toMillis)] else []
  }

  function RowOutOf(cols: Columns, chainId: int, toMillis: string -> int): string -> seq<Activity> {
    line => RowOut(line, cols, chainId, toMillis)
  }

  function RowActivityOf(cols: Columns, chainId: int, toMillis: string -> int): seq<string> -> Activity {
    raw => RowActivity(raw, cols, chainId, toMillis)
  }

  function AcceptedBy(cols: Columns): seq<string> -> bool {
    raw => Accepted(raw, cols)
  }

  /** The activities of the data lines, in line order. */
  function CollectRows(rows: seq<string>, cols: Columns, chainId: int, toMillis: string -> int): seq<Activity> {
    Seqs.FlatMap(RowOutOf(cols, chainId, toMillis), rows)
  }

  /** What the importer returns for a text. */
  function CsvSpec(text: string, chainId: int, toMillis: string -> int): seq<Activity> {
    var lines := SplitLines(text);
    if |lines| <= 1 then []
    else CollectRows(lines[1..], ColumnsOf(HeaderFields(lines[0])), chainId, toMillis)
  }

  /** `parseEtherscanCsv`. */
  method ParseEtherscanCsv(text: string, chainId: int, toMillis: string -> int) returns (out: seq<Activity>)
    ensures out == CsvSpec(text, chainId, toMillis)
  {
    var lines := SplitLines(text);
    if |lines| <= 1 {
      return [];
    }
    var cols := ColumnsOf(HeaderFields(lines[0]));
    out := ImportRows(lines[1..], cols, chainId, toMillis);
  }

  /** One turn of the row loop. */
  lemma ImportStep(rows: seq<string>, i: nat, cols: Columns, chainId: int, toMillis: string -> int)
    requires i < |rows|
    ensures CollectRows(rows[..i + 1], cols, chainId, toMillis)
         == CollectRows(rows[..i], cols, chainId, toMillis) + RowOut(rows[i], cols, chainId, toMillis)
  {
    assert rows[..i + 1] == rows[..i] + [rows[i]];
    Seqs.FlatMapSnoc(RowOutOf(cols, chainId, toMillis), rows[..i], rows[i]);
  }

  method ImportRows(rows: seq<string>, cols: Columns, chainId: int, toMillis: string -> int) returns (out: seq<Activity>)
    ensures out == CollectRows(rows, cols, chainId, toMillis)
  {
    out := [];
    for i := 0 to |rows|
      invariant out == CollectRows(rows[..i], cols, chainId, toMillis)
    {
      ImportStep(rows, i, cols, chainId, toMillis);
      var row := ImportRow(rows[i], cols, chainId, toMillis);
      out := out + row;
    }
    assert rows[..|rows|] == rows;
  }

  /** One data line: split it, skip it when short or without a hash, else build its activity. */
  method ImportRow(line: string, cols: Columns, chainId: int, toMillis: string -> int) returns (row: seq<Activity>)
    ensures row == RowOut(line, cols, chainId, toMillis)
  {
    var raw := SplitCsvLine(line);
    if |raw| < 5 {
      return [];
    }
    var txHash := Strip(Field(raw, cols.hash));
    if txHash == "" {
      return [];
    }
    row := [RowActivity(raw, cols, chainId, toMillis)];
  }

  /** Fewer than two non-empty lines import nothing. */
  lemma NoDataLines(text: string, chainId: int, toMillis: string -> int)
    requires |SplitLines(text)| <= 1
    ensures CsvSpec(text, chainId, toMillis) == []
  {
  }

  /** One data line gives its activity when accepted, else nothing. */
  lemma RowOutCases(cols: Columns, chainId: int, toMillis: string -> int)
    ensures forall line ::
      RowOutOf(cols, chainId, toMillis)(line) == (if AcceptedBy(cols)(CsvFields(line)) then [RowActivityOf(cols, chainId, toMillis)(CsvFields(line))] else [])
  {
  }

  /** The imported rows are exactly the accepted data lines, one activity each, in line order. */
  lemma CollectRowsIsFilterMap(rows: seq<string>, cols: Columns, chainId: int, toMillis: string -> int)
    ensures CollectRows(rows, cols, chainId, toMillis)
         == Seqs.Map(RowActivityOf(cols, chainId, toMillis), Seqs.Filter(AcceptedBy(cols), Seqs.Map(CsvFields, rows)))
  {
    RowOutCases(cols, chainId, toMillis);
    Seqs.FlatMapIsFilterMap(RowOutOf(cols, chainId, toMillis), CsvFields, AcceptedBy(cols), RowActivityOf(cols, chainId, toMillis), rows);
  }

  /** The shape of a CSV activity: id `csv:<chain>:<hash>` with a non-empty hash, a USD value, no amount. */
  predicate CsvShaped(a: Activity, chainId: int) {
    && a.txHash != ""
    && a.id == CsvId(chainId, a.txHash)
    && a.chainId == chainId
    && a.amountUSD.Some?
    && a.amount.None? && a.token.None?
    && a.kind != Bridge
    && a.meta == NoMeta
  }

  /** Every imported activity has the CSV shape. */
  lemma CollectRowsShape(rows: seq<string>, cols: Columns, chainId: int, toMillis: string -> int)
    ensures forall a :: a in CollectRows(rows, cols, chainId, toMillis) ==> CsvShaped(a, chainId)
  {
    forall line, a | a in RowOutOf(cols, chainId, toMillis)(line)
      ensures CsvShaped(a, chainId)
    {
    }
    Seqs.FlatMapAll(RowOutOf(cols, chainId, toMillis), rows, a => CsvShaped(a, chainId));
  }

  /** At most one activity per data line. */
  lemma CollectRowsLength(rows: seq<string>, cols: Columns, chainId: int, toMillis: string -> int)
    ensures |CollectRows(rows, cols, chainId, toMillis)| <= |rows|
  {
    Seqs.FlatMapAtMostOne(RowOutOf(cols, chainId, toMillis), rows);
  }
}
