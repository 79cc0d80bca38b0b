/** Reading a reconciliation workbook (app/services/recon_ingest.py): its data rows and what they become. */
module ReconFile {
  import opened Prelude
  import opened Amounts

  /** A cell as read: its text, and what `Decimal` and `int` make of it. */
  datatype Cell = Null | Value(text: string, amount: Parsed, integer: Option<int>)

  type Row = seq<Cell>

  /** Sheets by title, each with its header row first. */
  type Workbook = map<string, seq<Row>>

  predicate IsBlank(c: Cell) {
    c.Null? || c.text == ""
  }

  predicate BlankRow(row: Row) {
    forall i :: 0 <= i < |row| ==> IsBlank(row[i])
  }

  // ---- data rows ----------------------------------------------------------------------------

  function DropBlank(rows: seq<Row>): seq<Row> {
    if rows == [] then []
    else DropBlank(rows[..|rows| - 1]) + if BlankRow(rows[|rows| - 1]) then [] else [rows[|rows| - 1]]
  }

  /** The rows after the header that are not blank. */
  function DataRows(sheet: seq<Row>): seq<Row> {
    if sheet == [] then [] else DropBlank(sheet[1..])
  }

  /** `_collect_rows` */
  method CollectRows(sheet: seq<Row>) returns (result: seq<Row>)
    ensures result == DataRows(sheet)
  {
    result := [];
    var first := true;
    var i := 0;
    while i < |sheet|
      invariant 0 <= i <= |sheet|
      invariant first <==> i == 0
      invariant result == if i == 0 then [] else DropBlank(sheet[1..i])
    {
      var row := sheet[i];
      i := i + 1;
      if first {
        first := false;
        continue;
      }
      assert sheet[1..i][..i - 2] == sheet[1..i - 1];
      var j, blank := 0, true;
      while j < |row|
        invariant 0 <= j <= |row|
        invariant blank <==> BlankRow(row[..j])
      {
        assert row[..j + 1] == row[..j] + [row[j]];
        blank := blank && IsBlank(row[j]);
        j := j + 1;
      }
      assert row[..j] == row;
      if blank {
        continue;
      }
      result := result + [row];
    }
    assert i > 0 ==> sheet[1..i] == sheet[1..];
  }

  /** Reading one part of a sheet after another is reading the whole: nothing is reordered. */
  lemma {:induction false} DropBlankConcat(a: seq<Row>, b: seq<Row>)
    ensures DropBlank(a + b) == DropBlank(a) + DropBlank(b)
  {
    if b == [] {
      assert a + b == a;
    } else {
      assert (a + b)[..|a + b| - 1] == a + b[..|b| - 1];
      DropBlankConcat(a, b[..|b| - 1]);
    }
  }

  /** Every row is kept as often as it occurs if it has a value, and not at all if it is blank. */
  lemma {:induction false} DropBlankCounts(rows: seq<Row>, r: Row)
    ensures multiset(DropBlank(rows))[r] == if BlankRow(r) then 0 else multiset(rows)[r]
  {
    if rows != [] {
      var n := |rows| - 1;
      DropBlankCounts(rows[..n], r);
      assert rows == rows[..n] + [rows[n]];
    }
  }

  // ---- headers ------------------------------------------------------------------------------

  const DIFFERENCES := "Differences"
  const WEDAP_SOURCE := "WeDAP Source"
  const BANK_SOURCE := "Bank Source"

  const DIFFERENCES_HEADER: seq<string> := [
    "Type", "WeDAP Biz Seq No", "Bank Seq No", "WeDAP Amount", "Bank Amount", "Diff Amount", "WeDAP Status", "Bank Status"]

  const WEDAP_SOURCE_HEADER: seq<string> := [
    "Biz Type", "Biz Seq No", "Bank Biz Seq No", "Amount", "Currency", "Payer", "Payee", "Status", "Error"]

  const BANK_SOURCE_HEADER: seq<string> := [
    "Bank Seq No", "Txn Date", "Amount", "Currency", "Payer", "Payee", "Status", "File Name", "Line No"]

  function Text(c: Cell): string {
    if c.Null? then "" else c.text
  }

  predicate HeaderIs(sheet: seq<Row>, expected: seq<string>) {
    && sheet != []
    && |sheet[0]| == |expected|
    && forall i :: 0 <= i < |expected| ==> Text(sheet[0][i]) == expected[i]
  }

  /** `_check_header` */
  predicate HeadersOk(wb: Workbook) {
    && DIFFERENCES in wb && HeaderIs(wb[DIFFERENCES], DIFFERENCES_HEADER)
    && WEDAP_SOURCE in wb && HeaderIs(wb[WEDAP_SOURCE], WEDAP_SOURCE_HEADER)
    && BANK_SOURCE in wb && HeaderIs(wb[BANK_SOURCE], BANK_SOURCE_HEADER)
  }

  // ---- rows to land -------------------------------------------------------------------------

  datatype DiffRow = DiffRow(
    diffType: string, wedapBizSeqNo: Option<string>, bankSeqNo: Option<string>,
    wedapAmount: Option<Decimal>, bankAmount: Option<Decimal>, diffAmount: Option<Decimal>,
    wedapStatus: Option<string>, bankStatus: Option<string>)

  datatype WedapRow = WedapRow(
    bizType: Option<string>, bizSeqNo: string, bankBizSeqNo: Option<string>, amount: Option<Decimal>,
    currency: Option<string>, payer: Option<string>, payee: Option<string>, status: Option<string>,
    error: Option<string>)

  datatype BankRow = BankRow(
    bankSeqNo: string, txnDate: Option<string>, amount: Option<Decimal>, currency: Option<string>,
    payer: Option<string>, payee: Option<string>, status: Option<string>, fileName: Option<string>,
    lineNo: Option<int>)

  /** A row too short to unpack is an exception of its own. */
  datatype Problem = ShortRow | DirtyAmount(column: string)

  datatype Converted<T> = Ok(value: T) | Bad(problem: Problem)
  {
    function Then<U>(next: T -> Converted<U>): Converted<U> {
      match this
      case Ok(v) => next(v)
      case Bad(p) => Bad(p)
    }
  }

  /** `_str` */
  function Str(c: Cell): Option<string> {
    if IsBlank(c) then None else Some(c.text)
  }

  /** `_str(c) or ""` */
  function StrOrEmpty(c: Cell): string {
    if IsBlank(c) then "" else c.text
  }

  /** `_int` */
  function Int(c: Cell): Option<int> {
    if IsBlank(c) then None else c.integer
  }

  /** `_dec` */
  function Dec(c: Cell, column: string): Converted<Option<Decimal>> {
    if IsBlank(c) then Ok(None)
    else
      match ParseGuarded(c.amount, 17, 4)
      case Accepted(v) => Ok(Some(v))
      case _ => Bad(DirtyAmount(column))
  }

  function DiffOf(r: Row): Converted<DiffRow> {
    if |r| < 8 then Bad(ShortRow)
    else
      Dec(r[3], "wedap_amount").Then((w: Option<Decimal>) =>
        Dec(r[4], "bank_amount").Then((b: Option<Decimal>) =>
          Dec(r[5], "diff_amount").Then((d: Option<Decimal>) =>
            Ok(DiffRow(StrOrEmpty(r[0]), Str(r[1]), Str(r[2]), w, b, d, Str(r[6]), Str(r[7]))))))
  }

  function WedapOf(r: Row): Converted<WedapRow> {
    if |r| < 9 then Bad(ShortRow)
    else
      Dec(r[3], "amount").Then((a: Option<Decimal>) =>
        Ok(WedapRow(Str(r[0]), StrOrEmpty(r[1]), Str(r[2]), a, Str(r[4]), Str(r[5]), Str(r[6]), Str(r[7]), Str(r[8]))))
  }

  function BankOf(r: Row): Converted<BankRow> {
    if |r| < 9 then Bad(ShortRow)
    else
      Dec(r[2], "amount").Then((a: Option<Decimal>) =>
        Ok(BankRow(StrOrEmpty(r[0]), Str(r[1]), a, Str(r[3]), Str(r[4]), Str(r[5]), Str(r[6]), Str(r[7]), Int(r[8]))))
  }

  /** All rows, or the problem of the first that has one. */
  function ConvertAll<T>(convert: Row -> Converted<T>, rows: seq<Row>): Converted<seq<T>> {
    if rows == [] then Ok([])
    else
      match ConvertAll(convert, rows[..|rows| - 1])
      case Bad(p) => Bad(p)
      case Ok(vs) =>
        match convert(rows[|rows| - 1])
        case Bad(p) => Bad(p)
        case Ok(v) => Ok(vs + [v])
  }

  /** The three tables of child rows. */
  datatype Landing = Landing(diffs: seq<DiffRow>, wedaps: seq<WedapRow>, banks: seq<BankRow>)

  function Convert(wb: Workbook): Converted<Landing>
    requires HeadersOk(wb)
  {
    match ConvertAll(DiffOf, DataRows(wb[DIFFERENCES]))
    case Bad(p) => Bad(p)
    case Ok(diffs) =>
      match ConvertAll(WedapOf, DataRows(wb[WEDAP_SOURCE]))
      case Bad(p) => Bad(p)
      case Ok(wedaps) =>
        match ConvertAll(BankOf, DataRows(wb[BANK_SOURCE]))
        case Bad(p) => Bad(p)
        case Ok(banks) => Ok(Landing(diffs, wedaps, banks))
  }

  /** The loops that build the child rows of one sheet. */
  method ConvertRows<T>(convert: Row -> Converted<T>, rows: seq<Row>) returns (r: Converted<seq<T>>)
    ensures r == ConvertAll(convert, rows)
  {
    var values: seq<T> := [];
    var i := 0;
    while i < |rows|
      invariant 0 <= i <= |rows|
      invariant ConvertAll(convert, rows[..i]) == Ok(values)
    {
      assert rows[..i + 1][..i] == rows[..i];
      match convert(rows[i]) {
        case Bad(p) =>
          BadStays(convert, rows, i + 1);
          return Bad(p);
        case Ok(v) => values := values + [v];
      }
      i := i + 1;
    }
    assert rows[..i] == rows;
    r := Ok(values);
  }

  lemma {:induction false} BadStays<T>(convert: Row -> Converted<T>, rows: seq<Row>, n: nat)
    requires n <= |rows| && ConvertAll(convert, rows[..n]).Bad?
    ensures ConvertAll(convert, rows) == ConvertAll(convert, rows[..n])
    decreases |rows|
  {
    if n == |rows| {
      assert rows[..n] == rows;
    } else {
      assert rows[..|rows| - 1][..n] == rows[..n];
      BadStays(convert, rows[..|rows| - 1], n);
    }
  }

  /** Converting is row by row: it succeeds exactly when every row does, and keeps number and order. */
  lemma {:induction false} ConvertsEachRow<T>(convert: Row -> Converted<T>, rows: seq<Row>)
    ensures ConvertAll(convert, rows).Ok? <==> forall i :: 0 <= i < |rows| ==> convert(rows[i]).Ok?
    ensures ConvertAll(convert, rows).Ok? ==>
              && |ConvertAll(convert, rows).value| == |rows|
              && forall i :: 0 <= i < |rows| ==> convert(rows[i]) == Ok(ConvertAll(convert, rows).value[i])
  {
    if rows != [] {
      ConvertsEachRow(convert, rows[..|rows| - 1]);
    }
  }

  // ---- what lands fits ----------------------------------------------------------------------

  predicate FitsColumn(a: Option<Decimal>) {
    a.Some? ==> a.value.Finite? && Fits(a.value, 17, 4)
  }

  lemma DecFits(c: Cell, column: string)
    ensures Dec(c, column).Ok? ==> FitsColumn(Dec(c, column).value)
  {
    if !IsBlank(c) && c.amount.Number? {
      GuardMeetsSpec(c.amount.value, 17, 4);
    }
  }

  /** Every amount that lands is finite and, rounded to four decimals, within its column. */
  lemma LandedAmountsFit(wb: Workbook)
    requires HeadersOk(wb) && Convert(wb).Ok?
    ensures var l := Convert(wb).value;
            && (forall i :: 0 <= i < |l.diffs| ==>
                  FitsColumn(l.diffs[i].wedapAmount) && FitsColumn(l.diffs[i].bankAmount) && FitsColumn(l.diffs[i].diffAmount))
            && (forall i :: 0 <= i < |l.wedaps| ==> FitsColumn(l.wedaps[i].amount))
            && (forall i :: 0 <= i < |l.banks| ==> FitsColumn(l.banks[i].amount))
  {
    var l := Convert(wb).value;
    var diffs, wedaps, banks := DataRows(wb[DIFFERENCES]), DataRows(wb[WEDAP_SOURCE]), DataRows(wb[BANK_SOURCE]);
    hide Fits, ParseGuarded, HeadersOk, DataRows, FitsColumn;
    ConvertsEachRow(DiffOf, diffs);
    ConvertsEachRow(WedapOf, wedaps);
    ConvertsEachRow(BankOf, banks);
    forall i | 0 <= i < |l.diffs|
      ensures FitsColumn(l.diffs[i].wedapAmount) && FitsColumn(l.diffs[i].bankAmount) && FitsColumn(l.diffs[i].diffAmount)
    {
      DiffFits(diffs[i]);
    }
    forall i | 0 <= i < |l.wedaps| ensures FitsColumn(l.wedaps[i].amount) {
      DecFits(wedaps[i][3], "amount");
    }
    forall i | 0 <= i < |l.banks| ensures FitsColumn(l.banks[i].amount) {
      DecFits(banks[i][2], "amount");
    }
  }

  lemma DiffFits(r: Row)
    requires DiffOf(r).Ok?
    ensures var d := DiffOf(r).value; FitsColumn(d.wedapAmount) && FitsColumn(d.bankAmount) && FitsColumn(d.diffAmount)
  {
    DecFits(r[3], "wedap_amount");
    DecFits(r[4], "bank_amount");
    DecFits(r[5], "diff_amount");
  }

  // ---- what lands is the sheet --------------------------------------------------------------

  /** The texts of the first row are exactly `cols`. */
  predicate FirstRowReads(sheet: seq<Row>, cols: seq<string>) {
    sheet != [] && seq(|sheet[0]|, i requires 0 <= i < |sheet[0]| => match sheet[0][i] case Null => "" case Value(t, _, _) => t) == cols
  }

  /** A workbook is taken exactly when its three sheets carry these headers, no column more or less. */
  lemma HeadersOkIff(wb: Workbook)
    ensures HeadersOk(wb) <==>
            && "Differences" in wb && "WeDAP Source" in wb && "Bank Source" in wb
            && FirstRowReads(wb["Differences"],
                 ["Type", "WeDAP Biz Seq No", "Bank Seq No", "WeDAP Amount", "Bank Amount", "Diff Amount", "WeDAP Status",
                  "Bank Status"])
            && FirstRowReads(wb["WeDAP Source"],
                 ["Biz Type", "Biz Seq No", "Bank Biz Seq No", "Amount", "Currency", "Payer", "Payee", "Status", "Error"])
            && FirstRowReads(wb["Bank Source"],
                 ["Bank Seq No", "Txn Date", "Amount", "Currency", "Payer", "Payee", "Status", "File Name", "Line No"])
  {
    if "Differences" in wb { HeaderReads(wb["Differences"], DIFFERENCES_HEADER); }
    if "WeDAP Source" in wb { HeaderReads(wb["WeDAP Source"], WEDAP_SOURCE_HEADER); }
    if "Bank Source" in wb { HeaderReads(wb["Bank Source"], BANK_SOURCE_HEADER); }
    hide HeaderIs, FirstRowReads;
  }

  lemma HeaderReads(sheet: seq<Row>, cols: seq<string>)
    ensures HeaderIs(sheet, cols) <==> FirstRowReads(sheet, cols)
  {
    if sheet != [] {
      var texts := seq(|sheet[0]|, i requires 0 <= i < |sheet[0]| => match sheet[0][i] case Null => "" case Value(t, _, _) => t);
      assert forall i :: 0 <= i < |sheet[0]| ==> texts[i] == Text(sheet[0][i]);
    }
  }

  predicate Empty(c: Cell) {
    c == Null || c.text == ""
  }

  predicate TextRead(c: Cell, t: Option<string>) {
    t == if Empty(c) then None else Some(c.text)
  }

  /** An empty cell is no amount; any other must be a finite number that fits the column. */
  predicate AmountRead(c: Cell, a: Option<Decimal>) {
    if Empty(c) then a == None
    else c.amount.Number? && c.amount.value.Finite? && Fits(c.amount.value, 17, 4) && a == Some(c.amount.value)
  }

  lemma DecReads(c: Cell, column: string, a: Option<Decimal>)
    ensures Dec(c, column) == Ok(a) <==> AmountRead(c, a)
    ensures Dec(c, column).Bad? ==> Dec(c, column) == Bad(DirtyAmount(column))
  {
    if !IsBlank(c) && c.amount.Number? {
      GuardMeetsSpec(c.amount.value, 17, 4);
    }
    hide Fits, ParseGuarded;
  }

  /** Column by column, what a row of the first sheet becomes. */
  predicate DiffRead(r: Row, d: DiffRow) {
    && |r| >= 8
    && d.diffType == (if Empty(r[0]) then "" else r[0].text)
    && TextRead(r[1], d.wedapBizSeqNo) && TextRead(r[2], d.bankSeqNo)
    && AmountRead(r[3], d.wedapAmount) && AmountRead(r[4], d.bankAmount) && AmountRead(r[5], d.diffAmount)
    && TextRead(r[6], d.wedapStatus) && TextRead(r[7], d.bankStatus)
  }

  predicate WedapRead(r: Row, w: WedapRow) {
    && |r| >= 9
    && TextRead(r[0], w.bizType) && w.bizSeqNo == (if Empty(r[1]) then "" else r[1].text) && TextRead(r[2], w.bankBizSeqNo)
    && AmountRead(r[3], w.amount) && TextRead(r[4], w.currency) && TextRead(r[5], w.payer) && TextRead(r[6], w.payee)
    && TextRead(r[7], w.status) && TextRead(r[8], w.error)
  }

  predicate BankRead(r: Row, b: BankRow) {
    && |r| >= 9
    && b.bankSeqNo == (if Empty(r[0]) then "" else r[0].text) && TextRead(r[1], b.txnDate)
    && AmountRead(r[2], b.amount) && TextRead(r[3], b.currency) && TextRead(r[4], b.payer) && TextRead(r[5], b.payee)
    && TextRead(r[6], b.status) && TextRead(r[7], b.fileName)
    && b.lineNo == (if Empty(r[8]) then None else r[8].integer)
  }

  lemma DiffReads(r: Row, d: DiffRow)
    ensures DiffOf(r) == Ok(d) <==> DiffRead(r, d)
  {
    if |r| >= 8 {
      DecReads(r[3], "wedap_amount", d.wedapAmount);
      DecReads(r[4], "bank_amount", d.bankAmount);
      DecReads(r[5], "diff_amount", d.diffAmount);
      hide AmountRead, Dec;
    }
  }

  lemma WedapReads(r: Row, w: WedapRow)
    ensures WedapOf(r) == Ok(w) <==> WedapRead(r, w)
  {
    if |r| >= 9 {
      DecReads(r[3], "amount", w.amount);
      hide AmountRead, Dec;
    }
  }

  lemma BankReads(r: Row, b: BankRow)
    ensures BankOf(r) == Ok(b) <==> BankRead(r, b)
  {
    if |r| >= 9 {
      DecReads(r[2], "amount", b.amount);
      hide AmountRead, Dec;
    }
  }

  /** What a refused row is refused for: it is too short, or its first amount that is not one. */
  lemma DiffRefused(r: Row)
    ensures DiffOf(r) == Bad(ShortRow) <==> |r| < 8
    ensures DiffOf(r) == Bad(DirtyAmount("wedap_amount")) <==> |r| >= 8 && (forall a :: !AmountRead(r[3], a))
    ensures DiffOf(r) == Bad(DirtyAmount("bank_amount")) <==>
              |r| >= 8 && (exists a :: AmountRead(r[3], a)) && (forall a :: !AmountRead(r[4], a))
    ensures DiffOf(r) == Bad(DirtyAmount("diff_amount")) <==>
              |r| >= 8 && (exists a :: AmountRead(r[3], a)) && (exists a :: AmountRead(r[4], a)) && (forall a :: !AmountRead(r[5], a))
  {
    if |r| >= 8 {
      DecRefuses(r[3], "wedap_amount");
      DecRefuses(r[4], "bank_amount");
      DecRefuses(r[5], "diff_amount");
      assert "wedap_amount"[0] != "bank_amount"[0] && "wedap_amount"[0] != "diff_amount"[0] && "bank_amount"[0] != "diff_amount"[0];
      hide AmountRead, Dec;
    }
  }

  lemma DecRefuses(c: Cell, column: string)
    ensures Dec(c, column) == Bad(DirtyAmount(column)) <==> forall a :: !AmountRead(c, a)
    ensures Dec(c, column).Ok? <==> exists a :: AmountRead(c, a)
  {
    if Dec(c, column).Ok? {
      DecReads(c, column, Dec(c, column).value);
    }
    forall a ensures AmountRead(c, a) ==> Dec(c, column) == Ok(a) {
      DecReads(c, column, a);
    }
    DecReads(c, column, None);
    hide AmountRead, Dec;
  }

  /** `values` is what `rows` read, one by one and in order. */
  predicate EachRead<T>(rows: seq<Row>, values: seq<T>, isRead: (Row, T) -> bool) {
    |values| == |rows| && forall i :: 0 <= i < |rows| ==> isRead(rows[i], values[i])
  }

  lemma ConvertReads<T(!new)>(convert: Row -> Converted<T>, rows: seq<Row>, values: seq<T>, isRead: (Row, T) -> bool)
    requires forall r, v :: convert(r) == Ok(v) <==> isRead(r, v)
    ensures ConvertAll(convert, rows) == Ok(values) <==> EachRead(rows, values, isRead)
  {
    ConvertsEachRow(convert, rows);
    if EachRead(rows, values, isRead) {
      forall i | 0 <= i < |rows| ensures convert(rows[i]) == Ok(values[i]) {
        assert isRead(rows[i], values[i]);
      }
      assert ConvertAll(convert, rows).value == values;
    }
  }

  /** A file lands exactly as its sheets read: the rows under each header that are not blank, each once and
      in order, column by column. */
  lemma LandsAsRead(wb: Workbook, l: Landing)
    requires HeadersOk(wb)
    ensures Convert(wb) == Ok(l) <==>
            && EachRead(DataRows(wb["Differences"]), l.diffs, DiffRead)
            && EachRead(DataRows(wb["WeDAP Source"]), l.wedaps, WedapRead)
            && EachRead(DataRows(wb["Bank Source"]), l.banks, BankRead)
  {
    forall r, d ensures DiffOf(r) == Ok(d) <==> DiffRead(r, d) { DiffReads(r, d); }
    forall r, w ensures WedapOf(r) == Ok(w) <==> WedapRead(r, w) { WedapReads(r, w); }
    forall r, b ensures BankOf(r) == Ok(b) <==> BankRead(r, b) { BankReads(r, b); }
    hide DiffRead, WedapRead, BankRead, DiffOf, WedapOf, BankOf, DataRows, HeadersOk;
    ConvertReads(DiffOf, DataRows(wb[DIFFERENCES]), l.diffs, DiffRead);
    ConvertReads(WedapOf, DataRows(wb[WEDAP_SOURCE]), l.wedaps, WedapRead);
    ConvertReads(BankOf, DataRows(wb[BANK_SOURCE]), l.banks, BankRead);
    hide EachRead, ConvertAll;
  }
}
