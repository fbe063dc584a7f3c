/** The guest tables that the voucher endpoints splice into a template at
    `{{GUESTTABLE}}`: a header row and one row per booked guest or room,
    each row built from the parallel columns of `TABLEDATA`. */
module GuestTables {
  import opened Wrappers
  import opened Text

  /** `TABLEDATA`: column name to the column's cells, all as text. */
  type TableData = map<string, seq<string>>

  // ---------------------------------------------------------------------
  // Cells, rows and their HTML
  // ---------------------------------------------------------------------

  /** One `<th>` or `<td>` of a table, with the whitespace that precedes it
      in the source's string literal. */
  datatype Cell = Cell(lead: string, tag: string, style: string, text: string)

  const TableOpen := "<table style=\"border-collapse: collapse; width: 100%; border: 0px solid #dddddd; font-size:16px;\">"
  const CellStyle := "border: 0px solid #dddddd; text-align: center; padding: 8px;"
  /** The Room Type cell of the two standalone PDF tables has no space after
      `text-align:`. */
  const TightStyle := "border: 0px solid #dddddd; text-align:center; padding: 8px;"
  const GuestNameTitle := "Guest Name"

  /** A line break followed by 7, 8, 10, 12 or 16 spaces of indentation. */
  const Br7 := "\n       "
  const Br8 := "\n        "
  const Br10 := "\n          "
  const Br12 := "\n            "
  const Br16 := "\n                "

  function Th(lead: string, text: string): Cell { Cell(lead, "th", CellStyle, text) }
  function Td(lead: string, text: string): Cell { Cell(lead, "td", CellStyle, text) }
  function TdTight(lead: string, text: string): Cell { Cell(lead, "td", TightStyle, text) }

  function CellHtml(c: Cell): string {
    c.lead + "<" + c.tag + " style=\"" + c.style + "\">" + c.text + "</" + c.tag + ">"
  }

  function CellsHtml(cells: seq<Cell>): string {
    if cells == [] then "" else CellsHtml(cells[..|cells| - 1]) + CellHtml(cells[|cells| - 1])
  }

  /** `<tr>`, the cells, then `close` (the indentation) and `</tr>`. */
  function RowHtml(cells: seq<Cell>, close: string): string {
    "<tr>" + CellsHtml(cells) + close + "</tr>"
  }

  // ---------------------------------------------------------------------
  // Columns: `table_data.get(key, [""])[i]`
  // ---------------------------------------------------------------------

  /** `table_data.get(key, [""])`: an absent column reads as one empty cell. */
  function Column(td: TableData, key: string): seq<string> {
    if key in td then td[key] else [""]
  }

  /** Every one of `keys` has at least `n` cells. */
  predicate Covers(td: TableData, keys: seq<string>, n: nat) {
    forall j :: 0 <= j < |keys| ==> n <= |Column(td, keys[j])|
  }

  /** `keys[j]` is the first of `keys` whose column has no cell `i`. */
  predicate FirstShort(td: TableData, keys: seq<string>, i: nat, j: nat) {
    && j < |keys|
    && |Column(td, keys[j])| <= i
    && forall j' :: 0 <= j' < j ==> i < |Column(td, keys[j'])|
  }

  /** Cell `i` of each of `keys`, looked up in order; the first column too
      short to have it raises IndexError. */
  function CellsAt(td: TableData, keys: seq<string>, i: nat): (r: Result<seq<string>>)
    ensures r.Ok? <==> Covers(td, keys, i + 1)
    ensures r.Ok? ==> |r.value| == |keys| &&
                      forall j :: 0 <= j < |keys| ==> r.value[j] == Column(td, keys[j])[i]
    ensures r.Err? ==> exists j: nat :: FirstShort(td, keys, i, j) && r.error == ShortColumn(keys[j], i)
    decreases |keys|
  {
    if keys == [] then Ok([])
    else if |Column(td, keys[0])| <= i then
      assert FirstShort(td, keys, i, 0);
      Err(ShortColumn(keys[0], i))
    else
      var rest := CellsAt(td, keys[1..], i);
      if rest.Err? then
        var j: nat :| FirstShort(td, keys[1..], i, j) && rest.error == ShortColumn(keys[1..][j], i);
        assert FirstShort(td, keys, i, j + 1);
        Err(rest.error)
      else
        Ok([Column(td, keys[0])[i]] + rest.value)
  }

  // ---------------------------------------------------------------------
  // The six table layouts of the source
  // ---------------------------------------------------------------------

  /** Which builder a table comes from; a bulk layout records the once-per-
      table decision whether to show the Guest Name column. */
  datatype Layout =
    | Standalone                     // generate_guest_table
    | VoucherTest                    // generate_guest_table1, standalone branch
    | BulkVoucher(guestColumn: bool) // generate_guest_table1, "Bulk" branch
    | Mail                           // booking_confirmation1, inline
    | BulkMail(guestColumn: bool)    // booking_confirmation2, "Bulk" branch
    | MailTest                       // booking_confirmation2, standalone branch

  /** The columns a row reads, in the order the source evaluates them. */
  function Keys(layout: Layout): seq<string> {
    match layout
    case Standalone => ["GUESTNAME", "ROOMTYPE", "OCC", "MEALPLAN"]
    case VoucherTest => ["GUESTNAME", "ROOMTYPE", "OCC", "MEALPLAN"]
    case BulkVoucher(_) => ["GUESTNAME", "CHECKIN", "CHECKOUT", "ROOMTYPE", "OCC", "MEALPLAN", "QTY", "NIGHTS"]
    case Mail => ["GUESTNAME", "ROOMTYPE", "OCC", "MEALPLAN"]
    case BulkMail(_) => ["CHECKIN", "CHECKOUT", "QTY", "GUESTNAME", "ROOMTYPE", "OCC", "INCLUSION_SERVICES", "MEALPLAN", "NIGHTS"]
    case MailTest => ["GUESTNAME", "ROOMTYPE", "OCC", "INCLUSION_SERVICES", "MEALPLAN"]
  }

  /** The column whose length sets the number of rows. */
  function CountKey(layout: Layout): string {
    if layout.BulkMail? then "ROOMTYPE" else "GUESTNAME"
  }

  function HeaderCells(layout: Layout): seq<Cell> {
    match layout
    case Standalone =>
      [Th(Br8, "S.no"), Th(Br8, GuestNameTitle), Th(Br8, "Room Type"),
       Th(Br8, "Occupancy"), Th(Br8, "Meal Plan")]
    case VoucherTest =>
      [Th(Br12, "S.no"), Th(Br12, GuestNameTitle), Th(Br12, "Room Type"),
       Th(Br12, "Occupancy"), Th(Br12, "Meal Plan")]
    case BulkVoucher(g) =>
      [Th(Br12, "S.no")] + (if g then [Th("", GuestNameTitle)] else []) +
      [Th(Br12, "Check In & Out"), Th(Br12, "Description"), Th(Br12, "Nights")]
    case Mail =>
      [Th(Br8, "S.no"), Th(Br8, GuestNameTitle), Th(Br8, "Room Type"),
       Th(Br8, "Occupancy"), Th(Br8, "Meal Plan")]
    case BulkMail(g) =>
      [Th(Br8, "S.no")] + (if g then [Th(Br12, GuestNameTitle)] else []) +
      [Th(Br8, "Check In & Out"), Th(Br8, "Description"),
       Th(Br8, "Inclusion Services"), Th(Br8, "Nights")]
    case MailTest =>
      [Th(Br8, "S.no"), Th(Br8, GuestNameTitle), Th(Br8, "Room Type"),
       Th(Br8, "Occupancy"), Th(Br7, "Inclusion Services"), Th(Br8, "Meal Plan")]
  }

  /** The header: the table's opening tag and the header row. */
  function Header(layout: Layout): string {
    TableOpen + Br8 + RowHtml(HeaderCells(layout), Br8)
  }

  /** The cells of row `i` given the looked-up values `v` (in `Keys` order). */
  function RowCells(layout: Layout, i: nat, v: seq<string>): seq<Cell>
    requires |v| == |Keys(layout)|
  {
    var serial := NatToString(i + 1);
    match layout
    case Standalone =>
      [Td(Br12, serial), Td(Br12, v[0]), TdTight(Br12, v[1]), Td(Br12, v[2]), Td(Br12, v[3])]
    case VoucherTest =>
      [Td(Br16, serial), Td(Br16, v[0]), TdTight(Br16, v[1]), Td(Br16, v[2]), Td(Br16, v[3])]
    case BulkVoucher(g) =>
      [Td(Br16, serial)] + (if g then [Td("", v[0])] else []) +
      [Td(Br16, v[1] + " to " + v[2]),
       Td(Br16, v[3] + "-" + v[4] + "-" + v[5] + " x " + v[6]),
       Td(Br16, v[7])]
    case Mail =>
      [Td(Br12, serial), Td(Br12, v[0]), Td(Br12, v[1]), Td(Br12, v[2]), Td(Br12, v[3])]
    case BulkMail(g) =>
      [Td(Br12, serial)] + (if g then [Td("", v[3])] else []) +
      [Td(Br12, v[0] + " to " + v[1]),
       Td(Br12, v[4] + "-" + v[5] + "-" + v[7] + " x " + v[2]),
       Td(Br12, v[6]),
       Td(Br12, v[8])]
    case MailTest =>
      [Td(Br12, serial), Td(Br12, v[0]), Td(Br12, v[1]), Td(Br12, v[2]),
       Td(Br10, v[3]), Td(Br12, v[4])]
  }

  /** The indentation before a row's `</tr>`. */
  function RowClose(layout: Layout): string {
    if layout == Standalone || layout == Mail then Br8 else Br12
  }

  /** Row `i` as cells, or the IndexError of its first short column. */
  function Row(layout: Layout, td: TableData, i: nat): Result<seq<Cell>> {
    var v :- CellsAt(td, Keys(layout), i);
    Ok(RowCells(layout, i, v))
  }

  /** Row `i` as the HTML string the source builds. */
  function RowString(layout: Layout, td: TableData, i: nat): Result<string> {
    var cells :- Row(layout, td, i);
    Ok(RowHtml(cells, RowClose(layout)))
  }

  /** The `rows` list after `n` iterations of a loop whose row `i` is
      `rowAt(i)`; the first failing row ends the loop with its error. */
  function RowsUpTo(rowAt: nat -> Result<string>, n: nat): Result<seq<string>> {
    if n == 0 then Ok([])
    else
      var prev :- RowsUpTo(rowAt, n - 1);
      var row :- rowAt(n - 1);
      Ok(prev + [row])
  }

  /** The row function of a layout over a table. */
  function RowFn(layout: Layout, td: TableData): nat -> Result<string> {
    (i: nat) => RowString(layout, td, i)
  }

  /** The rows of a layout's table. */
  function Rows(layout: Layout, td: TableData, n: nat): Result<seq<string>> {
    RowsUpTo(RowFn(layout, td), n)
  }

  /** `header + "".join(rows) + "</table>"`. */
  function Table(layout: Layout, td: TableData, n: nat): Result<string> {
    var rows :- Rows(layout, td, n);
    Ok(Header(layout) + Concat(rows) + "</table>")
  }

  // ---------------------------------------------------------------------
  // The four builders
  // ---------------------------------------------------------------------

  /** `all(name and name.strip() for name in names)`. */
  function AllNamed(names: seq<string>): (r: bool)
    ensures r <==> forall i :: 0 <= i < |names| ==> Named(names[i])
  {
    if names == [] then true else Named(names[0]) && AllNamed(names[1..])
  }

  /** `not table_data or "GUESTNAME" not in table_data`. */
  predicate NoGuests(td: Option<TableData>) {
    td.None? || |td.value| == 0 || "GUESTNAME" !in td.value
  }

  /** `generate_guest_table`. */
  function GuestTable(td: Option<TableData>): Result<string> {
    if NoGuests(td) then Ok("")
    else Table(Standalone, td.value, |td.value["GUESTNAME"]|)
  }

  /** The layout `generate_guest_table1` picks for a booking type. */
  function Table1Layout(t: TableData, bookingType: Option<string>): Layout {
    if bookingType != Some("Bulk") then VoucherTest
    else BulkVoucher(AllNamed(Column(t, "GUESTNAME")))
  }

  /** `generate_guest_table1`. */
  function GuestTable1(td: Option<TableData>, bookingType: Option<string>): Result<string> {
    if NoGuests(td) then Ok("")
    else Table(Table1Layout(td.value, bookingType), td.value, |td.value["GUESTNAME"]|)
  }

  /** The inline table of `booking_confirmation1`: `TABLEDATA["GUESTNAME"]`
      is read without a guard. */
  function MailGuestTable(td: Option<TableData>): Result<string> {
    if td.None? then Err(NoTableData)
    else if "GUESTNAME" !in td.value then Err(MissingColumn("GUESTNAME"))
    else Table(Mail, td.value, |td.value["GUESTNAME"]|)
  }

  /** The layout `booking_confirmation2` picks for a booking type. */
  function MailTestLayout(t: TableData, bookingType: Option<string>): Layout {
    if bookingType == Some("Bulk") then BulkMail(AllNamed(Column(t, "GUESTNAME"))) else MailTest
  }

  /** The inline tables of `booking_confirmation2`. The bulk branch reads
      `GUESTNAME` (for the column decision) and then `ROOMTYPE` (for the row
      count) without a guard. */
  function MailTestGuestTable(td: Option<TableData>, bookingType: Option<string>): Result<string> {
    if td.None? then Err(NoTableData)
    else if "GUESTNAME" !in td.value then Err(MissingColumn("GUESTNAME"))
    else if bookingType == Some("Bulk") && "ROOMTYPE" !in td.value then Err(MissingColumn("ROOMTYPE"))
    else
      var layout := MailTestLayout(td.value, bookingType);
      Table(layout, td.value, |td.value[CountKey(layout)]|)
  }

  // ---------------------------------------------------------------------
  // The loops that grow the table
  // ---------------------------------------------------------------------

  /** Once a row has failed, every longer loop fails with the same error. */
  lemma {:induction false} RowsErrPersists(rowAt: nat -> Result<string>, i: nat, n: nat)
    requires i <= n && RowsUpTo(rowAt, i).Err?
    ensures RowsUpTo(rowAt, n) == RowsUpTo(rowAt, i)
    decreases n - i
  {
    if i < n {
      RowsErrPersists(rowAt, i, n - 1);
    }
  }

  /** `rows = []; for i ...: rows.append(row)`. */
  method CollectRows(rowAt: nat -> Result<string>, n: nat) returns (r: Result<seq<string>>)
    ensures r == RowsUpTo(rowAt, n)
  {
    var rows: seq<string> := [];
    var i := 0;
    while i < n
      invariant i <= n
      invariant RowsUpTo(rowAt, i) == Ok(rows)
    {
      var row := rowAt(i);
      if row.Err? {
        RowsErrPersists(rowAt, i + 1, n);
        return Err(row.error);
      }
      rows := rows + [row.value];
      i := i + 1;
    }
    r := Ok(rows);
  }

  /** `for i ...: table += new_row`, starting from `table`. */
  method AppendRows(rowAt: nat -> Result<string>, n: nat, table: string) returns (r: Result<string>)
    ensures RowsUpTo(rowAt, n).Err? ==> r == Err(RowsUpTo(rowAt, n).error)
    ensures RowsUpTo(rowAt, n).Ok? ==> r == Ok(table + Concat(RowsUpTo(rowAt, n).value))
  {
    var acc := table;
    var i := 0;
    while i < n
      invariant i <= n
      invariant RowsUpTo(rowAt, i).Ok? && acc == table + Concat(RowsUpTo(rowAt, i).value)
    {
      var row := rowAt(i);
      if row.Err? {
        RowsErrPersists(rowAt, i + 1, n);
        return Err(row.error);
      }
      ghost var rows := RowsUpTo(rowAt, i).value;
      assert RowsUpTo(rowAt, i + 1).value == rows + [row.value];
      assert (rows + [row.value])[..|rows|] == rows;
      acc := acc + row.value;
      i := i + 1;
    }
    r := Ok(acc);
  }

  /** `generate_guest_table`. */
  method GenerateGuestTable(td: Option<TableData>) returns (r: Result<string>)
    ensures r == GuestTable(td)
  {
    if td.None? || |td.value| == 0 || "GUESTNAME" !in td.value {
      return Ok("");
    }
    var rows :- CollectRows(RowFn(Standalone, td.value), |td.value["GUESTNAME"]|);
    r := Ok(Header(Standalone) + Concat(rows) + "</table>");
  }

  /** `generate_guest_table1`. */
  method GenerateGuestTable1(td: Option<TableData>, bookingType: Option<string>) returns (r: Result<string>)
    ensures r == GuestTable1(td, bookingType)
  {
    if td.None? || |td.value| == 0 || "GUESTNAME" !in td.value {
      return Ok("");
    }
    var t := td.value;
    var layout;
    if bookingType != Some("Bulk") {
      layout := VoucherTest;
    } else {
      var includeGuestNameColumn := AllNamed(t["GUESTNAME"]);
      layout := BulkVoucher(includeGuestNameColumn);
    }
    var rows :- CollectRows(RowFn(layout, t), |t["GUESTNAME"]|);
    r := Ok(Header(layout) + Concat(rows) + "</table>");
  }

  /** The inline table of `booking_confirmation1`, grown with `+=`. */
  method BuildMailTable(td: Option<TableData>) returns (r: Result<string>)
    ensures r == MailGuestTable(td)
  {
    if td.None? {
      return Err(NoTableData);
    }
    if "GUESTNAME" !in td.value {
      return Err(MissingColumn("GUESTNAME"));
    }
    var t := td.value;
    var table :- AppendRows(RowFn(Mail, t), |t["GUESTNAME"]|, Header(Mail));
    r := Ok(table + "</table>");
  }

  /** The inline tables of `booking_confirmation2`: the bulk one joins a
      `rows` list, the standalone one grows `table` with `+=`. */
  method BuildMailTestTable(td: Option<TableData>, bookingType: Option<string>) returns (r: Result<string>)
    ensures r == MailTestGuestTable(td, bookingType)
  {
    if td.None? {
      return Err(NoTableData);
    }
    var t := td.value;
    if "GUESTNAME" !in t {
      return Err(MissingColumn("GUESTNAME"));
    }
    if bookingType == Some("Bulk") {
      var includeGuestNameColumn := AllNamed(t["GUESTNAME"]);
      if "ROOMTYPE" !in t {
        return Err(MissingColumn("ROOMTYPE"));
      }
      var layout := BulkMail(includeGuestNameColumn);
      var rows :- CollectRows(RowFn(layout, t), |t["ROOMTYPE"]|);
      r := Ok(Header(layout) + Concat(rows) + "</table>");
    } else {
      var table :- AppendRows(RowFn(MailTest, t), |t["GUESTNAME"]|, Header(MailTest));
      r := Ok(table + "</table>");
    }
  }

  // ---------------------------------------------------------------------
  // Properties of the tables
  // ---------------------------------------------------------------------

  /** The loop succeeds exactly when every row does, and then yields each
      row at its index. */
  lemma {:induction false} RowsUpToSpec(rowAt: nat -> Result<string>, n: nat)
    ensures RowsUpTo(rowAt, n).Ok? <==> forall i :: 0 <= i < n ==> rowAt(i).Ok?
    ensures RowsUpTo(rowAt, n).Ok? ==>
      |RowsUpTo(rowAt, n).value| == n &&
      forall i :: 0 <= i < n ==> RowsUpTo(rowAt, n).value[i] == rowAt(i).value
  {
    if n > 0 {
      RowsUpToSpec(rowAt, n - 1);
    }
  }

  /** A failing loop fails with the error of its first failing row. */
  lemma {:induction false} FirstFailingRow(rowAt: nat -> Result<string>, n: nat) returns (i: nat)
    requires RowsUpTo(rowAt, n).Err?
    ensures i < n && rowAt(i).Err? && forall i' :: 0 <= i' < i ==> rowAt(i').Ok?
    ensures RowsUpTo(rowAt, n).error == rowAt(i).error
  {
    assert n != 0;
    if RowsUpTo(rowAt, n - 1).Err? {
      i := FirstFailingRow(rowAt, n - 1);
    } else {
      RowsUpToSpec(rowAt, n - 1);
      i := n - 1;
    }
  }

  /** Row `i` of a layout succeeds exactly when every column it reads has
      a cell `i`, and otherwise fails with the lookup's IndexError. */
  lemma RowStringOk(layout: Layout, td: TableData, i: nat)
    ensures RowFn(layout, td)(i) == RowString(layout, td, i)
    ensures RowString(layout, td, i).Ok? <==> Covers(td, Keys(layout), i + 1)
    ensures RowString(layout, td, i).Ok? ==>
      Row(layout, td, i).Ok? && RowString(layout, td, i).value == RowHtml(Row(layout, td, i).value, RowClose(layout))
    ensures RowString(layout, td, i).Err? ==> RowString(layout, td, i).error == CellsAt(td, Keys(layout), i).error
  {
  }

  /** A table's loop succeeds exactly when every column a row reads has at
      least `n` cells; it then yields one row per index, in order, each the
      HTML of that index's cells. */
  lemma RowsSpec(layout: Layout, td: TableData, n: nat)
    ensures Rows(layout, td, n).Ok? <==> Covers(td, Keys(layout), n)
    ensures Rows(layout, td, n).Ok? ==>
      var rows := Rows(layout, td, n).value;
      && |rows| == n
      && forall i :: 0 <= i < n ==>
           Row(layout, td, i).Ok? && rows[i] == RowHtml(Row(layout, td, i).value, RowClose(layout))
  {
    var f := RowFn(layout, td);
    RowsUpToSpec(f, n);
    forall i | 0 <= i < n {
      RowStringOk(layout, td, i);
    }
    if n > 0 && Covers(td, Keys(layout), n) {
      forall i | 0 <= i < n ensures f(i).Ok? {
        assert Covers(td, Keys(layout), i + 1);
      }
    }
    if n > 0 && RowsUpTo(f, n).Ok? {
      assert f(n - 1).Ok?;
    }
  }

  /** A failing table fails at its shortest column: at the first index `i`
      that some column lacks, with the first such column in evaluation
      order. */
  lemma RowsError(layout: Layout, td: TableData, n: nat) returns (i: nat, j: nat)
    requires Rows(layout, td, n).Err?
    ensures i < n && Covers(td, Keys(layout), i) && FirstShort(td, Keys(layout), i, j)
    ensures Rows(layout, td, n).error == ShortColumn(Keys(layout)[j], i)
  {
    var f := RowFn(layout, td);
    var keys := Keys(layout);
    i := FirstFailingRow(f, n);
    RowStringOk(layout, td, i);
    j :| FirstShort(td, keys, i, j) && CellsAt(td, keys, i).error == ShortColumn(keys[j], i);
    if i > 0 {
      assert f(i - 1).Ok?;
      RowStringOk(layout, td, i - 1);
    }
    assert Covers(td, keys, i);
  }

  /** The looked-up values a successful row is built from. */
  lemma RowValues(layout: Layout, td: TableData, i: nat) returns (v: seq<string>)
    requires Row(layout, td, i).Ok?
    ensures |v| == |Keys(layout)| && Row(layout, td, i).value == RowCells(layout, i, v)
    ensures forall j :: 0 <= j < |v| ==> v[j] == Column(td, Keys(layout)[j])[i]
  {
    v := CellsAt(td, Keys(layout), i).value;
  }

  /** The standalone row of `generate_guest_table`: serial, guest, room
      type, occupancy and meal plan of index `i`, the serial reading back as
      `i + 1`. */
  lemma StandaloneRow(td: TableData, i: nat)
    ensures Row(Standalone, td, i).Ok? ==>
      var c := Row(Standalone, td, i).value;
      && |c| == 5
      && c[0].text == NatToString(i + 1) && ParseDecimal(c[0].text) == i + 1
      && c[1].text == Column(td, "GUESTNAME")[i]
      && c[2].text == Column(td, "ROOMTYPE")[i]
      && c[3].text == Column(td, "OCC")[i]
      && c[4].text == Column(td, "MEALPLAN")[i]
  {
    if Row(Standalone, td, i).Ok? {
      var v := RowValues(Standalone, td, i);
      ParseNatToString(i + 1);
    }
  }

  /** The standalone row of `generate_guest_table1`: the same cells. */
  lemma VoucherTestRow(td: TableData, i: nat)
    ensures Row(VoucherTest, td, i).Ok? ==>
      var c := Row(VoucherTest, td, i).value;
      && |c| == 5
      && c[0].text == NatToString(i + 1) && ParseDecimal(c[0].text) == i + 1
      && c[1].text == Column(td, "GUESTNAME")[i]
      && c[2].text == Column(td, "ROOMTYPE")[i]
      && c[3].text == Column(td, "OCC")[i]
      && c[4].text == Column(td, "MEALPLAN")[i]
  {
    if Row(VoucherTest, td, i).Ok? {
      var v := RowValues(VoucherTest, td, i);
      ParseNatToString(i + 1);
    }
  }

  /** The row of `booking_confirmation1`: the same cells. */
  lemma MailRow(td: TableData, i: nat)
    ensures Row(Mail, td, i).Ok? ==>
      var c := Row(Mail, td, i).value;
      && |c| == 5
      && c[0].text == NatToString(i + 1) && ParseDecimal(c[0].text) == i + 1
      && c[1].text == Column(td, "GUESTNAME")[i]
      && c[2].text == Column(td, "ROOMTYPE")[i]
      && c[3].text == Column(td, "OCC")[i]
      && c[4].text == Column(td, "MEALPLAN")[i]
  {
    if Row(Mail, td, i).Ok? {
      var v := RowValues(Mail, td, i);
      ParseNatToString(i + 1);
    }
  }

  /** The standalone row of `booking_confirmation2` adds the inclusion
      services between occupancy and meal plan. */
  lemma MailTestRow(td: TableData, i: nat)
    ensures Row(MailTest, td, i).Ok? ==>
      var c := Row(MailTest, td, i).value;
      && |c| == 6
      && c[0].text == NatToString(i + 1) && ParseDecimal(c[0].text) == i + 1
      && c[1].text == Column(td, "GUESTNAME")[i]
      && c[2].text == Column(td, "ROOMTYPE")[i]
      && c[3].text == Column(td, "OCC")[i]
      && c[4].text == Column(td, "INCLUSION_SERVICES")[i]
      && c[5].text == Column(td, "MEALPLAN")[i]
  {
    if Row(MailTest, td, i).Ok? {
      var v := RowValues(MailTest, td, i);
      ParseNatToString(i + 1);
    }
  }

  /** A bulk PDF row: serial, the guest only when the column is shown, the
      stay as `CHECKIN to CHECKOUT`, the description as
      `ROOMTYPE-OCC-MEALPLAN x QTY`, and the nights. */
  lemma BulkVoucherRow(g: bool, td: TableData, i: nat)
    ensures Row(BulkVoucher(g), td, i).Ok? ==>
      var c := Row(BulkVoucher(g), td, i).value;
      var o := if g then 1 else 0;
      && |c| == 4 + o
      && c[0].text == NatToString(i + 1) && ParseDecimal(c[0].text) == i + 1
      && (g ==> c[1].text == Column(td, "GUESTNAME")[i])
      && c[1 + o].text == Column(td, "CHECKIN")[i] + " to " + Column(td, "CHECKOUT")[i]
      && c[2 + o].text == Column(td, "ROOMTYPE")[i] + "-" + Column(td, "OCC")[i] + "-" +
                          Column(td, "MEALPLAN")[i] + " x " + Column(td, "QTY")[i]
      && c[3 + o].text == Column(td, "NIGHTS")[i]
  {
    if Row(BulkVoucher(g), td, i).Ok? {
      var v := RowValues(BulkVoucher(g), td, i);
      ParseNatToString(i + 1);
    }
  }

  /** A bulk mail row: as the bulk PDF row, with the inclusion services
      before the nights. */
  lemma BulkMailRow(g: bool, td: TableData, i: nat)
    ensures Row(BulkMail(g), td, i).Ok? ==>
      var c := Row(BulkMail(g), td, i).value;
      var o := if g then 1 else 0;
      && |c| == 5 + o
      && c[0].text == NatToString(i + 1) && ParseDecimal(c[0].text) == i + 1
      && (g ==> c[1].text == Column(td, "GUESTNAME")[i])
      && c[1 + o].text == Column(td, "CHECKIN")[i] + " to " + Column(td, "CHECKOUT")[i]
      && c[2 + o].text == Column(td, "ROOMTYPE")[i] + "-" + Column(td, "OCC")[i] + "-" +
                          Column(td, "MEALPLAN")[i] + " x " + Column(td, "QTY")[i]
      && c[3 + o].text == Column(td, "INCLUSION_SERVICES")[i]
      && c[4 + o].text == Column(td, "NIGHTS")[i]
  {
    if Row(BulkMail(g), td, i).Ok? {
      var v := RowValues(BulkMail(g), td, i);
      ParseNatToString(i + 1);
    }
  }

  /** The header has a Guest Name cell. */
  predicate HasGuestHeader(layout: Layout) {
    exists j :: 0 <= j < |HeaderCells(layout)| && HeaderCells(layout)[j].text == GuestNameTitle
  }

  /** In a bulk layout the Guest Name column is all or nothing: the header
      has it exactly when the layout's decision says so, and so has every
      row, which then holds one cell more. */
  lemma BulkGuestColumn(layout: Layout, td: TableData, i: nat)
    requires layout.BulkVoucher? || layout.BulkMail?
    ensures HasGuestHeader(layout) <==> layout.guestColumn
    ensures Row(layout, td, i).Ok? ==>
      |Row(layout, td, i).value| == (if layout.BulkVoucher? then 4 else 5) + (if layout.guestColumn then 1 else 0)
  {
    var h := HeaderCells(layout);
    if layout.guestColumn {
      assert h[1].text == GuestNameTitle;
    } else {
      forall j | 0 <= j < |h| ensures h[j].text != GuestNameTitle {
        assert |h[j].text| != |GuestNameTitle|;
      }
    }
  }

  /** Both PDF builders give `""` exactly when there is no table data or no
      `GUESTNAME` column. */
  lemma EmptyGuestTables(td: Option<TableData>, bookingType: Option<string>)
    ensures GuestTable(td) == Ok("") <==> NoGuests(td)
    ensures GuestTable1(td, bookingType) == Ok("") <==> NoGuests(td)
  {
    if !NoGuests(td) {
      var t := td.value;
      var n := |t["GUESTNAME"]|;
      var layout := Table1Layout(t, bookingType);
      if Table(Standalone, t, n).Ok? {
        assert |Table(Standalone, t, n).value| >= |TableOpen|;
      }
      if Table(layout, t, n).Ok? {
        assert |Table(layout, t, n).value| >= |TableOpen|;
      }
    }
  }

  /** `generate_guest_table` raises IndexError exactly when room type,
      occupancy or meal plan has fewer cells than there are guests; it
      then has one row per guest, in order. */
  lemma GuestTableRows(td: Option<TableData>)
    requires !NoGuests(td)
    ensures var t := td.value; var n := |t["GUESTNAME"]|;
      && (GuestTable(td).Ok? <==> Covers(t, ["ROOMTYPE", "OCC", "MEALPLAN"], n))
      && (GuestTable(td).Ok? ==>
            Rows(Standalone, t, n).Ok? && |Rows(Standalone, t, n).value| == n &&
            GuestTable(td).value == Header(Standalone) + Concat(Rows(Standalone, t, n).value) + "</table>")
  {
    var t := td.value;
    var n := |t["GUESTNAME"]|;
    RowsSpec(Standalone, t, n);
    assert Covers(t, Keys(Standalone), n) <==> Covers(t, ["ROOMTYPE", "OCC", "MEALPLAN"], n) by {
      assert Keys(Standalone) == ["GUESTNAME"] + ["ROOMTYPE", "OCC", "MEALPLAN"];
    }
  }

  /** For a Bulk booking, `generate_guest_table1` shows the Guest Name
      column exactly when every guest name is non-blank (so always for an
      empty list), and a failing table fails at its shortest column. */
  lemma GuestTable1Bulk(td: Option<TableData>)
    requires !NoGuests(td)
    ensures var t := td.value;
      && Table1Layout(t, Some("Bulk")).BulkVoucher?
      && (HasGuestHeader(Table1Layout(t, Some("Bulk"))) <==>
            forall i :: 0 <= i < |t["GUESTNAME"]| ==> Named(t["GUESTNAME"][i]))
      && (t["GUESTNAME"] == [] ==> HasGuestHeader(Table1Layout(t, Some("Bulk"))))
  {
    var t := td.value;
    BulkGuestColumn(Table1Layout(t, Some("Bulk")), t, 0);
  }

  /** The mail builders fail on missing table data or a missing
      `GUESTNAME` column; otherwise exactly when a column is short. */
  lemma MailGuestTableOk(td: Option<TableData>, bookingType: Option<string>)
    ensures MailGuestTable(td).Ok? <==>
      td.Some? && "GUESTNAME" in td.value && Covers(td.value, Keys(Mail), |td.value["GUESTNAME"]|)
    ensures bookingType != Some("Bulk") ==>
      (MailTestGuestTable(td, bookingType).Ok? <==>
         td.Some? && "GUESTNAME" in td.value && Covers(td.value, Keys(MailTest), |td.value["GUESTNAME"]|))
    ensures td.None? ==> MailGuestTable(td) == Err(NoTableData) && MailTestGuestTable(td, bookingType) == Err(NoTableData)
  {
    if td.Some? && "GUESTNAME" in td.value {
      RowsSpec(Mail, td.value, |td.value["GUESTNAME"]|);
      RowsSpec(MailTest, td.value, |td.value["GUESTNAME"]|);
    }
  }

  /** The bulk table of `booking_confirmation2` fails without table data
      (TypeError), without `GUESTNAME` or `ROOMTYPE` (KeyError), and
      otherwise exactly when a column it reads is shorter than `ROOMTYPE`. */
  lemma MailTestBulkTableOk(td: Option<TableData>)
    ensures MailTestGuestTable(td, Some("Bulk")).Ok? <==>
      && td.Some? && "GUESTNAME" in td.value && "ROOMTYPE" in td.value
      && Covers(td.value, Keys(BulkMail(AllNamed(td.value["GUESTNAME"]))), |td.value["ROOMTYPE"]|)
    ensures td.Some? && "GUESTNAME" !in td.value ==>
      MailTestGuestTable(td, Some("Bulk")) == Err(MissingColumn("GUESTNAME"))
    ensures td.Some? && "GUESTNAME" in td.value && "ROOMTYPE" !in td.value ==>
      MailTestGuestTable(td, Some("Bulk")) == Err(MissingColumn("ROOMTYPE"))
  {
    if td.Some? && "GUESTNAME" in td.value && "ROOMTYPE" in td.value {
      var t := td.value;
      RowsSpec(MailTestLayout(t, Some("Bulk")), t, |t["ROOMTYPE"]|);
    }
  }

  /** The bulk mail table has one row per `ROOMTYPE` entry, and succeeds only
      if every other column it reads, `GUESTNAME` included, is at least that
      long. */
  lemma MailTestBulkRows(td: Option<TableData>)
    requires MailTestGuestTable(td, Some("Bulk")).Ok?
    ensures var t := td.value; var layout := MailTestLayout(t, Some("Bulk"));
      && "GUESTNAME" in t && "ROOMTYPE" in t
      && layout == BulkMail(AllNamed(t["GUESTNAME"]))
      && |t["GUESTNAME"]| >= |t["ROOMTYPE"]|
      && Rows(layout, t, |t["ROOMTYPE"]|).Ok?
      && |Rows(layout, t, |t["ROOMTYPE"]|).value| == |t["ROOMTYPE"]|
  {
    var t := td.value;
    var layout := MailTestLayout(t, Some("Bulk"));
    RowsSpec(layout, t, |t["ROOMTYPE"]|);
    assert Keys(layout)[3] == "GUESTNAME";
  }
}
