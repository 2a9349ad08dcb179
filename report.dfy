/** The PDF report of the listing, as the sequence of drawing calls it makes:
    the title, a rule, then for every filtered invoice a text line and a
    rule, then the total. The vertical cursor starts at 25 and only moves
    down; there is no page break. */
module Report {

  import opened Strings
  import opened Invoices

  /** A line of text in the report; LineText gives the exact string drawn. */
  datatype Line = Heading(title: string) | InvoiceRow(invoice: Invoice) | TotalRow(total: int)

  /** `doc.text(LineText(line), x, y)` and `doc.line(10, y, 200, y)`. */
  datatype DrawOp = Text(line: Line, x: int, y: int) | Rule(y: int)

  const BaseTitle := "Reporte de Facturas"

  /** The title: the month when one is selected, then the category when one
      is selected. */
  function Title(month: string, category: string): (t: string)
    ensures |t| == |BaseTitle| + (if month != "" then 5 + |month| else 0) + (if category != "" then 11 + |category| else 0)
    ensures t[..|BaseTitle|] == BaseTitle
    ensures month == "" && category == "" ==> t == BaseTitle
    ensures month != "" ==> t[|BaseTitle|..|BaseTitle| + 5 + |month|] == " mes " + month
    ensures category != "" ==> t[|t| - 11 - |category|..] == " categoría " + category
  {
    BaseTitle
    + (if month != "" then " mes " + month else "")
    + (if category != "" then " categoría " + category else "")
  }

  /** The string `doc.text` receives for a line. */
  function LineText(line: Line): (s: string)
    ensures line.Heading? ==> s == line.title
    ensures line.InvoiceRow? ==>
      var inv := line.invoice;
      |s| > 7 + |inv.date| + |IntText(inv.value)| && s[..7 + |inv.date|] == "Fecha: " + inv.date
      && s[|s| - |IntText(inv.value)|..] == IntText(inv.value)
    ensures line.TotalRow? ==> |s| > 7 && s[..7] == "Total: " && s[7..] == IntText(line.total)
  {
    match line
    case Heading(title) => title
    case InvoiceRow(inv) =>
      "Fecha: " + inv.date + " | Categoría: " + inv.category
      + " | Descripción: " + inv.description + " | Valor: " + IntText(inv.value)
    case TotalRow(total) => "Total: " + IntText(total)
  }

  /** The rows of the report: row i is drawn at 40 + 10 i and underlined at
      45 + 10 i. */
  function RowOps(rows: seq<Invoice>): (ops: seq<DrawOp>)
    ensures |ops| == 2 * |rows|
    decreases |rows|
  {
    if rows == [] then []
    else
      var n := |rows| - 1;
      RowOps(rows[..n]) + [Text(InvoiceRow(rows[n]), 10, 40 + 10 * n), Rule(45 + 10 * n)]
  }

  /** Every drawing call of the report, in order. */
  function ReportPlan(month: string, category: string, rows: seq<Invoice>, total: int): seq<DrawOp> {
    [Text(Heading(Title(month, category)), 60, 25), Rule(35)]
    + RowOps(rows)
    + [Text(TotalRow(total), 10, 50 + 10 * |rows|)]
  }

  /** The title of `generateReport`, built step by step. */
  method BuildTitle(month: string, category: string) returns (reportTitle: string)
    ensures reportTitle == Title(month, category)
  {
    reportTitle := BaseTitle;
    if month != "" {
      reportTitle := reportTitle + " mes " + month;
    }
    if category != "" {
      reportTitle := reportTitle + " categoría " + category;
    }
  }

  /** The `forEach` over the filtered invoices: a text line and a rule per
      invoice, each followed by a 5-unit step of the cursor. Below the title
      and its rule the cursor stands at 40, where RowOps places the rows. */
  method DrawRows(rows: seq<Invoice>, y0: int) returns (rowOps: seq<DrawOp>, y: int)
    requires y0 == 40
    ensures rowOps == RowOps(rows)
    ensures y == 40 + 10 * |rows|
  {
    y := y0;
    rowOps := [];
    assert rows[..0] == [];
    for i := 0 to |rows|
      invariant y == 40 + 10 * i
      invariant rowOps == RowOps(rows[..i])
    {
      assert rows[..i + 1][..i] == rows[..i];
      rowOps := rowOps + [Text(InvoiceRow(rows[i]), 10, y)];
      y := y + 5;
      rowOps := rowOps + [Rule(y)];
      y := y + 5;
    }
    assert rows[..|rows|] == rows;
  }

  /** `generateReport`: builds the title and walks the rows with a moving
      cursor. */
  method RenderReport(month: string, category: string, rows: seq<Invoice>, total: int)
    returns (ops: seq<DrawOp>)
    ensures ops == ReportPlan(month, category, rows, total)
  {
    var y := 25;
    var reportTitle := BuildTitle(month, category);
    ops := [Text(Heading(reportTitle), 60, y)];
    y := y + 10;
    ops := ops + [Rule(y)];
    y := y + 5;
    var rowOps, yAfter := DrawRows(rows, y);
    y := yAfter + 10;
    ops := ops + rowOps + [Text(TotalRow(total), 10, y)];
  }

  /** The vertical position of a drawing call. */
  function Y(op: DrawOp): int {
    match op
    case Text(_, _, y) => y
    case Rule(y) => y
  }

  /** The lines of text drawn, in order. */
  function Texts(ops: seq<DrawOp>): seq<Line>
    decreases |ops|
  {
    if ops == [] then []
    else (if ops[0].Text? then [ops[0].line] else []) + Texts(ops[1..])
  }

  lemma {:induction false} TextsAppend(a: seq<DrawOp>, b: seq<DrawOp>)
    ensures Texts(a + b) == Texts(a) + Texts(b)
    decreases |a|
  {
    if a == [] {
      assert a + b == b;
    } else {
      assert (a + b)[0] == a[0] && (a + b)[1..] == a[1..] + b;
      TextsAppend(a[1..], b);
    }
  }

  /** One invoice row per invoice, in list order. */
  function RowTexts(rows: seq<Invoice>): (lines: seq<Line>)
    ensures |lines| == |rows|
    ensures forall i | 0 <= i < |rows| :: lines[i] == InvoiceRow(rows[i])
  {
    seq(|rows|, i requires 0 <= i < |rows| => InvoiceRow(rows[i]))
  }

  lemma {:induction false} RowOpsTexts(rows: seq<Invoice>)
    ensures Texts(RowOps(rows)) == RowTexts(rows)
    decreases |rows|
  {
    if rows != [] {
      var n := |rows| - 1;
      RowOpsTexts(rows[..n]);
      var last := [Text(InvoiceRow(rows[n]), 10, 40 + 10 * n), Rule(45 + 10 * n)];
      TextsAppend(RowOps(rows[..n]), last);
      assert last[1..] == [Rule(45 + 10 * n)];
      assert Texts([Rule(45 + 10 * n)]) == [] by { assert [Rule(45 + 10 * n)][1..] == []; }
      assert RowTexts(rows) == RowTexts(rows[..n]) + [InvoiceRow(rows[n])];
    }
  }

  /** The report draws exactly the title, one line per filtered invoice in
      list order, and the total line: N + 2 texts for N invoices. */
  lemma ReportTexts(month: string, category: string, rows: seq<Invoice>, total: int)
    ensures Texts(ReportPlan(month, category, rows, total))
      == [Heading(Title(month, category))] + RowTexts(rows) + [TotalRow(total)]
    ensures |Texts(ReportPlan(month, category, rows, total))| == |rows| + 2
  {
    var head := [Text(Heading(Title(month, category)), 60, 25), Rule(35)];
    var tail := [Text(TotalRow(total), 10, 50 + 10 * |rows|)];
    TextsAppend(head + RowOps(rows), tail);
    TextsAppend(head, RowOps(rows));
    RowOpsTexts(rows);
    assert Texts(head) == [Heading(Title(month, category))] by {
      assert head[1..] == [Rule(35)];
      assert [Rule(35)][1..] == [];
    }
    assert Texts(tail) == [TotalRow(total)] by { assert tail[1..] == []; }
  }

  /** Row drawing call k sits at 40 + 5 k. */
  lemma {:induction false} RowOpsPositions(rows: seq<Invoice>)
    ensures forall k | 0 <= k < |RowOps(rows)| :: Y(RowOps(rows)[k]) == 40 + 5 * k
    decreases |rows|
  {
    if rows != [] {
      RowOpsPositions(rows[..|rows| - 1]);
    }
  }

  /** The cursor only moves down: every drawing call is strictly below the
      previous one, the title is at 25 and the total at 50 + 10 N. */
  lemma ReportCursor(month: string, category: string, rows: seq<Invoice>, total: int)
    ensures var ops := ReportPlan(month, category, rows, total);
      && Y(ops[0]) == 25
      && Y(ops[|ops| - 1]) == 50 + 10 * |rows|
      && forall i, j | 0 <= i < j < |ops| :: Y(ops[i]) < Y(ops[j])
  {
    var ops := ReportPlan(month, category, rows, total);
    RowOpsPositions(rows);
    forall k | 0 <= k < |ops|
      ensures Y(ops[k]) == if k == 0 then 25 else if k < |ops| - 1 then 30 + 5 * k else 50 + 10 * |rows|
    {
      if 2 <= k < |ops| - 1 {
        assert ops[k] == RowOps(rows)[k - 2];
      }
    }
  }
}
