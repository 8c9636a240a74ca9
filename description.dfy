/** The tooltip markup of a node or an edge (`_generate_description`): an
    escaped title in a span, then a table with one row per entry, in the
    order of the entries. */
module Description {
  import opened Records
  import opened Html

  const TitleOpen := "<span class=\"topology-item-description\">"
  const TitleClose := "</span>"
  const TableTag := "<table class=\"topology-item-table\">"
  const RowOpen := "<tr>"
  const RowClose := "</tr>"
  /** What the source writes as '<table class="topology-item-table"><tr>'. */
  const TableOpen := TableTag + RowOpen
  /** The separator of the join, '</tr><tr>'. */
  const RowBreak := RowClose + RowOpen
  /** What the source writes as '</tr></table>'. */
  const TableClose := RowClose + "</table>"

  function TitleSpan(title: string): string {
    TitleOpen + Escape(title) + TitleClose
  }

  /** The header and data cells of one row; key and value are both escaped. */
  function Cells(e: Entry): string {
    "<th align=\"right\">" + Escape(e.key) + "</th><td>" + Escape(e.value) + "</td>"
  }

  /** `"</tr><tr>".join(cells)`. */
  function JoinCells(entries: seq<Entry>): string {
    if |entries| == 0 then ""
    else if |entries| == 1 then Cells(entries[0])
    else Cells(entries[0]) + RowBreak + JoinCells(entries[1..])
  }

  function Describe(title: string, entries: seq<Entry>): string {
    TitleSpan(title) + TableOpen + JoinCells(entries) + TableClose
  }

  /** Reference layout: every entry wrapped in its own table row. */
  function Rows(entries: seq<Entry>): string {
    if entries == [] then "" else RowOpen + Cells(entries[0]) + RowClose + Rows(entries[1..])
  }

  /** Closing a row and opening the next one around `c` and `j`. */
  lemma WrapAroundBreak(c: string, j: string)
    ensures RowOpen + (c + RowBreak + j) + RowClose == (RowOpen + c + RowClose) + (RowOpen + j + RowClose)
  {
  }

  /** Joining cells with row breaks inside one outer row is the same as
      giving every entry its own row. */
  lemma {:induction false} JoinedCellsAreRows(entries: seq<Entry>)
    requires entries != []
    ensures RowOpen + JoinCells(entries) + RowClose == Rows(entries)
  {
    if |entries| == 1 {
      assert entries[1..] == [];
      assert Rows(entries) == RowOpen + Cells(entries[0]) + RowClose + "";
    } else {
      var c := Cells(entries[0]);
      var j := JoinCells(entries[1..]);
      assert JoinCells(entries) == c + RowBreak + j;
      JoinedCellsAreRows(entries[1..]);
      WrapAroundBreak(c, j);
      assert Rows(entries) == RowOpen + c + RowClose + Rows(entries[1..]);
    }
  }

  /** Concatenation regrouped so that the rows sit between the table tag
      and its closing tag. */
  lemma RegroupRows(t: string, o: string, a: string, j: string, b: string, c: string)
    ensures t + (o + a) + j + (b + c) == t + o + (a + j + b) + c
  {
  }

  /** A tooltip with entries is the escaped title followed by a table with
      exactly one row per entry, in order. */
  lemma DescribeLayout(title: string, entries: seq<Entry>)
    requires entries != []
    ensures Describe(title, entries) == TitleSpan(title) + TableTag + Rows(entries) + "</table>"
  {
    JoinedCellsAreRows(entries);
    RegroupRows(TitleSpan(title), TableTag, RowOpen, JoinCells(entries), RowClose, "</table>");
  }

  /** Without entries the table still holds one empty row. */
  lemma DescribeNoEntries(title: string)
    ensures Describe(title, []) == TitleSpan(title) + TableTag + RowOpen + RowClose + "</table>"
  {
  }

  /** Concatenation regrouped so that the title prefix sits right after the
      opening of the title span. */
  lemma RegroupTitlePrefix(o: string, p: string, e: string, c: string, t1: string, j: string, t2: string)
    ensures o + (p + e) + c + t1 + j + t2 == o + p + (e + c + (t1 + j + t2))
  {
  }

  /** The tooltip of a title that starts with `prefix` (a prefix free of
      markup and ampersands) starts with the title span opening and `prefix`. */
  lemma DescribeTitlePrefix(prefix: string, rest: string, entries: seq<Entry>)
    requires forall k :: 0 <= k < |prefix| ==> prefix[k] != '&' && !IsMarkup(prefix[k])
    ensures Describe(prefix + rest, entries)
            == TitleOpen + prefix + (Escape(rest) + TitleClose + (TableOpen + JoinCells(entries) + TableClose))
  {
    EscapePlainPrefix(prefix, rest);
    RegroupTitlePrefix(TitleOpen, prefix, Escape(rest), TitleClose, TableOpen, JoinCells(entries), TableClose);
  }
}
