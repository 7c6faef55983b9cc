/**
 * A full-width text widget that renders key/value pairs as a one-row
 * markdown table: a header row of keys, a separator row and a row of values.
 */
module KeyValueTable {
  import opened Strings
  import opened Widgets

  type Entry = (string, string)

  function Keys(data: seq<Entry>): (keys: seq<string>)
    ensures |keys| == |data| && forall i :: 0 <= i < |data| ==> keys[i] == data[i].0
  {
    seq(|data|, i requires 0 <= i < |data| => data[i].0)
  }

  function Values(data: seq<Entry>): (values: seq<string>)
    ensures |values| == |data| && forall i :: 0 <= i < |data| ==> values[i] == data[i].1
  {
    seq(|data|, i requires 0 <= i < |data| => data[i].1)
  }

  /** `| c1| c2...`: each cell appended after a `| ` marker. */
  function Row(cells: seq<string>): string
    decreases |cells|
  {
    if |cells| == 0 then "" else Row(cells[..|cells| - 1]) + "| " + cells[|cells| - 1]
  }

  /** `|---` once per column. */
  function SubHeaderRow(columns: nat): string
  {
    if columns == 0 then "" else SubHeaderRow(columns - 1) + "|---"
  }

  /**
   * The table: keys, separator and values, one line each. The separator
   * line has four characters per entry and sits between two line breaks.
   */
  function Markdown(data: seq<Entry>): (md: string)
    ensures var k := |Row(Keys(data))|;
      && |md| == k + 4 * |data| + 2 + |Row(Values(data))|
      && md[k] == '\n' && md[k + 1 + 4 * |data|] == '\n'
  {
    SubHeaderRowLength(|data|);
    Row(Keys(data)) + "\n" + SubHeaderRow(|data|) + "\n" + Row(Values(data))
  }

  /** Builds the three rows in one pass over the entries. */
  method ToMarkdown(data: seq<Entry>) returns (md: string)
    ensures md == Markdown(data)
  {
    var headerRow := "";
    var subHeaderRow := "";
    var valueRow := "";
    for i := 0 to |data|
      invariant headerRow == Row(Keys(data[..i]))
      invariant subHeaderRow == SubHeaderRow(i)
      invariant valueRow == Row(Values(data[..i]))
    {
      var (key, value) := data[i];
      assert Keys(data[..i + 1])[..i] == Keys(data[..i]);
      assert Values(data[..i + 1])[..i] == Values(data[..i]);
      headerRow := headerRow + "| " + key;
      subHeaderRow := subHeaderRow + "|---";
      valueRow := valueRow + "| " + value;
    }
    assert data[..|data|] == data;
    md := headerRow + "\n" + subHeaderRow + "\n" + valueRow;
  }

  /** The widget: full width, two units high, showing the table. */
  method KeyValueTableWidget(data: seq<Entry>) returns (w: Widget)
    ensures w.TextWidget? && w.width == FullWidth && w.height == 2
    ensures w.markdown == Markdown(data)
  {
    var md := ToMarkdown(data);
    w := TextWidget(FullWidth, 2, md);
  }

  /** Each column adds four characters to the separator row. */
  lemma {:induction false} SubHeaderRowLength(columns: nat)
    ensures |SubHeaderRow(columns)| == 4 * columns
  {
    if columns > 0 {
      SubHeaderRowLength(columns - 1);
    }
  }

  /**
   * One more entry extends each row by exactly its own segment and leaves
   * what was there before unchanged.
   */
  lemma AppendEntry(data: seq<Entry>, e: Entry)
    ensures Row(Keys(data + [e])) == Row(Keys(data)) + "| " + e.0
    ensures SubHeaderRow(|data + [e]|) == SubHeaderRow(|data|) + "|---"
    ensures Row(Values(data + [e])) == Row(Values(data)) + "| " + e.1
  {
    assert Keys(data + [e])[..|data|] == Keys(data);
    assert Values(data + [e])[..|data|] == Values(data);
  }

  /** No entries: three empty lines, that is two line breaks. */
  lemma EmptyTable()
    ensures Markdown([]) == "\n\n"
  {
  }

  predicate NoneContains(cells: seq<string>, c: char)
  {
    forall i :: 0 <= i < |cells| ==> c !in cells[i]
  }

  /** The cells of a row, each with the blank that follows its `|`. */
  function Padded(cells: seq<string>): (padded: seq<string>)
    ensures |padded| == |cells| && forall i :: 0 <= i < |cells| ==> padded[i] == " " + cells[i]
  {
    seq(|cells|, i requires 0 <= i < |cells| => " " + cells[i])
  }

  /** A row is its padded cells joined by `|`, after an empty leading piece. */
  lemma {:induction false} RowIsJoin(cells: seq<string>)
    ensures Row(cells) == Join([""] + Padded(cells), '|')
    decreases |cells|
  {
    if |cells| > 0 {
      var init := cells[..|cells| - 1];
      RowIsJoin(init);
      JoinSnoc([""] + Padded(init), " " + cells[|cells| - 1], '|');
      assert [""] + Padded(init) + [" " + cells[|cells| - 1]] == [""] + Padded(cells);
    }
  }

  /** Splitting a row on `|` recovers its cells when none holds a `|`. */
  lemma RowCells(cells: seq<string>)
    requires NoneContains(cells, '|')
    ensures Split(Row(cells), '|') == [""] + Padded(cells)
  {
    RowIsJoin(cells);
    var parts := [""] + Padded(cells);
    forall i | 0 <= i < |parts|
      ensures '|' !in parts[i]
    {
      if i > 0 {
        assert parts[i] == " " + cells[i - 1];
      }
    }
    SplitJoin(parts, '|');
  }

  /** A row holds a line break only if one of its cells does. */
  lemma {:induction false} RowSingleLine(cells: seq<string>)
    requires NoneContains(cells, '\n')
    ensures '\n' !in Row(cells)
    decreases |cells|
  {
    if |cells| > 0 {
      RowSingleLine(cells[..|cells| - 1]);
    }
  }

  lemma {:induction false} SubHeaderRowSingleLine(columns: nat)
    ensures '\n' !in SubHeaderRow(columns)
  {
    if columns > 0 {
      SubHeaderRowSingleLine(columns - 1);
    }
  }

  lemma ThreeLines(a: string, b: string, c: string)
    requires '\n' !in a && '\n' !in b && '\n' !in c
    ensures Split(a + "\n" + b + "\n" + c, '\n') == [a, b, c]
  {
    var bc := b + ['\n'] + c;
    SplitNoSeparator(c, '\n');
    SplitCons(b, c, '\n');
    assert Split(bc, '\n') == [b, c];
    SplitCons(a, bc, '\n');
    assert a + "\n" + b + "\n" + c == a + ['\n'] + bc;
  }

  /** Three rows of cells without line breaks, joined by line breaks. */
  lemma TableLines(keys: seq<string>, values: seq<string>)
    requires NoneContains(keys, '\n') && NoneContains(values, '\n')
    ensures Split(Row(keys) + "\n" + SubHeaderRow(|keys|) + "\n" + Row(values), '\n')
         == [Row(keys), SubHeaderRow(|keys|), Row(values)]
  {
    RowSingleLine(keys);
    RowSingleLine(values);
    SubHeaderRowSingleLine(|keys|);
    ThreeLines(Row(keys), SubHeaderRow(|keys|), Row(values));
  }

  /** The markdown is exactly three lines: keys, separator, values. */
  lemma MarkdownLines(data: seq<Entry>)
    requires NoneContains(Keys(data), '\n') && NoneContains(Values(data), '\n')
    ensures Split(Markdown(data), '\n') == [Row(Keys(data)), SubHeaderRow(|data|), Row(Values(data))]
  {
    TableLines(Keys(data), Values(data));
  }

  /** Padding is injective: equal padded rows come from equal cells. */
  lemma PaddedInjective(a: seq<string>, b: seq<string>)
    requires Padded(a) == Padded(b)
    ensures a == b
  {
    forall i | 0 <= i < |a|
      ensures a[i] == b[i]
    {
      assert (" " + a[i])[1..] == a[i];
      assert (" " + b[i])[1..] == b[i];
    }
  }

  predicate Plain(data: seq<Entry>)
  {
    NoneContains(Keys(data), '|') && NoneContains(Keys(data), '\n')
    && NoneContains(Values(data), '|') && NoneContains(Values(data), '\n')
  }

  /**
   * The table loses nothing: when no key or value holds `|` or a line
   * break, two entry lists with the same markdown are the same list.
   */
  lemma MarkdownInjective(d1: seq<Entry>, d2: seq<Entry>)
    requires Plain(d1) && Plain(d2)
    requires Markdown(d1) == Markdown(d2)
    ensures d1 == d2
  {
    MarkdownLines(d1);
    MarkdownLines(d2);
    RowCells(Keys(d1));
    RowCells(Keys(d2));
    RowCells(Values(d1));
    RowCells(Values(d2));
    assert Padded(Keys(d1)) == ([""] + Padded(Keys(d1)))[1..];
    assert Padded(Keys(d2)) == ([""] + Padded(Keys(d2)))[1..];
    assert Padded(Values(d1)) == ([""] + Padded(Values(d1)))[1..];
    assert Padded(Values(d2)) == ([""] + Padded(Values(d2)))[1..];
    PaddedInjective(Keys(d1), Keys(d2));
    PaddedInjective(Values(d1), Values(d2));
    forall i | 0 <= i < |d1|
      ensures d1[i] == d2[i]
    {
      assert d1[i].0 == Keys(d1)[i] && d1[i].1 == Values(d1)[i];
    }
  }
}
