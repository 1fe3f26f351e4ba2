/** The simplified XML text the slide tools return for one slide: one shape
    element per shape, numbered from 0, holding a text-frame block with one
    line per paragraph and a table block with one row element per row and
    one cell line per cell. Text is inserted as it is, without escaping. */
module SlideRendering {
  import opened Common
  import opened Documents

  const SlideTag := "<slide>\n"
  const ShapesTag := "  <shapes>\n"
  const ShapesEndTag := "  </shapes>\n"
  const SlideEndTag := "</slide>"
  const SlideOpen := SlideTag + ShapesTag
  const SlideClose := ShapesEndTag + SlideEndTag
  const TextOpen := "      <text_frame>\n"
  const TextClose := "      </text_frame>\n"
  const TableOpen := "      <table>\n"
  const TableClose := "      </table>\n"
  const RowOpen := "        <row>\n"
  const RowClose := "        </row>\n"
  const ShapeClose := "    </shape>\n"

  /** The concatenation of `render` applied to each element, left to right. */
  function Join<T>(xs: seq<T>, render: T -> string): string
  {
    if |xs| == 0 then "" else Join(xs[..|xs| - 1], render) + render(xs[|xs| - 1])
  }

  function ParagraphLine(text: string): string
  {
    "        <paragraph>" + text + "</paragraph>\n"
  }

  /** A cell without a text frame is rendered with empty text. */
  function CellText(cell: Cell): string
  {
    if cell.textFrame.Some? then cell.textFrame.value else ""
  }

  function CellLine(cell: Cell): string
  {
    "          <cell>" + CellText(cell) + "</cell>\n"
  }

  function RowXml(cells: seq<Cell>): string
  {
    RowOpen + Join(cells, CellLine) + RowClose
  }

  function TextBlock(textFrame: Option<seq<string>>): string
  {
    if textFrame.Some? then TextOpen + Join(textFrame.value, ParagraphLine) + TextClose else ""
  }

  function TableBlock(table: Option<seq<seq<Cell>>>): string
  {
    if table.Some? then TableOpen + Join(table.value, RowXml) + TableClose else ""
  }

  function ShapeOpen(id: nat, typeName: string): string
  {
    "    <shape id='" + NatToString(id) + "' type='" + typeName + "'>\n"
  }

  function ShapeXml(id: nat, shape: Shape): string
  {
    ShapeOpen(id, shape.typeName) + TextBlock(shape.textFrame) + TableBlock(shape.table) + ShapeClose
  }

  /** The concatenation of `render` applied to each element and its number,
      the first element being numbered `first`. */
  function Numbered<T>(xs: seq<T>, first: nat, render: (nat, T) -> string): string
  {
    if |xs| == 0 then ""
    else Numbered(xs[..|xs| - 1], first, render) + render(first + |xs| - 1, xs[|xs| - 1])
  }

  /** The shape elements of `shapes`, the first numbered `first`. */
  function Shapes(shapes: seq<Shape>, first: nat): string
  {
    Numbered(shapes, first, ShapeXml)
  }

  /** create_slide_xml: the text always opens with the slide and shapes tags
      and closes with them. */
  function SlideXml(slide: Slide): string
  {
    SlideOpen + Shapes(slide.shapes, 0) + SlideClose
  }

  /** Element k's rendering sits between the renderings of the elements
      before it and those after it. */
  lemma {:induction false} JoinAt<T>(xs: seq<T>, k: nat, render: T -> string)
    requires k < |xs|
    ensures Join(xs, render) == Join(xs[..k], render) + render(xs[k]) + Join(xs[k + 1..], render)
    decreases |xs|
  {
    var n := |xs| - 1;
    if k < n {
      var init := xs[..n];
      assert Join(init, render) == Join(xs[..k], render) + render(xs[k]) + Join(init[k + 1..], render) by {
        JoinAt(init, k, render);
        assert init[..k] == xs[..k] && init[k] == xs[k];
      }
      assert Join(xs[k + 1..], render) == Join(init[k + 1..], render) + render(xs[n]) by {
        var after := xs[k + 1..];
        assert after[..|after| - 1] == init[k + 1..] && after[|after| - 1] == xs[n];
      }
      assert Join(xs, render) == Join(init, render) + render(xs[n]);
      Concat3(Join(xs[..k], render) + render(xs[k]), Join(init[k + 1..], render), render(xs[n]));
    } else {
      assert xs[k + 1..] == [];
    }
  }

  /** Element k's rendering, numbered first + k, sits between the
      renderings of the elements before it and those after it. */
  lemma {:induction false} NumberedAt<T>(xs: seq<T>, k: nat, first: nat, render: (nat, T) -> string)
    requires k < |xs|
    ensures Numbered(xs, first, render)
         == Numbered(xs[..k], first, render) + render(first + k, xs[k]) + Numbered(xs[k + 1..], first + k + 1, render)
    decreases |xs|
  {
    var n := |xs| - 1;
    if k < n {
      var init := xs[..n];
      assert Numbered(init, first, render)
          == Numbered(xs[..k], first, render) + render(first + k, xs[k]) + Numbered(init[k + 1..], first + k + 1, render) by {
        NumberedAt(init, k, first, render);
        assert init[..k] == xs[..k] && init[k] == xs[k];
      }
      assert Numbered(xs[k + 1..], first + k + 1, render)
          == Numbered(init[k + 1..], first + k + 1, render) + render(first + n, xs[n]) by {
        var after := xs[k + 1..];
        assert after[..|after| - 1] == init[k + 1..] && after[|after| - 1] == xs[n];
      }
      assert Numbered(xs, first, render) == Numbered(init, first, render) + render(first + n, xs[n]);
      Concat3(Numbered(xs[..k], first, render) + render(first + k, xs[k]), Numbered(init[k + 1..], first + k + 1, render), render(first + n, xs[n]));
    } else {
      assert xs[k + 1..] == [];
    }
  }

  /** Shape i of the slide is rendered as the element with id i, after the
      elements of shapes 0..i-1 and before those of the later shapes. */
  lemma ShapesAt(shapes: seq<Shape>, i: nat)
    requires i < |shapes|
    ensures Shapes(shapes, 0) == Shapes(shapes[..i], 0) + ShapeXml(i, shapes[i]) + Shapes(shapes[i + 1..], i + 1)
  {
    NumberedAt(shapes, i, 0, ShapeXml);
  }

  lemma SlideXmlShapeAt(slide: Slide, i: nat)
    requires i < |slide.shapes|
    ensures SlideXml(slide)
         == SlideOpen + Shapes(slide.shapes[..i], 0) + ShapeXml(i, slide.shapes[i])
            + Shapes(slide.shapes[i + 1..], i + 1) + SlideClose
  {
    ShapesAt(slide.shapes, i);
    Splice(SlideOpen, Shapes(slide.shapes[..i], 0), ShapeXml(i, slide.shapes[i]), Shapes(slide.shapes[i + 1..], i + 1),
           SlideClose, Shapes(slide.shapes, 0));
  }

  /** The text always opens with the slide and shapes tags and closes with
      them, whatever the slide holds. */
  lemma SlideXmlFrame(slide: Slide)
    ensures SlideOpen <= SlideXml(slide)
    ensures IsSuffix(SlideClose, SlideXml(slide))
  {
    var body := Shapes(slide.shapes, 0);
    var xml := SlideXml(slide);
    assert xml == SlideOpen + (body + SlideClose);
    assert xml[|xml| - |SlideClose|..] == SlideClose;
  }

  /** A text frame yields one paragraph line per paragraph, in order. */
  lemma TextBlockParagraphAt(paragraphs: seq<string>, j: nat)
    requires j < |paragraphs|
    ensures TextBlock(Some(paragraphs))
         == TextOpen + Join(paragraphs[..j], ParagraphLine) + ParagraphLine(paragraphs[j])
            + Join(paragraphs[j + 1..], ParagraphLine) + TextClose
  {
    JoinAt(paragraphs, j, ParagraphLine);
    Splice(TextOpen, Join(paragraphs[..j], ParagraphLine), ParagraphLine(paragraphs[j]), Join(paragraphs[j + 1..], ParagraphLine),
           TextClose, Join(paragraphs, ParagraphLine));
  }

  /** A table yields one row element per row, in order. */
  lemma TableBlockRowAt(rows: seq<seq<Cell>>, r: nat)
    requires r < |rows|
    ensures TableBlock(Some(rows))
         == TableOpen + Join(rows[..r], RowXml) + RowXml(rows[r]) + Join(rows[r + 1..], RowXml) + TableClose
  {
    JoinAt(rows, r, RowXml);
    Splice(TableOpen, Join(rows[..r], RowXml), RowXml(rows[r]), Join(rows[r + 1..], RowXml), TableClose, Join(rows, RowXml));
  }

  /** A row element holds one cell line per cell, in order. */
  lemma RowCellAt(cells: seq<Cell>, c: nat)
    requires c < |cells|
    ensures RowXml(cells)
         == RowOpen + Join(cells[..c], CellLine) + CellLine(cells[c]) + Join(cells[c + 1..], CellLine) + RowClose
  {
    JoinAt(cells, c, CellLine);
    Splice(RowOpen, Join(cells[..c], CellLine), CellLine(cells[c]), Join(cells[c + 1..], CellLine), RowClose, Join(cells, CellLine));
  }

  /** A shape with neither a text frame nor a table is just its open and
      close tags. */
  lemma BareShape(id: nat, shape: Shape)
    requires shape.textFrame.None? && shape.table.None?
    ensures ShapeXml(id, shape) == ShapeOpen(id, shape.typeName) + ShapeClose
  {
  }

  /** create_slide_xml as the source writes it: the text grows by `+=` in
      nested loops over shapes, paragraphs, rows and cells. */
  method CreateSlideXml(slide: Slide) returns (xml: string)
    ensures xml == SlideXml(slide)
  {
    var shapes := slide.shapes;
    xml := SlideTag;
    xml := xml + ShapesTag;
    var i := 0;
    assert Shapes(shapes[..0], 0) == "";
    assert xml == SlideOpen + Shapes(shapes[..0], 0);
    while i < |shapes|
      invariant 0 <= i <= |shapes|
      invariant xml == SlideOpen + Shapes(shapes[..i], 0)
    {
      Concat3(SlideOpen, Shapes(shapes[..i], 0), ShapeXml(i, shapes[i]));
      xml := AppendShape(xml, i, shapes[i]);
      NumberedSnoc(shapes, i, 0, ShapeXml);
      i := i + 1;
    }
    assert shapes[..i] == shapes;
    ghost var body := xml;
    xml := xml + ShapesEndTag;
    xml := xml + SlideEndTag;
    Concat3(body, ShapesEndTag, SlideEndTag);
  }

  lemma NumberedSnoc<T>(xs: seq<T>, k: nat, first: nat, render: (nat, T) -> string)
    requires k < |xs|
    ensures Numbered(xs[..k + 1], first, render) == Numbered(xs[..k], first, render) + render(first + k, xs[k])
  {
    assert xs[..k + 1][..k] == xs[..k];
  }

  /** One shape element: its open tag, the text-frame block when the shape
      has a text frame, the table block when it has a table, its close tag. */
  method AppendShape(xml: string, id: nat, shape: Shape) returns (out: string)
    ensures out == xml + ShapeXml(id, shape)
  {
    out := xml + ShapeOpen(id, shape.typeName);
    ghost var atText := out;
    if shape.textFrame.Some? {
      out := out + TextOpen;
      out := AppendParagraphs(out, shape.textFrame.value);
      out := out + TextClose;
      Concat4(atText, TextOpen, Join(shape.textFrame.value, ParagraphLine), TextClose);
    } else {
      assert atText + TextBlock(shape.textFrame) == atText;
    }
    assert out == atText + TextBlock(shape.textFrame);
    ghost var atTable := out;
    if shape.table.Some? {
      out := out + TableOpen;
      out := AppendRows(out, shape.table.value);
      out := out + TableClose;
      Concat4(atTable, TableOpen, Join(shape.table.value, RowXml), TableClose);
    } else {
      assert atTable + TableBlock(shape.table) == atTable;
    }
    assert out == atTable + TableBlock(shape.table);
    out := out + ShapeClose;
    Concat5(xml, ShapeOpen(id, shape.typeName), TextBlock(shape.textFrame), TableBlock(shape.table), ShapeClose);
  }

  /** The paragraph loop: one line per paragraph of the text frame. */
  method AppendParagraphs(xml: string, paragraphs: seq<string>) returns (out: string)
    ensures out == xml + Join(paragraphs, ParagraphLine)
  {
    out := xml;
    var j := 0;
    while j < |paragraphs|
      invariant 0 <= j <= |paragraphs|
      invariant out == xml + Join(paragraphs[..j], ParagraphLine)
    {
      ghost var before := out;
      out := out + "        <paragraph>" + paragraphs[j] + "</paragraph>\n";
      Concat4(before, "        <paragraph>", paragraphs[j], "</paragraph>\n");
      JoinSnoc(paragraphs, j, ParagraphLine);
      Concat3(xml, Join(paragraphs[..j], ParagraphLine), ParagraphLine(paragraphs[j]));
      j := j + 1;
    }
    assert paragraphs[..j] == paragraphs;
  }

  /** Extending a prefix by one element appends that element's rendering. */
  lemma JoinSnoc<T>(xs: seq<T>, k: nat, render: T -> string)
    requires k < |xs|
    ensures Join(xs[..k + 1], render) == Join(xs[..k], render) + render(xs[k])
  {
    assert xs[..k + 1][..k] == xs[..k];
  }

  /** The row loop: one row element per row. */
  method AppendRows(xml: string, rows: seq<seq<Cell>>) returns (out: string)
    ensures out == xml + Join(rows, RowXml)
  {
    out := xml;
    var r := 0;
    while r < |rows|
      invariant 0 <= r <= |rows|
      invariant out == xml + Join(rows[..r], RowXml)
    {
      out := AppendRow(out, rows[r]);
      JoinSnoc(rows, r, RowXml);
      Concat3(xml, Join(rows[..r], RowXml), RowXml(rows[r]));
      r := r + 1;
    }
    assert rows[..r] == rows;
  }

  /** One row element: its open tag, its cell lines and its close tag. */
  method AppendRow(xml: string, cells: seq<Cell>) returns (out: string)
    ensures out == xml + RowXml(cells)
  {
    out := xml + RowOpen;
    out := AppendCells(out, cells);
    out := out + RowClose;
    Concat4(xml, RowOpen, Join(cells, CellLine), RowClose);
  }

  /** The cell loop inside one row: one line per cell. */
  method AppendCells(xml: string, cells: seq<Cell>) returns (out: string)
    ensures out == xml + Join(cells, CellLine)
  {
    out := xml;
    var c := 0;
    while c < |cells|
      invariant 0 <= c <= |cells|
      invariant out == xml + Join(cells[..c], CellLine)
    {
      var cellText := CellText(cells[c]);
      ghost var before := out;
      out := out + "          <cell>" + cellText + "</cell>\n";
      Concat4(before, "          <cell>", cellText, "</cell>\n");
      JoinSnoc(cells, c, CellLine);
      Concat3(xml, Join(cells[..c], CellLine), CellLine(cells[c]));
      c := c + 1;
    }
    assert cells[..c] == cells;
  }
}
