/**
 * The jsPDF document as utils/pdfGenerator.ts drives it: a sequence of
 * pages, each holding the strings drawn on it, the table blocks drawn by
 * the autoTable plugin and the images placed on it. The current page is
 * always the last one, since the generator never moves back.
 */
module PdfDocument {
  import opened Types

  /** A string drawn with `doc.text(s, x, y)`. */
  datatype TextItem = TextItem(s: string, x: real, y: real)

  /** One table row: the date, the expense type and the formatted amount. */
  datatype Row = Row(date: string, category: string, amount: string)

  /** The part of a table that autoTable draws on one page, under a repeated head row. */
  datatype TableBlock = TableBlock(head: seq<string>, body: seq<Row>)

  /** An image placed with `doc.addImage(data, format, x, y, width, height)`. */
  datatype Placed = Placed(x: real, y: real, width: real, height: real)

  datatype Page = Page(texts: seq<TextItem>, tables: seq<TableBlock>, images: seq<Placed>)

  const BlankPage: Page := Page([], [], [])

  function AddText(p: Page, t: TextItem): Page
  {
    p.(texts := p.texts + [t])
  }

  function WithImage(p: Page, im: Placed): Page
  {
    p.(images := p.images + [im])
  }

  /** The pages after `t` is drawn on the current page, which is the last one. */
  function TextOnLast(pages: seq<Page>, t: TextItem): (r: seq<Page>)
    requires |pages| >= 1
    ensures |r| == |pages|
  {
    pages[..|pages| - 1] + [AddText(pages[|pages| - 1], t)]
  }

  /** The pages after `im` is placed on the current page. */
  function ImageOnLast(pages: seq<Page>, im: Placed): (r: seq<Page>)
    requires |pages| >= 1
    ensures |r| == |pages|
  {
    pages[..|pages| - 1] + [WithImage(pages[|pages| - 1], im)]
  }

  function AddTexts(p: Page, ts: seq<TextItem>): Page
  {
    p.(texts := p.texts + ts)
  }

  /** The pages after the strings `ts` are drawn, in order, on the current page. */
  function TextsOnLast(pages: seq<Page>, ts: seq<TextItem>): (r: seq<Page>)
    requires |pages| >= 1
    ensures |r| == |pages|
  {
    pages[..|pages| - 1] + [AddTexts(pages[|pages| - 1], ts)]
  }

  /** Drawing nothing changes nothing, and one more string extends what was drawn. */
  lemma TextsOnLastStep(pages: seq<Page>, ts: seq<TextItem>, t: TextItem)
    requires |pages| >= 1
    ensures TextsOnLast(pages, []) == pages
    ensures TextOnLast(TextsOnLast(pages, ts), t) == TextsOnLast(pages, ts + [t])
  {
    var n := |pages|;
    assert pages[n - 1].texts + [] == pages[n - 1].texts;
    assert pages[..n - 1] + [pages[n - 1]] == pages;
    var q := TextsOnLast(pages, ts);
    assert q[..n - 1] == pages[..n - 1];
    assert pages[n - 1].texts + ts + [t] == pages[n - 1].texts + (ts + [t]);
  }

  /** Drawing on a page just appended changes only that page. */
  lemma OnAppended(pages: seq<Page>, p: Page, t: TextItem, im: Placed)
    ensures TextOnLast(pages + [p], t) == pages + [AddText(p, t)]
    ensures ImageOnLast(pages + [p], im) == pages + [WithImage(p, im)]
  {
    assert (pages + [p])[..|pages|] == pages;
  }

  /**
   * How autoTable breaks the body over pages: the rows it puts on each
   * page and the cursor height at which it leaves that page. This is the
   * plugin's own layout, taken as given.
   */
  datatype TablePage = TablePage(rowCount: nat, cursorY: real)

  function RowsLaidOut(layout: seq<TablePage>): nat
  {
    if layout == [] then 0 else layout[0].rowCount + RowsLaidOut(layout[1..])
  }

  /** A layout the plugin can produce: at least one page, and every row on exactly one of them. */
  predicate ValidLayout(layout: seq<TablePage>, rowCount: nat)
  {
    |layout| >= 1 && RowsLaidOut(layout) == rowCount
  }

  /**
   * The pages a table touches: the body is cut into consecutive slices,
   * one per layout page, the first slice on the current page and each
   * further one on a page of its own; on every one of them the
   * `didDrawPage` hook draws `hook` 15 below the cursor.
   */
  function TablePages(current: Page, head: seq<string>, body: seq<Row>, layout: seq<TablePage>, hook: string): (r: seq<Page>)
    requires ValidLayout(layout, |body|)
    ensures |r| == |layout|
    decreases |layout|
  {
    var k := layout[0].rowCount;
    var here := AddText(current.(tables := current.tables + [TableBlock(head, body[..k])]), TextItem(hook, 14.0, layout[0].cursorY + 15.0));
    if |layout| == 1 then [here]
    else [here] + TablePages(BlankPage, head, body[k..], layout[1..], hook)
  }

  /** `doc.lastAutoTable.finalY || 80`: where the table ended, or 80 when that is 0. */
  function FinalY(layout: seq<TablePage>): real
    requires |layout| >= 1
  {
    var y := layout[|layout| - 1].cursorY;
    if y == 0.0 then 80.0 else y
  }

  /** The rows of every table block on the given pages, page by page. */
  function TableBodies(pages: seq<Page>): seq<Row>
  {
    if pages == [] then [] else BlockBodies(pages[0].tables) + TableBodies(pages[1..])
  }

  function BlockBodies(blocks: seq<TableBlock>): seq<Row>
  {
    if blocks == [] then [] else blocks[0].body + BlockBodies(blocks[1..])
  }

  /** The table's pages hold the body exactly once, in order, after what the current page already held. */
  lemma {:induction false} TablePagesKeepRows(current: Page, head: seq<string>, body: seq<Row>, layout: seq<TablePage>, hook: string)
    requires ValidLayout(layout, |body|)
    ensures TableBodies(TablePages(current, head, body, layout, hook)) == BlockBodies(current.tables) + body
    decreases |layout|
  {
    var k := layout[0].rowCount;
    var r := TablePages(current, head, body, layout, hook);
    TablePagesFirst(current, head, body, layout, hook);
    assert TableBodies(r) == BlockBodies(r[0].tables) + TableBodies(r[1..]);
    TakeDrop(body, k);
    if |layout| > 1 {
      TablePagesKeepRows(BlankPage, head, body[k..], layout[1..], hook);
      assert BlockBodies(BlankPage.tables) == [];
    }
  }

  /** The first page adds the first slice to what the current page held; the other pages are the rest of the body's. */
  lemma TablePagesFirst(current: Page, head: seq<string>, body: seq<Row>, layout: seq<TablePage>, hook: string)
    requires ValidLayout(layout, |body|)
    ensures var k := layout[0].rowCount; var r := TablePages(current, head, body, layout, hook);
      k <= |body| &&
      BlockBodies(r[0].tables) == BlockBodies(current.tables) + body[..k] &&
      (|layout| == 1 ==> k == |body| && r[1..] == []) &&
      (|layout| > 1 ==> r[1..] == TablePages(BlankPage, head, body[k..], layout[1..], hook))
  {
    var k := layout[0].rowCount;
    BlockBodiesAppend(current.tables, [TableBlock(head, body[..k])]);
    assert BlockBodies([TableBlock(head, body[..k])]) == body[..k] + BlockBodies([]);
    if |layout| == 1 {
      assert RowsLaidOut(layout) == k + RowsLaidOut([]);
    }
  }

  lemma {:induction false} TableBodiesAppend(a: seq<Page>, b: seq<Page>)
    ensures TableBodies(a + b) == TableBodies(a) + TableBodies(b)
  {
    if a == [] {
      assert a + b == b;
    } else {
      assert (a + b)[1..] == a[1..] + b;
      TableBodiesAppend(a[1..], b);
    }
  }

  lemma TableBodiesSingle(p: Page)
    ensures TableBodies([p]) == BlockBodies(p.tables)
  {
    assert [p][1..] == [];
  }

  /** Drawing strings leaves every table where it was. */
  lemma TextsOnLastKeepsTables(pages: seq<Page>, ts: seq<TextItem>)
    requires |pages| >= 1
    ensures TableBodies(TextsOnLast(pages, ts)) == TableBodies(pages)
  {
    var n := |pages| - 1;
    var front := pages[..n];
    var last := AddTexts(pages[n], ts);
    LastSplit(pages);
    TableBodiesAppend(front, [pages[n]]);
    TableBodiesAppend(front, [last]);
    TableBodiesSingle(pages[n]);
    TableBodiesSingle(last);
  }

  lemma {:induction false} BlockBodiesAppend(a: seq<TableBlock>, b: seq<TableBlock>)
    ensures BlockBodies(a + b) == BlockBodies(a) + BlockBodies(b)
  {
    if a == [] {
      assert a + b == b;
    } else {
      assert (a + b)[1..] == a[1..] + b;
      BlockBodiesAppend(a[1..], b);
    }
  }

  /** The hook line is drawn on every page the table touches, at that page's cursor plus 15. */
  lemma {:induction false} TablePagesCarryHook(current: Page, head: seq<string>, body: seq<Row>, layout: seq<TablePage>, hook: string)
    requires ValidLayout(layout, |body|)
    ensures forall k :: 0 <= k < |layout| ==>
      TextItem(hook, 14.0, layout[k].cursorY + 15.0) in TablePages(current, head, body, layout, hook)[k].texts
    ensures forall k :: 0 <= k < |layout| ==>
      |TablePages(current, head, body, layout, hook)[k].tables| >= 1
    decreases |layout|
  {
    var r := TablePages(current, head, body, layout, hook);
    if |layout| > 1 {
      var k := layout[0].rowCount;
      TablePagesCarryHook(BlankPage, head, body[k..], layout[1..], hook);
      assert forall m :: 1 <= m < |layout| ==> r[m] == TablePages(BlankPage, head, body[k..], layout[1..], hook)[m - 1];
    }
  }

  /** jsPDF's document object; `new jsPDF()` starts with one blank page. */
  class Document {
    var pages: seq<Page>

    ghost predicate Valid()
      reads this
    {
      |pages| >= 1
    }

    constructor ()
      ensures Valid() && pages == [BlankPage]
    {
      pages := [BlankPage];
    }

    /** `doc.addPage()`: a blank page becomes the current one. */
    method AddPage()
      requires Valid()
      modifies this
      ensures Valid() && pages == old(pages) + [BlankPage]
    {
      pages := pages + [BlankPage];
    }

    /** `doc.text(s, x, y)` on the current page. */
    method Text(s: string, x: real, y: real)
      requires Valid()
      modifies this
      ensures Valid()
      ensures pages == TextOnLast(old(pages), TextItem(s, x, y))
    {
      pages := TextOnLast(pages, TextItem(s, x, y));
    }

    /** `doc.addImage(..., x, y, width, height)` on the current page. */
    method AddImage(x: real, y: real, width: real, height: real)
      requires Valid()
      modifies this
      ensures Valid()
      ensures pages == ImageOnLast(old(pages), Placed(x, y, width, height))
    {
      pages := ImageOnLast(pages, Placed(x, y, width, height));
    }

    /**
     * `doc.autoTable({head, body, didDrawPage})`, where the hook draws
     * `hook` below the cursor: the table starts on the current page and
     * continues on the pages the layout calls for; the result is
     * `lastAutoTable.finalY || 80`.
     */
    method AutoTable(head: seq<string>, body: seq<Row>, layout: seq<TablePage>, hook: string) returns (finalY: real)
      requires Valid() && ValidLayout(layout, |body|)
      modifies this
      ensures Valid() && finalY == FinalY(layout)
      ensures pages == old(pages)[..|old(pages)| - 1] + TablePages(old(pages)[|old(pages)| - 1], head, body, layout, hook)
    {
      pages := pages[..|pages| - 1] + TablePages(pages[|pages| - 1], head, body, layout, hook);
      finalY := FinalY(layout);
    }
  }
}
