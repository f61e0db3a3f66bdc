/**
 * The badge exporter: which renderer prints each attendee's badge, how
 * badges are packed onto sheets (`cols` by `rows` slots, filled left to
 * right and top to bottom), where each slot sits on the sheet, and which
 * positions the export selects.
 *
 * Lengths are whole millimetres. Drawing a badge, reading and merging PDF
 * files, and opening the background file are not part of this model: a
 * page is the list of placements it would draw.
 */
module Badges {
  import opened Wrappers
  import opened Text

  // ---------------------------------------------------------------------
  // Layouts (`OPTIONS`)

  /** One rendering option: a grid of badge slots on a sheet. */
  datatype Layout = Layout(
    cols: int,
    rows: int,
    margins: seq<int>,               // top, right, bottom, left
    offsets: seq<int>,               // horizontal, vertical distance between slots
    pageSize: Option<(int, int)>)    // `None`: the sheet is the badge background itself

  /** What the slot arithmetic indexes into: a positive grid, four margins, two offsets. */
  predicate WellFormed(opt: Layout) {
    opt.cols >= 1 && opt.rows >= 1 && |opt.margins| == 4 && |opt.offsets| == 2
  }

  /** Badges per page. */
  function PerPage(opt: Layout): (npp: int)
    requires WellFormed(opt)
    ensures npp >= opt.cols && npp >= opt.rows
  {
    opt.cols * opt.rows
  }

  const A4: (int, int) := (210, 297)

  const OneBadgePerPage := Layout(1, 1, [0, 0, 0, 0], [0, 0], None)

  const Durable54x90 := Layout(2, 5, [12, 15, 12, 15], [90, 54], Some(A4))

  /** `OPTIONS`, by key. */
  const Options: map<string, Layout> := map["one" := OneBadgePerPage, "durable_54x90" := Durable54x90]

  // ---------------------------------------------------------------------
  // Slots

  /** Left edge of slot `i`: its column is `i % cols`. */
  function SlotX(opt: Layout, i: int): int
    requires WellFormed(opt)
  {
    opt.margins[3] + (i % opt.cols) * opt.offsets[0]
  }

  /** Bottom edge of slot `i`: its row is `i / cols`, counted from the top of the sheet. */
  function SlotY(opt: Layout, i: int): int
    requires WellFormed(opt)
  {
    opt.margins[2] + (opt.rows - 1 - i / opt.cols) * opt.offsets[1]
  }

  /** Slots with distinct indices on one page are in distinct places (the grid offsets being positive). */
  lemma SlotsDistinct(opt: Layout, i: int, j: int)
    requires WellFormed(opt) && opt.offsets[0] > 0 && opt.offsets[1] > 0
    requires 0 <= i < j < PerPage(opt)
    ensures (SlotX(opt, i), SlotY(opt, i)) != (SlotX(opt, j), SlotY(opt, j))
  {
    var c := opt.cols;
    if i % c != j % c {
      ProductsDiffer(i % c, j % c, opt.offsets[0]);
    } else {
      assert i / c != j / c;
      ProductsDiffer(opt.rows - 1 - i / c, opt.rows - 1 - j / c, opt.offsets[1]);
    }
  }

  lemma ProductsDiffer(a: int, b: int, k: int)
    requires a != b && k > 0
    ensures a * k != b * k
  {
    if a < b {
      assert b * k - a * k == (b - a) * k;
    } else {
      assert a * k - b * k == (a - b) * k;
    }
  }

  /** Every slot of a page lies in the grid: column below `cols`, row below `rows`. */
  lemma SlotInGrid(opt: Layout, i: int)
    requires WellFormed(opt) && 0 <= i < PerPage(opt)
    ensures 0 <= i % opt.cols < opt.cols && 0 <= i / opt.cols < opt.rows
  {
  }

  /** The ten slots of the Durable sheet each hold a 90 x 54 badge inside the A4 page. */
  lemma DurableSlotsFitA4(i: int)
    requires 0 <= i < PerPage(Durable54x90)
    ensures 0 <= SlotX(Durable54x90, i) && SlotX(Durable54x90, i) + 90 <= A4.0
    ensures 0 <= SlotY(Durable54x90, i) && SlotY(Durable54x90, i) + 54 <= A4.1
  {
  }

  // ---------------------------------------------------------------------
  // Renderers

  /** A badge layout as stored: its key and the name of an uploaded background, if any. */
  datatype BadgeLayout = BadgeLayout(id: nat, background: Option<string>)

  datatype Background = Uploaded(name: string) | DefaultBackground

  /** A renderer for one layout, drawing on top of its background. */
  datatype Renderer = Renderer(layout: nat, background: Background)

  /** `_renderer(event, layout)`: none without a layout; the uploaded background if it has a name. */
  function MakeRenderer(layout: Option<BadgeLayout>): (r: Option<Renderer>)
    ensures r.None? <==> layout.None?
    ensures r.Some? ==> r.value.layout == layout.value.id
    ensures r.Some? ==> (r.value.background.Uploaded? <==> layout.value.background.Some? && layout.value.background.value != "")
  {
    match layout
    case None => None
    case Some(l) =>
      var bg := if l.background.Some? && l.background.value != "" then Uploaded(l.background.value) else DefaultBackground;
      Some(Renderer(l.id, bg))
  }

  datatype OrderStatus = Pending | Paid | Expired | Canceled

  /** An order position, with the fields the exporter looks at. */
  datatype Position = Position(
    id: nat,
    item: int,
    addonTo: Option<nat>,
    orderStatus: OrderStatus,
    orderCode: string,
    attendeeName: string)

  /**
   * The renderer map's entry for the item, else the default: an item with its own
   * badge setting uses it, even when that setting is "no badge"; other items
   * use the default layout's renderer, if there is one.
   */
  function RendererFor(renderers: map<int, Option<Renderer>>, default: Option<Renderer>, item: int): (r: Option<Renderer>)
    ensures item in renderers ==> r == renderers[item]
    ensures item !in renderers ==> r == default
  {
    if item in renderers then renderers[item] else default
  }

  /** A position together with the renderer that prints it. */
  datatype Entry = Entry(position: Position, renderer: Renderer)

  /** The positions that get a badge, in input order, each with its renderer. */
  function Printable(positions: seq<Position>, renderers: map<int, Option<Renderer>>, default: Option<Renderer>): (r: seq<Entry>)
    ensures |r| <= |positions|
    decreases |positions|
  {
    if positions == [] then []
    else
      var last := positions[|positions| - 1];
      var init := Printable(positions[..|positions| - 1], renderers, default);
      match RendererFor(renderers, default, last.item)
      case None => init
      case Some(r) => init + [Entry(last, r)]
  }

  /**
   * A position gets a badge exactly when its item resolves to a renderer,
   * and then with that renderer.
   */
  lemma {:induction false} PrintableSpec(positions: seq<Position>, renderers: map<int, Option<Renderer>>, default: Option<Renderer>)
    ensures var r := Printable(positions, renderers, default);
      && (forall k :: 0 <= k < |r| ==>
            r[k].position in positions && RendererFor(renderers, default, r[k].position.item) == Some(r[k].renderer))
      && (forall i :: 0 <= i < |positions| && RendererFor(renderers, default, positions[i].item).Some? ==>
            Entry(positions[i], RendererFor(renderers, default, positions[i].item).value) in r)
    decreases |positions|
  {
    if positions != [] {
      var init := positions[..|positions| - 1];
      PrintableSpec(init, renderers, default);
      var r := Printable(positions, renderers, default);
      var ri := Printable(init, renderers, default);
      assert forall k :: 0 <= k < |ri| ==> r[k] == ri[k];
      forall i | 0 <= i < |positions| - 1
        ensures positions[i] == init[i]
      {
      }
    }
  }

  /**
   * `Printable` keeps input order and multiplicity: the badges of a
   * concatenation are the badges of its first part followed by those of
   * its second part.
   */
  lemma {:induction false} PrintableAppend(a: seq<Position>, b: seq<Position>, renderers: map<int, Option<Renderer>>, default: Option<Renderer>)
    ensures Printable(a + b, renderers, default) == Printable(a, renderers, default) + Printable(b, renderers, default)
    decreases |b|
  {
    if b == [] {
      assert a + b == a;
    } else {
      var init := b[..|b| - 1];
      assert (a + b)[..|a + b| - 1] == a + init;
      assert (a + b)[|a + b| - 1] == b[|b| - 1];
      PrintableAppend(a, init, renderers, default);
    }
  }

  /** A single position gives one badge, with its renderer, or none. */
  lemma PrintableOne(p: Position, renderers: map<int, Option<Renderer>>, default: Option<Renderer>)
    ensures Printable([p], renderers, default)
      == match RendererFor(renderers, default, p.item)
         case None => []
         case Some(r) => [Entry(p, r)]
  {
    assert [p][..0] == [];
  }

  // ---------------------------------------------------------------------
  // Pages

  /** Where a page's size comes from: the option's paper size, or the first badge's background. */
  datatype PageSize = Fixed(width: int, height: int) | SizeOfBackground(background: Background)

  /** One badge on a page: drawn on the canvas, and its background merged, at `(x, y)`. */
  datatype Placement = Placement(entry: Entry, x: int, y: int)

  datatype Page = Page(size: PageSize, drawn: seq<Placement>, backgrounds: seq<Placement>)

  /** The badges of `buffer` in slots `0, 1, ...`. */
  function Placements(buffer: seq<Entry>, opt: Layout): (r: seq<Placement>)
    requires WellFormed(opt)
    ensures |r| == |buffer|
    ensures forall i :: 0 <= i < |buffer| ==> r[i] == Placement(buffer[i], SlotX(opt, i), SlotY(opt, i))
  {
    seq(|buffer|, i requires 0 <= i < |buffer| => Placement(buffer[i], SlotX(opt, i), SlotY(opt, i)))
  }

  /** The page `render_page(buffer)` adds to the output. */
  function PageOf(buffer: seq<Entry>, opt: Layout): Page
    requires WellFormed(opt) && buffer != []
  {
    var size := match opt.pageSize
      case Some((w, h)) => Fixed(w, h)
      case None => SizeOfBackground(buffer[0].renderer.background);
    Page(size, Placements(buffer, opt), Placements(buffer, opt))
  }

  /**
   * `render_page`: the canvas is moved to each slot, the badge drawn and the
   * canvas moved back; then each background is merged at the same offsets.
   */
  method RenderPage(buffer: seq<Entry>, opt: Layout) returns (page: Page)
    requires WellFormed(opt) && buffer != []
    ensures page == PageOf(buffer, opt)
  {
    var originX, originY := 0, 0;
    var drawn: seq<Placement> := [];
    var i := 0;
    while i < |buffer|
      invariant 0 <= i <= |buffer|
      invariant originX == 0 && originY == 0
      invariant drawn == Placements(buffer[..i], opt)
    {
      var offsetX := SlotX(opt, i);
      var offsetY := SlotY(opt, i);
      originX, originY := originX + offsetX, originY + offsetY;
      drawn := drawn + [Placement(buffer[i], originX, originY)];
      originX, originY := originX - offsetX, originY - offsetY;
      i := i + 1;
    }
    var size := match opt.pageSize
      case Some((w, h)) => Fixed(w, h)
      case None => SizeOfBackground(buffer[0].renderer.background);
    var merged: seq<Placement> := [];
    i := 0;
    while i < |buffer|
      invariant 0 <= i <= |buffer|
      invariant merged == Placements(buffer[..i], opt)
    {
      merged := merged + [Placement(buffer[i], SlotX(opt, i), SlotY(opt, i))];
      i := i + 1;
    }
    assert buffer[..|buffer|] == buffer;
    page := Page(size, drawn, merged);
  }

  /** The complete pages of `npp` badges each; a shorter tail is left over. */
  function FullPages(entries: seq<Entry>, npp: int): (pages: seq<seq<Entry>>)
    requires npp >= 1
    ensures forall j :: 0 <= j < |pages| ==> |pages[j]| == npp
    decreases |entries|
  {
    if |entries| < npp then [] else [entries[..npp]] + FullPages(entries[npp..], npp)
  }

  /** What `FullPages` does not place: the last `|entries| mod npp` entries. */
  function Leftover(entries: seq<Entry>, npp: int): seq<Entry>
    requires npp >= 1
    decreases |entries|
  {
    if |entries| < npp then entries else Leftover(entries[npp..], npp)
  }

  /** All entries in pages of at most `npp`: the full pages, then the leftover if there is one. */
  function AllPages(entries: seq<Entry>, npp: int): seq<seq<Entry>>
    requires npp >= 1
  {
    var rest := Leftover(entries, npp);
    FullPages(entries, npp) + if rest == [] then [] else [rest]
  }

  /** Pages concatenated in order. */
  function Flatten(pages: seq<seq<Entry>>): seq<Entry> {
    if pages == [] then [] else Flatten(pages[..|pages| - 1]) + pages[|pages| - 1]
  }

  /** Every page rendered, in order. */
  function RenderAll(pages: seq<seq<Entry>>, opt: Layout): (r: seq<Page>)
    requires WellFormed(opt) && forall j :: 0 <= j < |pages| ==> pages[j] != []
    ensures |r| == |pages|
    ensures forall j :: 0 <= j < |pages| ==> r[j] == PageOf(pages[j], opt)
  {
    seq(|pages|, j requires 0 <= j < |pages| => PageOf(pages[j], opt))
  }

  lemma FlattenAppend(pages: seq<seq<Entry>>, p: seq<Entry>)
    ensures Flatten(pages + [p]) == Flatten(pages) + p
  {
    assert (pages + [p])[..|pages|] == pages;
  }

  lemma FlattenPrepend(p: seq<Entry>, pages: seq<seq<Entry>>)
    ensures Flatten([p] + pages) == p + Flatten(pages)
    decreases |pages|
  {
    if pages == [] {
      assert [p] + pages == [p];
      assert Flatten([p]) == Flatten([]) + p;
    } else {
      var init := pages[..|pages| - 1];
      var last := pages[|pages| - 1];
      assert pages == init + [last];
      assert [p] + pages == ([p] + init) + [last];
      FlattenAppend([p] + init, last);
      FlattenPrepend(p, init);
      FlattenAppend(init, last);
    }
  }

  /** The full pages followed by the leftover give back the entries, and the leftover is short. */
  lemma {:induction false} FullPagesSplit(entries: seq<Entry>, npp: int)
    requires npp >= 1
    ensures Flatten(FullPages(entries, npp)) + Leftover(entries, npp) == entries
    ensures |Leftover(entries, npp)| < npp
    decreases |entries|
  {
    if |entries| >= npp {
      FullPagesSplit(entries[npp..], npp);
      FlattenPrepend(entries[..npp], FullPages(entries[npp..], npp));
      assert entries == entries[..npp] + entries[npp..];
    }
  }

  /** Every entry is on exactly one page, in order, and only the last page may be short. */
  lemma AllPagesComplete(entries: seq<Entry>, npp: int)
    requires npp >= 1
    ensures Flatten(AllPages(entries, npp)) == entries
    ensures forall j :: 0 <= j < |AllPages(entries, npp)| ==> 1 <= |AllPages(entries, npp)[j]| <= npp
    ensures forall j :: 0 <= j < |AllPages(entries, npp)| - 1 ==> |AllPages(entries, npp)[j]| == npp
  {
    var full := FullPages(entries, npp);
    var rest := Leftover(entries, npp);
    FullPagesSplit(entries, npp);
    if rest != [] {
      FlattenAppend(full, rest);
      assert full + [rest] == AllPages(entries, npp);
    } else {
      assert full + [] == full;
    }
  }

  /** Appending a full page to entries that fill whole pages adds exactly that page. */
  lemma {:induction false} FullPagesAppendPage(done: seq<Entry>, page: seq<Entry>, npp: int)
    requires npp >= 1 && Leftover(done, npp) == [] && |page| == npp
    ensures FullPages(done + page, npp) == FullPages(done, npp) + [page]
    ensures Leftover(done + page, npp) == []
    decreases |done|
  {
    if done == [] {
      assert done + page == page;
      assert page[npp..] == [];
      assert page[..npp] == page;
    } else {
      assert |done| >= npp;
      FullPagesAppendPage(done[npp..], page, npp);
      assert (done + page)[..npp] == done[..npp];
      assert (done + page)[npp..] == done[npp..] + page;
    }
  }

  /** A tail shorter than a page changes none of the full pages and is all that is left over. */
  lemma {:induction false} FullPagesShortTail(done: seq<Entry>, rest: seq<Entry>, npp: int)
    requires npp >= 1 && Leftover(done, npp) == [] && |rest| < npp
    ensures FullPages(done + rest, npp) == FullPages(done, npp)
    ensures Leftover(done + rest, npp) == rest
    decreases |done|
  {
    if done == [] {
      assert done + rest == rest;
    } else {
      assert |done| >= npp;
      FullPagesShortTail(done[npp..], rest, npp);
      assert (done + rest)[..npp] == done[..npp];
      assert (done + rest)[npp..] == done[npp..] + rest;
    }
  }

  datatype BadgeError = NothingPrintable  // `OrderError("None of the selected products ...")`

  lemma PrintableStep(positions: seq<Position>, i: int, renderers: map<int, Option<Renderer>>, default: Option<Renderer>)
    requires 0 <= i < |positions|
    ensures Printable(positions[..i + 1], renderers, default)
      == Printable(positions[..i], renderers, default)
         + match RendererFor(renderers, default, positions[i].item)
           case None => []
           case Some(r) => [Entry(positions[i], r)]
  {
    assert positions[..i + 1][..i] == positions[..i];
  }

  lemma RenderAllAppend(pages: seq<seq<Entry>>, page: seq<Entry>, opt: Layout)
    requires WellFormed(opt) && page != [] && forall j :: 0 <= j < |pages| ==> pages[j] != []
    ensures RenderAll(pages + [page], opt) == RenderAll(pages, opt) + [PageOf(page, opt)]
  {
  }

  /** Rendering one more full page adds its page to the output. */
  lemma PageFlush(done: seq<Entry>, page: seq<Entry>, opt: Layout)
    requires WellFormed(opt) && Leftover(done, PerPage(opt)) == [] && |page| == PerPage(opt)
    ensures Leftover(done + page, PerPage(opt)) == []
    ensures RenderAll(FullPages(done + page, PerPage(opt)), opt) == RenderAll(FullPages(done, PerPage(opt)), opt) + [PageOf(page, opt)]
  {
    FullPagesAppendPage(done, page, PerPage(opt));
    RenderAllAppend(FullPages(done, PerPage(opt)), page, opt);
  }

  /**
   * The loop of `render_pdf`: badges are collected into a page buffer, and a
   * page is rendered each time the buffer holds `cols * rows` badges. At the
   * end the buffer holds the badges not yet rendered.
   */
  method CollectPages(positions: seq<Position>, renderers: map<int, Option<Renderer>>, default: Option<Renderer>, opt: Layout)
    returns (pages: seq<Page>, pageBuffer: seq<Entry>, any: bool)
    requires WellFormed(opt)
    ensures pages == RenderAll(FullPages(Printable(positions, renderers, default), PerPage(opt)), opt)
    ensures pageBuffer == Leftover(Printable(positions, renderers, default), PerPage(opt))
    ensures any <==> Printable(positions, renderers, default) != []
  {
    var npp := PerPage(opt);
    any := false;
    pageBuffer := [];
    pages := [];
    ghost var done: seq<Entry> := [];
    var i := 0;
    while i < |positions|
      invariant 0 <= i <= |positions|
      invariant Printable(positions[..i], renderers, default) == done + pageBuffer
      invariant Leftover(done, npp) == [] && |pageBuffer| < npp
      invariant pages == RenderAll(FullPages(done, npp), opt)
      invariant any <==> done + pageBuffer != []
    {
      PrintableStep(positions, i, renderers, default);
      var op := positions[i];
      var rend := RendererFor(renderers, default, op.item);
      if rend.Some? {
        any := true;
        pageBuffer := pageBuffer + [Entry(op, rend.value)];
        assert done + pageBuffer == Printable(positions[..i + 1], renderers, default);
        if |pageBuffer| == npp {
          var page := RenderPage(pageBuffer, opt);
          PageFlush(done, pageBuffer, opt);
          pages := pages + [page];
          done := done + pageBuffer;
          pageBuffer := [];
          assert done + pageBuffer == done;
        }
      }
      i := i + 1;
    }
    assert positions[..i] == positions;
    FullPagesShortTail(done, pageBuffer, npp);
  }

  /**
   * `render_pdf` as written: after the loop the page buffer is not flushed,
   * so only full pages are rendered. With no printable position at all the
   * export fails.
   */
  method RenderPdf(positions: seq<Position>, renderers: map<int, Option<Renderer>>, default: Option<Renderer>, opt: Layout)
    returns (r: Result<seq<Page>, BadgeError>)
    requires WellFormed(opt)
    ensures r.Err? <==> Printable(positions, renderers, default) == []
    ensures r.Ok? ==> r.value == RenderAll(FullPages(Printable(positions, renderers, default), PerPage(opt)), opt)
  {
    var pages, pageBuffer, any := CollectPages(positions, renderers, default, opt);
    if !any {
      r := Err(NothingPrintable);
    } else {
      r := Ok(pages);
    }
  }

  /** `render_pdf` with the page buffer flushed after the loop, so that a short last page is rendered too. */
  method RenderPdfFlushed(positions: seq<Position>, renderers: map<int, Option<Renderer>>, default: Option<Renderer>, opt: Layout)
    returns (r: Result<seq<Page>, BadgeError>)
    requires WellFormed(opt)
    ensures r.Err? <==> Printable(positions, renderers, default) == []
    ensures r.Ok? ==> r.value == RenderAll(AllPages(Printable(positions, renderers, default), PerPage(opt)), opt)
  {
    var pages, pageBuffer, any := CollectPages(positions, renderers, default, opt);
    ghost var printable := Printable(positions, renderers, default);
    if pageBuffer != [] {
      var page := RenderPage(pageBuffer, opt);
      RenderAllAppend(FullPages(printable, PerPage(opt)), pageBuffer, opt);
      pages := pages + [page];
    } else {
      assert FullPages(printable, PerPage(opt)) + [] == FullPages(printable, PerPage(opt));
    }
    if !any {
      r := Err(NothingPrintable);
    } else {
      r := Ok(pages);
    }
  }

  // ---------------------------------------------------------------------
  // The short last page

  /** With one badge per page nothing is ever left in the buffer, so the missing flush is invisible. */
  lemma OneBadgeLosesNothing(entries: seq<Entry>)
    ensures Leftover(entries, PerPage(OneBadgePerPage)) == []
    ensures FullPages(entries, PerPage(OneBadgePerPage)) == AllPages(entries, PerPage(OneBadgePerPage))
  {
    FullPagesSplit(entries, 1);
  }

  /**
   * On the Durable sheet, three printable badges produce no page at all as
   * written (and no error either), while the flushed version puts all three
   * on one page.
   */
  lemma DurableDropsShortPage(e: Entry)
    ensures var three := [e, e, e];
      && FullPages(three, PerPage(Durable54x90)) == []
      && Leftover(three, PerPage(Durable54x90)) == three
      && AllPages(three, PerPage(Durable54x90)) == [three]
  {
  }

  // ---------------------------------------------------------------------
  // `BadgeExporter.render`

  /** The export form's answers. */
  datatype FormData = FormData(
    items: set<int>,
    includePending: bool,
    includeAddons: bool,
    orderBy: Option<string>,
    rendering: Option<string>)

  /** The queryset filters: chosen items, add-ons only on request, paid (and optionally pending) orders. */
  predicate Selected(form: FormData, p: Position) {
    && p.item in form.items
    && (form.includeAddons || p.addonTo.None?)
    && (if form.includePending then p.orderStatus in {Paid, Pending} else p.orderStatus == Paid)
  }

  function Select(form: FormData, positions: seq<Position>): (r: seq<Position>)
    ensures forall p :: p in r <==> p in positions && Selected(form, p)
    decreases |positions|
  {
    if positions == [] then []
    else
      var init := Select(form, positions[..|positions| - 1]);
      var last := positions[|positions| - 1];
      assert positions == positions[..|positions| - 1] + [last];
      if Selected(form, last) then init + [last] else init
  }

  /**
   * The filter keeps input order and multiplicity: the selection of a
   * concatenation is the selection of its first part followed by that of
   * its second part.
   */
  lemma {:induction false} SelectAppend(form: FormData, a: seq<Position>, b: seq<Position>)
    ensures Select(form, a + b) == Select(form, a) + Select(form, b)
    decreases |b|
  {
    if b == [] {
      assert a + b == a;
    } else {
      var init := b[..|b| - 1];
      assert (a + b)[..|a + b| - 1] == a + init;
      assert (a + b)[|a + b| - 1] == b[|b| - 1];
      SelectAppend(form, a, init);
    }
  }

  /** A single position is kept, once, exactly when the filters select it. */
  lemma SelectOne(form: FormData, p: Position)
    ensures Select(form, [p]) == if Selected(form, p) then [p] else []
  {
    assert [p][..0] == [];
  }

  /** The sort the export asks the database for. */
  datatype Ordering =
    | ByNameThenCode    // `attendee_name_cached`, then `order__code`
    | ByCode            // `order__code`
    | ByNamePart(part: string)
    | Unordered

  function OrderingOf(orderBy: Option<string>): (o: Ordering)
    ensures o == ByNameThenCode <==> orderBy == Some("name")
    ensures o == ByCode <==> orderBy == Some("code")
    ensures o.ByNamePart? <==> orderBy.Some? && orderBy.value != "name" && orderBy.value != "code" && StartsWith(orderBy.value, "name:")
    ensures o.ByNamePart? ==> orderBy.value == "name:" + o.part
  {
    var key := orderBy.GetOr("");
    if key == "name" then ByNameThenCode
    else if key == "code" then ByCode
    else if StartsWith(key, "name:") then
      assert key == key[..5] + key[5..];
      ByNamePart(key[5..])
    else Unordered
  }

  datatype ExportError = UnknownRendering(key: string) | Badge(error: BadgeError)

  /** `OPTIONS[form_data.get('rendering', 'one')]`. */
  function RenderingOf(form: FormData): (r: Result<Layout, ExportError>)
    ensures r.Ok? ==> WellFormed(r.value)
    ensures form.rendering.None? ==> r == Ok(OneBadgePerPage)
    ensures form.rendering == Some("durable_54x90") ==> r == Ok(Durable54x90)
    ensures r.Err? <==> form.rendering.Some? && form.rendering.value !in Options
  {
    var key := form.rendering.GetOr("one");
    if key in Options then Ok(Options[key]) else Err(UnknownRendering(key))
  }

  /**
   * `render`: select the positions, look up the rendering option, and render
   * the sheets with `render_pdf` as written, so only the full pages come out.
   * `positions` are the event's positions in the order the database returns
   * for `OrderingOf`.
   */
  method Export(form: FormData, positions: seq<Position>, renderers: map<int, Option<Renderer>>, default: Option<Renderer>)
    returns (r: Result<seq<Page>, ExportError>)
    ensures RenderingOf(form).Err? ==> r == Err(RenderingOf(form).error)
    ensures RenderingOf(form).Ok? ==>
      var printable := Printable(Select(form, positions), renderers, default);
      && (r.Err? <==> printable == [])
      && (r.Err? ==> r.error == Badge(NothingPrintable))
      && (r.Ok? ==> r.value == RenderAll(FullPages(printable, PerPage(RenderingOf(form).value)), RenderingOf(form).value))
  {
    var selected := Select(form, positions);
    var opt := RenderingOf(form);
    if opt.Err? {
      return Err(opt.error);
    }
    var out := RenderPdf(selected, renderers, default, opt.value);
    match out
    case Err(e) => r := Err(Badge(e));
    case Ok(pages) => r := Ok(pages);
  }

  /** `render` with the corrected `render_pdf`: the last, short page is rendered as well. */
  method ExportFlushed(form: FormData, positions: seq<Position>, renderers: map<int, Option<Renderer>>, default: Option<Renderer>)
    returns (r: Result<seq<Page>, ExportError>)
    ensures RenderingOf(form).Err? ==> r == Err(RenderingOf(form).error)
    ensures RenderingOf(form).Ok? ==>
      var printable := Printable(Select(form, positions), renderers, default);
      && (r.Err? <==> printable == [])
      && (r.Err? ==> r.error == Badge(NothingPrintable))
      && (r.Ok? ==> r.value == RenderAll(AllPages(printable, PerPage(RenderingOf(form).value)), RenderingOf(form).value))
  {
    var selected := Select(form, positions);
    var opt := RenderingOf(form);
    if opt.Err? {
      return Err(opt.error);
    }
    var out := RenderPdfFlushed(selected, renderers, default, opt.value);
    match out
    case Err(e) => r := Err(Badge(e));
    case Ok(pages) => r := Ok(pages);
  }
}
