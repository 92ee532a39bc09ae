/** What the rectangles drawCode128B draws look like on the page: they share one style,
    each is one to four modules wide, and with a positive module width they lie left to
    right inside the box between the two quiet zones without overlapping. */
module Code128Layout {
  import opened Wrappers
  import opened Code128Table
  import opened Code128Encoder
  import opened Code128Modules
  import opened Code128Bars
  import opened Code128Render

  /** Every rectangle has the pen's y, height and colour and no border. */
  ghost predicate Styled<C>(rs: seq<Rect<C>>, pen: Pen<C>)
  {
    forall i :: 0 <= i < |rs| ==>
      rs[i].y == pen.y && rs[i].height == pen.height && rs[i].color == pen.color && rs[i].borderWidth == 0.0
  }

  /** Every rectangle is one, two, three or four module widths m wide. */
  ghost predicate ModuleMultiples<C>(rs: seq<Rect<C>>, m: real)
  {
    forall i :: 0 <= i < |rs| ==>
      rs[i].width == m || rs[i].width == 2.0 * m || rs[i].width == 3.0 * m || rs[i].width == 4.0 * m
  }

  /** Every rectangle has a positive width and lies between page positions left and right. */
  ghost predicate Inside<C>(rs: seq<Rect<C>>, left: real, right: real)
  {
    forall i :: 0 <= i < |rs| ==> left <= rs[i].x && 0.0 < rs[i].width && rs[i].x + rs[i].width <= right
  }

  /** Every rectangle ends at or before the next one starts. */
  ghost predicate LeftToRight<C>(rs: seq<Rect<C>>)
  {
    forall i, j :: 0 <= i < j < |rs| ==> rs[i].x + rs[i].width <= rs[j].x
  }

  /** One rectangle per bar, all in the pen's style. */
  lemma RenderStyle<C>(bars: seq<Bar>, origin: real, pen: Pen<C>)
    ensures |Render(bars, origin, pen)| == |bars|
    ensures Styled(Render(bars, origin, pen), pen)
  {
  }

  /** Bars one to four modules wide become rectangles one to four module widths wide. */
  lemma RenderWidths<C>(bars: seq<Bar>, origin: real, pen: Pen<C>)
    requires ModuleWidths(bars)
    ensures ModuleMultiples(Render(bars, origin, pen), pen.moduleWidth)
  {
    var rs := Render(bars, origin, pen);
    forall i | 0 <= i < |rs|
      ensures rs[i].width == pen.moduleWidth || rs[i].width == 2.0 * pen.moduleWidth ||
        rs[i].width == 3.0 * pen.moduleWidth || rs[i].width == 4.0 * pen.moduleWidth
    {
      var k := bars[i].modules;
      assert k == 1 || k == 2 || k == 3 || k == 4;
    }
  }

  /** With a positive module width, later modules sit further right. */
  lemma {:induction false} OffsetMono(a: int, b: int, m: real)
    requires a <= b && 0.0 < m
    ensures Offset(a, m) <= Offset(b, m)
    decreases b - a
  {
    if a < b {
      OffsetMono(a, b - 1, m);
      OffsetStep(b - 1, m);
    }
  }

  /** A bar's rectangle r spans its modules: it starts at the offset of the bar's first
      module and ends at the offset of the module after its last. */
  lemma RectSpan<C>(b: Bar, origin: real, pen: Pen<C>, r: Rect<C>)
    requires r == RectOf(b, origin, pen)
    ensures r.x == origin + Offset(b.start, pen.moduleWidth)
    ensures r.x + r.width == origin + Offset(End(b), pen.moduleWidth)
  {
    Advance(origin, b.start, b.modules, End(b), pen.moduleWidth, r.x, r.width);
  }

  /** A bar inside modules lo..hi is a positive-width rectangle inside their page range. */
  lemma BarInside<C>(b: Bar, lo: int, hi: int, origin: real, pen: Pen<C>)
    requires lo <= b.start && End(b) <= hi && 1 <= b.modules && 0.0 < pen.moduleWidth
    ensures var r := RectOf(b, origin, pen);
      origin + Offset(lo, pen.moduleWidth) <= r.x && 0.0 < r.width &&
      r.x + r.width <= origin + Offset(hi, pen.moduleWidth)
  {
    var r := RectOf(b, origin, pen);
    RectSpan(b, origin, pen, r);
    OffsetMono(lo, b.start, pen.moduleWidth);
    OffsetMono(End(b), hi, pen.moduleWidth);
    OffsetStep(b.start, pen.moduleWidth);
    OffsetMono(b.start + 1, End(b), pen.moduleWidth);
  }

  /** A bar ending before another starts is a rectangle ending before the other's starts. */
  lemma BarBefore<C>(a: Bar, b: Bar, origin: real, pen: Pen<C>)
    requires End(a) <= b.start && 0.0 < pen.moduleWidth
    ensures RectOf(a, origin, pen).x + RectOf(a, origin, pen).width <= RectOf(b, origin, pen).x
  {
    var ra := RectOf(a, origin, pen);
    var rb := RectOf(b, origin, pen);
    RectSpan(a, origin, pen, ra);
    RectSpan(b, origin, pen, rb);
    OffsetMono(End(a), b.start, pen.moduleWidth);
  }

  /** Ordered bars inside modules lo..hi become positive-width rectangles inside the page
      range they scale to, each ending at or before the next one starts. */
  lemma RenderedBox<C>(bars: seq<Bar>, lo: int, hi: int, origin: real, pen: Pen<C>)
    requires Ordered(bars, lo, hi) && ModuleWidths(bars) && 0.0 < pen.moduleWidth
    ensures Inside(Render(bars, origin, pen), origin + Offset(lo, pen.moduleWidth),
                   origin + Offset(hi, pen.moduleWidth))
    ensures LeftToRight(Render(bars, origin, pen))
  {
    var rs := Render(bars, origin, pen);
    forall i | 0 <= i < |rs|
      ensures origin + Offset(lo, pen.moduleWidth) <= rs[i].x && 0.0 < rs[i].width &&
        rs[i].x + rs[i].width <= origin + Offset(hi, pen.moduleWidth)
    {
      BarInside(bars[i], lo, hi, origin, pen);
    }
    forall i, j | 0 <= i < j < |rs|
      ensures rs[i].x + rs[i].width <= rs[j].x
    {
      BarBefore(bars[i], bars[j], origin, pen);
    }
  }

  /** A positive box width and a quiet zone that is not negative give a positive module
      width (the box then holds at least the 35 modules of Start B, check and Stop). */
  lemma PositiveModuleWidth<C>(text: seq<CodeUnit>, opts: Options<C>)
    requires 0.0 < NumberOr(opts.width, 200.0) && 0.0 <= QuietZone(opts)
    ensures Divisible(text, opts) && 0.0 < LayoutFor(text, opts).moduleWidth
  {
    assert 0.0 < LayoutFor(text, opts).totalModules;
  }

  /** What drawCode128B draws for valid text, over a CODE128-shaped table, is
      3 * (n + 2) + 4 rectangles of one style, each one to four module widths wide. */
  lemma BarcodeStyleIn<C>(t: seq<string>, text: seq<CodeUnit>, opts: Options<C>)
    requires Code128Shaped(t) && opts.rgb.Some? && AllInSubsetB(text) && Divisible(text, opts)
    ensures |BarcodeRectsIn(t, text, opts)| == 3 * (|text| + 2) + 4
    ensures Styled(BarcodeRectsIn(t, text, opts), PenFor(text, opts))
    ensures ModuleMultiples(BarcodeRectsIn(t, text, opts), LayoutFor(text, opts).moduleWidth)
  {
    var e := Encoding(text);
    EncodingModulesIn(t, text);
    EncodingBarCount(t, text);
    SymbolBarsOrdered(t, e, |e|);
    var bars := SymbolBars(t, e, |e|);
    RenderStyle(bars, LayoutFor(text, opts).startX, PenFor(text, opts));
    RenderWidths(bars, LayoutFor(text, opts).startX, PenFor(text, opts));
  }

  /** With a positive module width those rectangles lie left to right without overlap,
      between the end of the left quiet zone and the start of the right one. */
  lemma BarcodeLayoutIn<C>(t: seq<string>, text: seq<CodeUnit>, opts: Options<C>)
    requires Code128Shaped(t) && opts.rgb.Some? && AllInSubsetB(text) && Divisible(text, opts)
    requires 0.0 < LayoutFor(text, opts).moduleWidth
    ensures Inside(BarcodeRectsIn(t, text, opts),
                   NumberOr(opts.x, 0.0) + QuietZone(opts) * LayoutFor(text, opts).moduleWidth,
                   NumberOr(opts.x, 0.0) + NumberOr(opts.width, 200.0)
                     - QuietZone(opts) * LayoutFor(text, opts).moduleWidth)
    ensures LeftToRight(BarcodeRectsIn(t, text, opts))
  {
    var e := Encoding(text);
    EncodingModulesIn(t, text);
    SymbolBarsOrdered(t, e, |e|);
    var hi := 11 * |text| + 35;
    var bars := SymbolBars(t, e, |e|);
    RenderedBox(bars, 0, hi, LayoutFor(text, opts).startX, PenFor(text, opts));
    OffsetIsProduct(hi, LayoutFor(text, opts).moduleWidth);
    assert LayoutFor(text, opts).startX + Offset(0, LayoutFor(text, opts).moduleWidth) ==
      NumberOr(opts.x, 0.0) + QuietZone(opts) * LayoutFor(text, opts).moduleWidth;
    assert LayoutFor(text, opts).startX + Offset(hi, LayoutFor(text, opts).moduleWidth) ==
      NumberOr(opts.x, 0.0) + NumberOr(opts.width, 200.0) - QuietZone(opts) * LayoutFor(text, opts).moduleWidth;
  }

  /** The count and style over the CODE128 pattern table. */
  lemma BarcodeStyle<C>(text: seq<CodeUnit>, opts: Options<C>)
    requires opts.rgb.Some? && AllInSubsetB(text) && Divisible(text, opts)
    ensures |BarcodeRects(text, opts)| == 3 * (|text| + 2) + 4
    ensures Styled(BarcodeRects(text, opts), PenFor(text, opts))
    ensures ModuleMultiples(BarcodeRects(text, opts), LayoutFor(text, opts).moduleWidth)
  {
    TableShape();
    BarcodeStyleIn(Patterns, text, opts);
  }

  /** The bounds and order over the CODE128 pattern table. */
  lemma BarcodeLayout<C>(text: seq<CodeUnit>, opts: Options<C>)
    requires opts.rgb.Some? && AllInSubsetB(text) && Divisible(text, opts)
    requires 0.0 < LayoutFor(text, opts).moduleWidth
    ensures Inside(BarcodeRects(text, opts),
                   NumberOr(opts.x, 0.0) + QuietZone(opts) * LayoutFor(text, opts).moduleWidth,
                   NumberOr(opts.x, 0.0) + NumberOr(opts.width, 200.0)
                     - QuietZone(opts) * LayoutFor(text, opts).moduleWidth)
    ensures LeftToRight(BarcodeRects(text, opts))
  {
    TableShape();
    BarcodeLayoutIn(Patterns, text, opts);
  }

  /** With every option but rgb absent, the box is x = 0, width = 200 with ten quiet-zone
      modules on each side; the empty text gives Start B, check symbol 1 and Stop, 35
      modules, so 55 modules of 40/11 each and the first bar at 400/11. */
  lemma DefaultLayout<C>(rgb: (real, real, real) -> C)
    ensures var opts := Options(None, None, None, None, Some(rgb), None, None);
      && Divisible([], opts)
      && LayoutFor([], opts) == Geometry(40.0 / 11.0, 55.0, 400.0 / 11.0)
  {
    assert 200.0 / 55.0 == 40.0 / 11.0;
  }
}
