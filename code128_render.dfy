/** drawCode128B: lays an encoded CODE128-B symbol sequence out across a bounding box and
    draws every bar as a filled rectangle on a page. */
module Code128Render {
  import opened Wrappers
  import opened Code128Table
  import opened Code128Encoder
  import opened Code128Modules
  import opened Code128Bars

  /** One `page.drawRectangle` call. `C` is the opaque colour value made by `rgb`. */
  datatype Rect<C> = Rect(x: real, y: real, width: real, height: real, color: C, borderWidth: real)

  /** The drawing surface: it records the rectangles drawn on it, in order. */
  class Page<C> {
    var drawn: seq<Rect<C>>

    constructor ()
      ensures drawn == []
    {
      drawn := [];
    }

    method DrawRectangle(r: Rect<C>)
      modifies this
      ensures drawn == old(drawn) + [r]
    {
      drawn := drawn + [r];
    }
  }

  /** DrawCode128BOptions. `None` stands for an absent (undefined) option; `rgb` is `None`
      when the value passed is not a function. */
  datatype Options<C> = Options(
    x: Option<real>,
    y: Option<real>,
    width: Option<real>,
    height: Option<real>,
    rgb: Option<(real, real, real) -> C>,
    quietZoneModules: Option<real>,
    color: Option<C>)

  /** DrawCode128BResult. */
  datatype DrawResult = DrawResult(symbolCount: int, moduleWidth: real, quietZoneModules: real)

  /** `Number(v) || default` on a numeric option: an absent value and 0 both give the default. */
  function NumberOr(v: Option<real>, default: real): real
  {
    if v.None? || v.value == 0.0 then default else v.value
  }

  /** `opts.quietZoneModules ?? 10`: only an absent value gives the default, so 0 is kept. */
  function QuietZone<C>(opts: Options<C>): real
  {
    if opts.quietZoneModules.None? then 10.0 else opts.quietZoneModules.value
  }

  /** `opts.color || rgb(0, 0, 0)`. */
  function ColorOf<C>(opts: Options<C>): C
    requires opts.rgb.Some?
  {
    if opts.color.Some? then opts.color.value else opts.rgb.value(0.0, 0.0, 0.0)
  }

  /** The horizontal layout: how wide one module is, how many modules the box holds
      (the symbols plus a quiet zone on each side), and where the first bar starts. */
  datatype Geometry = Geometry(moduleWidth: real, totalModules: real, startX: real)

  function Layout(dataModules: int, x: real, width: real, qz: real): (g: Geometry)
    requires dataModules as real + 2.0 * qz != 0.0
    ensures g.totalModules == dataModules as real + 2.0 * qz
    ensures g.moduleWidth * g.totalModules == width
    ensures g.startX == x + qz * g.moduleWidth
    ensures g.startX + dataModules as real * g.moduleWidth == x + width - qz * g.moduleWidth
    ensures qz == 0.0 ==> g.startX == x
  {
    var total := dataModules as real + qz * 2.0;
    var moduleW := width / total;
    Geometry(moduleW, total, x + qz * moduleW)
  }

  /** What every bar shares: the module width that scales it, and its y, height and colour. */
  datatype Pen<C> = Pen(moduleWidth: real, y: real, height: real, color: C)

  /** The page offset of module n when every module is m wide, as the running sum the
      cursor keeps. */
  function Offset(n: int, m: real): real
    decreases if n < 0 then -n else n
  {
    if n == 0 then 0.0 else if n > 0 then Offset(n - 1, m) + m else Offset(n + 1, m) - m
  }

  lemma OffsetStep(n: int, m: real)
    ensures Offset(n + 1, m) == Offset(n, m) + m
  {
  }

  lemma {:induction false} OffsetAdd(a: int, d: int, m: real)
    ensures Offset(a + d, m) == Offset(a, m) + Offset(d, m)
    decreases if d < 0 then -d else d
  {
    if d > 0 {
      OffsetAdd(a, d - 1, m);
      OffsetStep(a + d - 1, m);
      OffsetStep(d - 1, m);
    } else if d < 0 {
      OffsetAdd(a, d + 1, m);
      OffsetStep(a + d, m);
      OffsetStep(d, m);
    }
  }

  /** Offset is the product of the module count and the module width. */
  lemma {:induction false} OffsetIsProduct(n: int, m: real)
    ensures Offset(n, m) == n as real * m
    decreases if n < 0 then -n else n
  {
    if n > 0 {
      OffsetIsProduct(n - 1, m);
    } else if n < 0 {
      OffsetIsProduct(n + 1, m);
    }
  }

  /** The rectangle for a bar, with positions scaled from modules to page units. */
  function RectOf<C>(b: Bar, origin: real, pen: Pen<C>): Rect<C>
  {
    Rect(origin + Offset(b.start, pen.moduleWidth), pen.y, b.modules as real * pen.moduleWidth,
         pen.height, pen.color, 0.0)
  }

  /** The rectangles for a sequence of bars, in order. */
  function Render<C>(bars: seq<Bar>, origin: real, pen: Pen<C>): seq<Rect<C>>
  {
    seq(|bars|, i requires 0 <= i < |bars| => RectOf(bars[i], origin, pen))
  }

  /** The division in drawCode128B is defined: the box holds a non-zero number of modules.
      An encoding of n characters has 11 * n + 35 modules (EncodingModules). */
  predicate Divisible<C>(text: seq<CodeUnit>, opts: Options<C>)
  {
    (11 * |text| + 35) as real + 2.0 * QuietZone(opts) != 0.0
  }

  /** The layout drawCode128B computes from the options, with the defaults applied. */
  function LayoutFor<C>(text: seq<CodeUnit>, opts: Options<C>): Geometry
    requires Divisible(text, opts)
  {
    Layout(11 * |text| + 35, NumberOr(opts.x, 0.0), NumberOr(opts.width, 200.0), QuietZone(opts))
  }

  /** The bar style drawCode128B computes from the options. */
  function PenFor<C>(text: seq<CodeUnit>, opts: Options<C>): Pen<C>
    requires opts.rgb.Some? && Divisible(text, opts)
  {
    Pen(LayoutFor(text, opts).moduleWidth, NumberOr(opts.y, 0.0), NumberOr(opts.height, 50.0), ColorOf(opts))
  }

  /** Everything drawCode128B draws for valid text, over a CODE128-shaped table t. */
  function BarcodeRectsIn<C>(t: seq<string>, text: seq<CodeUnit>, opts: Options<C>): seq<Rect<C>>
    requires Code128Shaped(t) && opts.rgb.Some? && AllInSubsetB(text) && Divisible(text, opts)
  {
    EncodingModulesIn(t, text);
    var e := Encoding(text);
    Render(SymbolBars(t, e, |e|), LayoutFor(text, opts).startX, PenFor(text, opts))
  }

  /** Everything drawCode128B draws for valid text. */
  function BarcodeRects<C>(text: seq<CodeUnit>, opts: Options<C>): seq<Rect<C>>
    requires opts.rgb.Some? && AllInSubsetB(text) && Divisible(text, opts)
  {
    TableShape();
    BarcodeRectsIn(Patterns, text, opts)
  }

  lemma RenderAppend<C>(a: seq<Bar>, b: seq<Bar>, origin: real, pen: Pen<C>)
    ensures Render(a + b, origin, pen) == Render(a, origin, pen) + Render(b, origin, pen)
  {
    var l := Render(a + b, origin, pen);
    var r := Render(a, origin, pen) + Render(b, origin, pen);
    assert |l| == |r|;
    forall i | 0 <= i < |l|
      ensures l[i] == r[i]
    {
      if i >= |a| {
        assert (a + b)[i] == b[i - |a|];
      }
    }
  }

  lemma RenderSnoc<C>(a: seq<Bar>, b: Bar, origin: real, pen: Pen<C>)
    ensures Render(a + [b], origin, pen) == Render(a, origin, pen) + [RectOf(b, origin, pen)]
  {
    RenderAppend(a, [b], origin, pen);
    assert Render([b], origin, pen) == [RectOf(b, origin, pen)];
  }

  /** The bar/space flag flips with the parity of the digit position. */
  lemma Toggle(i: int)
    ensures ((i + 1) % 2 == 0) == !(i % 2 == 0)
  {
  }

  /** Regrouping the page's log; stated apart so that the drawing loops prove it in a
      small context. */
  lemma AppendAssoc<T>(a: seq<T>, b: seq<T>, c: seq<T>)
    ensures (a + b) + c == a + (b + c)
  {
  }

  /** Moving a cursor that sits a modules past base on by d more modules. */
  lemma Advance(base: real, a: int, d: int, n: int, m: real, cursor: real, w: real)
    requires cursor == base + Offset(a, m) && n == a + d && w == d as real * m
    ensures cursor + w == base + Offset(n, m)
  {
    OffsetAdd(a, d, m);
    OffsetIsProduct(d, m);
  }

  /** The rectangle drawn at the cursor is the one the layout puts there. */
  lemma RectAtCursor<C>(b: Bar, origin: real, pen: Pen<C>, cursorX: real, w: real)
    requires cursorX == origin + Offset(b.start, pen.moduleWidth)
    requires w == b.modules as real * pen.moduleWidth
    ensures RectOf(b, origin, pen) == Rect(cursorX, pen.y, w, pen.height, pen.color, 0.0)
  {
    var r := RectOf(b, origin, pen);
    assert r.x == cursorX && r.width == w;
    assert r == Rect(r.x, r.y, r.width, r.height, r.color, r.borderWidth);
  }

  /** The inner loop of drawCode128B: walk the digits of one pattern from cx, the page
      position of module base, drawing a bar for every even-position digit and advancing
      the cursor by every digit; the cursor ends at module next. */
  method DrawPattern<C>(page: Page<C>, pattern: string, cx: real, ghost base: int, ghost next: int,
                        ghost origin: real, pen: Pen<C>)
      returns (cursorX: real)
    requires cx == origin + Offset(base, pen.moduleWidth) && next == base + Width(pattern)
    modifies page
    ensures page.drawn == old(page.drawn) + Render(PatternBars(pattern, |pattern|, base), origin, pen)
    ensures cursorX == origin + Offset(next, pen.moduleWidth)
  {
    cursorX := cx;
    var isBar := true;
    var i := 0;
    while i < |pattern|
      invariant 0 <= i <= |pattern|
      invariant isBar == (i % 2 == 0)
      invariant cursorX == origin + Offset(base + ModulesBefore(pattern, i), pen.moduleWidth)
      invariant page.drawn == old(page.drawn) + Render(PatternBars(pattern, i, base), origin, pen)
    {
      var w := Digit(pattern[i]) as real * pen.moduleWidth;
      PatternStep(pattern, i + 1, base);
      if isBar {
        var b := Bar(base + ModulesBefore(pattern, i), Digit(pattern[i]));
        RectAtCursor(b, origin, pen, cursorX, w);
        page.DrawRectangle(Rect(cursorX, pen.y, w, pen.height, pen.color, 0.0));
        RenderSnoc(PatternBars(pattern, i, base), b, origin, pen);
        AppendAssoc(old(page.drawn), Render(PatternBars(pattern, i, base), origin, pen), [RectOf(b, origin, pen)]);
      }
      Advance(origin, base + ModulesBefore(pattern, i), Digit(pattern[i]),
              base + ModulesBefore(pattern, i + 1), pen.moduleWidth, cursorX, w);
      cursorX := cursorX + w;
      Toggle(i);
      isBar := !isBar;
      i := i + 1;
    }
  }

  /** The outer loop of drawCode128B: draw the pattern of every symbol in turn, each
      starting where the previous one ended. */
  method DrawSymbols<C>(t: seq<string>, page: Page<C>, symbols: seq<int>, origin: real, pen: Pen<C>)
      returns (endX: real)
    requires AllInTable(t, symbols)
    modifies page
    ensures page.drawn == old(page.drawn) + Render(SymbolBars(t, symbols, |symbols|), origin, pen)
    ensures endX == origin + ModuleSum(t, symbols) as real * pen.moduleWidth
  {
    var cursorX := origin;
    var s := 0;
    while s < |symbols|
      invariant 0 <= s <= |symbols|
      invariant InTable(t, symbols, s)
      invariant cursorX == origin + Offset(SymbolModules(t, symbols, s), pen.moduleWidth)
      invariant page.drawn == old(page.drawn) + Render(SymbolBars(t, symbols, s), origin, pen)
    {
      ModulesStep(t, symbols, s);
      var pattern := t[symbols[s]];
      cursorX := DrawPattern(page, pattern, cursorX, SymbolModules(t, symbols, s),
                             SymbolModules(t, symbols, s + 1), origin, pen);
      SymbolStep(t, symbols, s + 1);
      ghost var bars := PatternBars(pattern, |pattern|, SymbolModules(t, symbols, s));
      RenderAppend(SymbolBars(t, symbols, s), bars, origin, pen);
      AppendAssoc(old(page.drawn), Render(SymbolBars(t, symbols, s), origin, pen), Render(bars, origin, pen));
      s := s + 1;
    }
    OffsetIsProduct(ModuleSum(t, symbols), pen.moduleWidth);
    return cursorX;
  }

  /** drawCode128B over a CODE128-shaped pattern table t. It applies the option defaults,
      throws if `rgb` is not a function or the text is not Code Set B (before drawing
      anything), fits the symbols and both quiet zones into `width`, and draws each
      symbol's bars left to right, restarting the bar/space alternation at every symbol.
      `endX` is the cursor after the last digit. */
  method DrawCode128BIn<C>(t: seq<string>, page: Page<C>, text: seq<CodeUnit>, opts: Options<C>)
      returns (r: Result<DrawResult, Error>, ghost endX: real)
    requires Code128Shaped(t)
    requires opts.rgb.Some? && AllInSubsetB(text) ==> Divisible(text, opts)
    modifies page
    ensures opts.rgb.None? ==> r == Failure(MissingRgb)
    ensures opts.rgb.Some? ==> (r.Failure? <==> !AllInSubsetB(text))
    ensures opts.rgb.Some? && r.Failure? ==>
      r.error.UnsupportedChar? && r.error.index < |text| &&
      !InSubsetB(text[r.error.index]) && AllInSubsetB(text[..r.error.index])
    ensures r.Failure? ==> page.drawn == old(page.drawn)
    ensures r.Success? ==>
      opts.rgb.Some? && AllInSubsetB(text) && Divisible(text, opts) &&
      r.value == DrawResult(|text| + 3, LayoutFor(text, opts).moduleWidth, QuietZone(opts)) &&
      page.drawn == old(page.drawn) + BarcodeRectsIn(t, text, opts) &&
      endX == NumberOr(opts.x, 0.0) + NumberOr(opts.width, 200.0)
                - QuietZone(opts) * LayoutFor(text, opts).moduleWidth
  {
    var x := NumberOr(opts.x, 0.0);
    var y := NumberOr(opts.y, 0.0);
    var width := NumberOr(opts.width, 200.0);
    var height := NumberOr(opts.height, 50.0);
    var quietZoneModules := QuietZone(opts);
    endX := x;

    if opts.rgb.None? {
      return Failure(MissingRgb), endX;
    }
    var rgbFn := opts.rgb.value;
    var color := if opts.color.Some? then opts.color.value else rgbFn(0.0, 0.0, 0.0);

    var encoded := Encode(text);
    if encoded.Failure? {
      return Failure(encoded.error), endX;
    }
    var symbols := encoded.value;
    EncodingModulesIn(t, text);
    var counted := TotalModulesIn(t, symbols);
    var dataModules := counted.value;
    var totalModules := dataModules as real + quietZoneModules * 2.0;

    var moduleW := width / totalModules;
    var cursorX := x + quietZoneModules * moduleW;
    ghost var g := LayoutFor(text, opts);
    assert moduleW == g.moduleWidth && cursorX == g.startX;

    var finalX := DrawSymbols(t, page, symbols, cursorX, Pen(moduleW, y, height, color));
    endX := finalX;
    assert page.drawn == old(page.drawn) + BarcodeRectsIn(t, text, opts);
    assert endX == x + width - quietZoneModules * g.moduleWidth;

    return Success(DrawResult(|symbols|, moduleW, quietZoneModules)), endX;
  }

  /** drawCode128B over the CODE128 pattern table. */
  method DrawCode128B<C>(page: Page<C>, text: seq<CodeUnit>, opts: Options<C>)
      returns (r: Result<DrawResult, Error>, ghost endX: real)
    requires opts.rgb.Some? && AllInSubsetB(text) ==> Divisible(text, opts)
    modifies page
    ensures opts.rgb.None? ==> r == Failure(MissingRgb)
    ensures opts.rgb.Some? ==> (r.Failure? <==> !AllInSubsetB(text))
    ensures opts.rgb.Some? && r.Failure? ==>
      r.error.UnsupportedChar? && r.error.index < |text| &&
      !InSubsetB(text[r.error.index]) && AllInSubsetB(text[..r.error.index])
    ensures r.Failure? ==> page.drawn == old(page.drawn)
    ensures r.Success? ==>
      opts.rgb.Some? && AllInSubsetB(text) && Divisible(text, opts) &&
      r.value == DrawResult(|text| + 3, LayoutFor(text, opts).moduleWidth, QuietZone(opts)) &&
      page.drawn == old(page.drawn) + BarcodeRects(text, opts) &&
      endX == NumberOr(opts.x, 0.0) + NumberOr(opts.width, 200.0)
                - QuietZone(opts) * LayoutFor(text, opts).moduleWidth
  {
    TableShape();
    r, endX := DrawCode128BIn(Patterns, page, text, opts);
  }
}
