/** Where drawCode128B puts its bars, counted in modules: the left-to-right walk over every
    symbol's pattern, with the digits at even positions of a pattern drawn as bars and those
    at odd positions skipped as spaces. Positions count from the first module of the first
    symbol; the renderer scales them by the module width. */
module Code128Bars {
  import opened Code128Table
  import opened Code128Encoder
  import opened Code128Modules

  /** A bar: the module it starts at and how many modules wide it is. */
  datatype Bar = Bar(start: int, modules: int)

  function End(b: Bar): int
  {
    b.start + b.modules
  }

  /** The bars of the first n digits of pattern p when its first module is base. */
  function PatternBars(p: string, n: nat, base: int): seq<Bar>
    requires n <= |p|
  {
    if n == 0 then []
    else
      PatternBars(p, n - 1, base) +
      (if (n - 1) % 2 == 0 then [Bar(base + ModulesBefore(p, n - 1), Digit(p[n - 1]))] else [])
  }

  /** The bars of the patterns, in table t, of the first n symbols, each symbol starting
      where the one before it ends. */
  function SymbolBars(t: seq<string>, symbols: seq<int>, n: nat): seq<Bar>
    requires InTable(t, symbols, n)
  {
    if n == 0 then []
    else
      var p := t[symbols[n - 1]];
      SymbolBars(t, symbols, n - 1) + PatternBars(p, |p|, SymbolModules(t, symbols, n - 1))
  }

  /** Bars laid out left to right inside modules lo..hi, none overlapping the next. */
  predicate Ordered(bars: seq<Bar>, lo: int, hi: int)
  {
    && (forall i :: 0 <= i < |bars| ==> lo <= bars[i].start && End(bars[i]) <= hi)
    && (forall i, j :: 0 <= i < j < |bars| ==> End(bars[i]) <= bars[j].start)
  }

  /** Every bar is one to four modules wide. */
  predicate ModuleWidths(bars: seq<Bar>)
  {
    forall i :: 0 <= i < |bars| ==> 1 <= bars[i].modules <= 4
  }

  lemma OrderedAppend(a: seq<Bar>, b: seq<Bar>, lo: int, mid: int, hi: int)
    requires Ordered(a, lo, mid) && Ordered(b, mid, hi) && lo <= mid <= hi
    ensures Ordered(a + b, lo, hi)
  {
    var c := a + b;
    forall i, j | 0 <= i < j < |c|
      ensures End(c[i]) <= c[j].start
    {
      if j >= |a| && i < |a| {
        assert c[i] == a[i] && c[j] == b[j - |a|];
      }
    }
  }

  /** One more digit of a pattern: a bar exactly when the digit is at an even position. */
  lemma PatternStep(p: string, n: nat, base: int)
    requires 0 < n <= |p|
    ensures (n - 1) % 2 == 0 ==>
      PatternBars(p, n, base) ==
      PatternBars(p, n - 1, base) + [Bar(base + ModulesBefore(p, n - 1), Digit(p[n - 1]))]
    ensures (n - 1) % 2 != 0 ==> PatternBars(p, n, base) == PatternBars(p, n - 1, base)
  {
    if (n - 1) % 2 != 0 {
      assert PatternBars(p, n - 1, base) + [] == PatternBars(p, n - 1, base);
    }
  }

  /** One more symbol: its pattern's bars follow those of the symbols before it. */
  lemma SymbolStep(t: seq<string>, symbols: seq<int>, n: nat)
    requires InTable(t, symbols, n) && 0 < n
    ensures SymbolBars(t, symbols, n) ==
      SymbolBars(t, symbols, n - 1) +
      PatternBars(t[symbols[n - 1]], |t[symbols[n - 1]]|, SymbolModules(t, symbols, n - 1))
  {
  }

  /** A digit of a CODE128 pattern is a width of one to four modules. */
  lemma DigitRange(p: string, j: nat)
    requires ModuleDigits(p) && j < |p|
    ensures 1 <= Digit(p[j]) <= 4
  {
  }

  /** A pattern draws a bar for each of its first, third, fifth, ... digits. */
  lemma {:induction false} PatternBarCount(p: string, n: nat, base: int)
    requires n <= |p|
    ensures |PatternBars(p, n, base)| == (n + 1) / 2
  {
    if n > 0 {
      PatternBarCount(p, n - 1, base);
    }
  }

  /** Ordered bars stay ordered when a bar that starts where they end is added. */
  lemma OrderedSnoc(front: seq<Bar>, b: Bar, lo: int, hi: int)
    requires Ordered(front, lo, b.start) && lo <= b.start && 0 <= b.modules && End(b) <= hi
    ensures Ordered(front + [b], lo, hi)
  {
    OrderedAppend(front, [b], lo, b.start, hi);
  }

  /** Bars inside lo..mid are inside any wider range lo..hi. */
  lemma OrderedWiden(bars: seq<Bar>, lo: int, mid: int, hi: int)
    requires Ordered(bars, lo, mid) && mid <= hi
    ensures Ordered(bars, lo, hi)
  {
  }

  /** Every bar of a pattern is one to four modules wide. */
  lemma {:induction false} PatternBarsWidths(p: string, n: nat, base: int)
    requires ModuleDigits(p) && n <= |p|
    ensures ModuleWidths(PatternBars(p, n, base))
  {
    if n > 0 {
      PatternBarsWidths(p, n - 1, base);
      DigitRange(p, n - 1);
      PatternStep(p, n, base);
    }
  }

  /** Each digit of a pattern spans at least one module. */
  lemma {:induction false} ModulesAtLeastDigits(p: string, n: nat)
    requires ModuleDigits(p) && n <= |p|
    ensures n <= ModulesBefore(p, n)
  {
    if n > 0 {
      ModulesAtLeastDigits(p, n - 1);
      DigitRange(p, n - 1);
    }
  }

  /** The bars of a pattern lie left to right inside the modules it spans. */
  lemma {:induction false} PatternBarsOrdered(p: string, n: nat, base: int)
    requires ModuleDigits(p) && n <= |p|
    ensures Ordered(PatternBars(p, n, base), base, base + ModulesBefore(p, n))
  {
    if n > 0 {
      PatternBarsOrdered(p, n - 1, base);
      ModulesAtLeastDigits(p, n - 1);
      DigitRange(p, n - 1);
      var mid := base + ModulesBefore(p, n - 1);
      var hi := base + ModulesBefore(p, n);
      assert hi == mid + Digit(p[n - 1]);
      PatternStep(p, n, base);
      if (n - 1) % 2 == 0 {
        OrderedSnoc(PatternBars(p, n - 1, base), Bar(mid, Digit(p[n - 1])), base, hi);
      } else {
        OrderedWiden(PatternBars(p, n - 1, base), base, mid, hi);
      }
    }
  }

  /** Every entry of a CODE128-shaped table is made of module-width digits. */
  lemma ShapedEntry(t: seq<string>, code: int)
    requires Code128Shaped(t) && 0 <= code < |t|
    ensures ModuleDigits(t[code])
    ensures code < Stop ==> |t[code]| == 6 && Width(t[code]) == 11
    ensures code == Stop ==> |t[code]| == 7 && Width(t[code]) == 13
  {
  }

  /** The bars of a symbol sequence lie left to right inside the modules the sequence
      spans, none overlapping the next, each one to four modules wide. */
  lemma {:induction false} SymbolBarsOrdered(t: seq<string>, symbols: seq<int>, n: nat)
    requires Code128Shaped(t) && InTable(t, symbols, n)
    ensures 0 <= SymbolModules(t, symbols, n)
    ensures Ordered(SymbolBars(t, symbols, n), 0, SymbolModules(t, symbols, n))
    ensures ModuleWidths(SymbolBars(t, symbols, n))
  {
    if n > 0 {
      SymbolBarsOrdered(t, symbols, n - 1);
      var p := t[symbols[n - 1]];
      var base := SymbolModules(t, symbols, n - 1);
      ShapedEntry(t, symbols[n - 1]);
      PatternBarsOrdered(p, |p|, base);
      PatternBarsWidths(p, |p|, base);
      SymbolStep(t, symbols, n);
      var a := SymbolBars(t, symbols, n - 1);
      var b := PatternBars(p, |p|, base);
      OrderedAppend(a, b, 0, base, base + Width(p));
      var c := a + b;
      forall i | 0 <= i < |c|
        ensures 1 <= c[i].modules <= 4
      {
        if i >= |a| {
          assert c[i] == b[i - |a|];
        }
      }
    }
  }

  /** Three bars for every symbol but Stop. */
  lemma {:induction false} SymbolBarCount(t: seq<string>, symbols: seq<int>, n: nat)
    requires Code128Shaped(t) && n <= |symbols|
    requires forall k :: 0 <= k < n ==> 0 <= symbols[k] < Stop
    ensures InTable(t, symbols, n)
    ensures |SymbolBars(t, symbols, n)| == 3 * n
  {
    if n > 0 {
      SymbolBarCount(t, symbols, n - 1);
      var p := t[symbols[n - 1]];
      PatternBarCount(p, |p|, SymbolModules(t, symbols, n - 1));
      SymbolStep(t, symbols, n);
    }
  }

  /** The CODE128-B encoding of n characters is drawn as 3 * (n + 2) + 4 bars: three for
      Start B, each data symbol and the check symbol, four for Stop. */
  lemma EncodingBarCount(t: seq<string>, text: seq<CodeUnit>)
    requires Code128Shaped(t) && AllInSubsetB(text)
    ensures AllInTable(t, Encoding(text))
    ensures |SymbolBars(t, Encoding(text), |Encoding(text)|)| == 3 * (|text| + 2) + 4
  {
    var e := Encoding(text);
    EncodingUsesTable(text);
    EncodingShape(text);
    SymbolBarCount(t, e, |e| - 1);
    var p := t[Stop];
    PatternBarCount(p, |p|, SymbolModules(t, e, |e| - 1));
    SymbolStep(t, e, |e|);
  }

  /** The digits in the patterns of the first n symbols. */
  function DigitCount(t: seq<string>, symbols: seq<int>, n: nat): int
    requires InTable(t, symbols, n)
  {
    if n == 0 then 0 else DigitCount(t, symbols, n - 1) + |t[symbols[n - 1]]|
  }

  /** The bars of the first n digits of pattern p when offset digits precede it and the
      bar/space alternation carries on across symbols: digit j is a bar when offset + j
      is even. */
  function CarriedPatternBars(p: string, n: nat, base: int, offset: int): seq<Bar>
    requires n <= |p|
  {
    if n == 0 then []
    else
      CarriedPatternBars(p, n - 1, base, offset) +
      (if (offset + n - 1) % 2 == 0 then [Bar(base + ModulesBefore(p, n - 1), Digit(p[n - 1]))] else [])
  }

  /** The bars of the first n symbols if the alternation ran on from symbol to symbol
      instead of restarting with a bar at every symbol. */
  function ContinuousBars(t: seq<string>, symbols: seq<int>, n: nat): seq<Bar>
    requires InTable(t, symbols, n)
  {
    if n == 0 then []
    else
      var p := t[symbols[n - 1]];
      ContinuousBars(t, symbols, n - 1) +
      CarriedPatternBars(p, |p|, SymbolModules(t, symbols, n - 1), DigitCount(t, symbols, n - 1))
  }

  /** After an even number of digits the carried alternation is the restarted one. */
  lemma {:induction false} CarriedEven(p: string, n: nat, base: int, offset: int)
    requires n <= |p| && offset % 2 == 0
    ensures CarriedPatternBars(p, n, base, offset) == PatternBars(p, n, base)
  {
    if n > 0 {
      CarriedEven(p, n - 1, base, offset);
      assert ((offset + n - 1) % 2 == 0) == ((n - 1) % 2 == 0);
    }
  }

  /** Six digits for every symbol but Stop. */
  lemma {:induction false} DigitCountOfSymbols(t: seq<string>, symbols: seq<int>, n: nat)
    requires Code128Shaped(t) && n <= |symbols|
    requires forall k :: 0 <= k < n ==> 0 <= symbols[k] < Stop
    ensures InTable(t, symbols, n)
    ensures DigitCount(t, symbols, n) == 6 * n
  {
    if n > 0 {
      DigitCountOfSymbols(t, symbols, n - 1);
    }
  }

  /** When only the last symbol may be Stop, every symbol starts after an even number of
      digits, so restarting the alternation at each symbol draws the same bars as carrying
      it on. */
  lemma {:induction false} ContinuousMatchesRestart(t: seq<string>, symbols: seq<int>, n: nat)
    requires Code128Shaped(t) && InTable(t, symbols, n)
    requires forall k :: 0 <= k < n - 1 ==> 0 <= symbols[k] < Stop
    ensures ContinuousBars(t, symbols, n) == SymbolBars(t, symbols, n)
  {
    if n > 0 {
      ContinuousMatchesRestart(t, symbols, n - 1);
      DigitCountOfSymbols(t, symbols, n - 1);
      var p := t[symbols[n - 1]];
      CarriedEven(p, |p|, SymbolModules(t, symbols, n - 1), DigitCount(t, symbols, n - 1));
    }
  }

  /** So on an encoding, where Stop comes last, the two readings of the alternation agree. */
  lemma EncodingContinuous(t: seq<string>, text: seq<CodeUnit>)
    requires Code128Shaped(t) && AllInSubsetB(text)
    ensures AllInTable(t, Encoding(text))
    ensures ContinuousBars(t, Encoding(text), |Encoding(text)|) == SymbolBars(t, Encoding(text), |Encoding(text)|)
  {
    EncodingUsesTable(text);
    ContinuousMatchesRestart(t, Encoding(text), |Encoding(text)|);
  }
}
