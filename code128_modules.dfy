/** code128TotalModules: the number of modules a symbol sequence occupies, the sum of the
    digits of every symbol's pattern. */
module Code128Modules {
  import opened Wrappers
  import opened Code128Table
  import opened Code128Encoder

  /** Each of the first n symbols has an entry in table t. */
  predicate InTable(t: seq<string>, symbols: seq<int>, n: nat)
  {
    n <= |symbols| && forall k :: 0 <= k < n ==> 0 <= symbols[k] < |t|
  }

  /** Every symbol has an entry in table t. */
  predicate AllInTable(t: seq<string>, symbols: seq<int>)
  {
    InTable(t, symbols, |symbols|)
  }

  /** The modules taken by the patterns, in table t, of the first n symbols. */
  function SymbolModules(t: seq<string>, symbols: seq<int>, n: nat): int
    requires InTable(t, symbols, n)
  {
    if n == 0 then 0 else SymbolModules(t, symbols, n - 1) + Width(t[symbols[n - 1]])
  }

  lemma ModulesStep(t: seq<string>, symbols: seq<int>, s: nat)
    requires AllInTable(t, symbols) && s < |symbols|
    ensures InTable(t, symbols, s) && InTable(t, symbols, s + 1)
    ensures SymbolModules(t, symbols, s + 1) == SymbolModules(t, symbols, s) + Width(t[symbols[s]])
  {
  }

  /** The modules taken by the whole symbol sequence. */
  function ModuleSum(t: seq<string>, symbols: seq<int>): int
    requires AllInTable(t, symbols)
  {
    SymbolModules(t, symbols, |symbols|)
  }

  /** The inner loop of the module counter: adds the digits of pattern p to total. */
  method AddModules(total: int, p: string) returns (sum: int)
    ensures sum == total + Width(p)
  {
    sum := total;
    var j := 0;
    while j < |p|
      invariant 0 <= j <= |p|
      invariant sum == total + ModulesBefore(p, j)
    {
      sum := sum + Digit(p[j]);
      j := j + 1;
    }
  }

  /** The module counter over pattern table t. It throws on the first code with no
      pattern, naming the code, and otherwise returns the total module count. */
  method TotalModulesIn(t: seq<string>, symbols: seq<int>) returns (r: Result<int, Error>)
    ensures r.Failure? <==> !AllInTable(t, symbols)
    ensures r.Failure? ==>
      exists k :: 0 <= k < |symbols| && !(0 <= symbols[k] < |t|) &&
        InTable(t, symbols, k) && r.error == InvalidPatternIndex(symbols[k])
    ensures r.Success? ==> r.value == ModuleSum(t, symbols)
  {
    var total := 0;
    var i := 0;
    while i < |symbols|
      invariant 0 <= i <= |symbols|
      invariant InTable(t, symbols, i)
      invariant total == SymbolModules(t, symbols, i)
    {
      var code := symbols[i];
      if !(0 <= code < |t|) {
        return Failure(InvalidPatternIndex(code));
      }
      total := AddModules(total, t[code]);
      i := i + 1;
    }
    return Success(total);
  }

  /** code128TotalModules: the module counter over the CODE128 table. */
  method TotalModules(symbols: seq<int>) returns (r: Result<int, Error>)
    ensures r.Failure? <==> !AllInTable(Patterns, symbols)
    ensures r.Failure? ==>
      exists k :: 0 <= k < |symbols| && !ValidCode(symbols[k]) &&
        InTable(Patterns, symbols, k) && r.error == InvalidPatternIndex(symbols[k])
    ensures r.Success? ==> r.value == ModuleSum(Patterns, symbols)
  {
    TableSize();
    r := TotalModulesIn(Patterns, symbols);
  }

  /** In a CODE128-shaped table, eleven modules for every symbol but Stop. */
  lemma {:induction false} ModulesOfSymbols(t: seq<string>, symbols: seq<int>, n: nat)
    requires Code128Shaped(t) && n <= |symbols|
    requires forall k :: 0 <= k < n ==> 0 <= symbols[k] < Stop
    ensures InTable(t, symbols, n)
    ensures SymbolModules(t, symbols, n) == 11 * n
  {
    if n != 0 {
      ModulesOfSymbols(t, symbols, n - 1);
    }
  }

  /** In a CODE128-shaped table an encoding of n characters occupies 11 * n + 35 modules:
      Start B, n data symbols and the check symbol at eleven modules each, and the
      thirteen-module Stop. */
  lemma EncodingModulesIn(t: seq<string>, text: seq<CodeUnit>)
    requires Code128Shaped(t) && AllInSubsetB(text)
    ensures AllInTable(t, Encoding(text))
    ensures ModuleSum(t, Encoding(text)) == 11 * |text| + 35
  {
    var e := Encoding(text);
    EncodingUsesTable(text);
    EncodingShape(text);
    ModulesOfSymbols(t, e, |e| - 1);
  }

  /** So the CODE128-B encoding of n characters occupies 11 * n + 35 modules, and the
      module counter's invalid-index throw cannot fire on it. */
  lemma EncodingModules(text: seq<CodeUnit>)
    requires AllInSubsetB(text)
    ensures AllInTable(Patterns, Encoding(text))
    ensures ModuleSum(Patterns, Encoding(text)) == 11 * |text| + 35
  {
    TableShape();
    EncodingModulesIn(Patterns, text);
  }
}
