/** The CODE128 symbol pattern table: for every symbol code 0..106 the widths, in modules,
    of its alternating bars and spaces (bar first), written as a string of decimal digits.
    Code 104 is Start B and code 106 is Stop, the only seven-digit entry: its trailing bar
    is the termination bar. The entries are written in rows of ten codes, as in the source. */
module Code128Table {

  const StartB: int := 104
  const Stop: int := 106

  const Row0: seq<string> := ["212222", "222122", "222221", "121223", "121322", "131222", "122213", "122312", "132212", "221213"]
  const Row1: seq<string> := ["221312", "231212", "112232", "122132", "122231", "113222", "123122", "123221", "223211", "221132"]
  const Row2: seq<string> := ["221231", "213212", "223112", "312131", "311222", "321122", "321221", "312212", "322112", "322211"]
  const Row3: seq<string> := ["212123", "212321", "232121", "111323", "131123", "131321", "112313", "132113", "132311", "211313"]
  const Row4: seq<string> := ["231113", "231311", "112133", "112331", "132131", "113123", "113321", "133121", "313121", "211331"]
  const Row5: seq<string> := ["231131", "213113", "213311", "213131", "311123", "311321", "331121", "312113", "312311", "332111"]
  const Row6: seq<string> := ["314111", "221411", "431111", "111224", "111422", "121124", "121421", "141122", "141221", "112214"]
  const Row7: seq<string> := ["112412", "122114", "122411", "142112", "142211", "241211", "221114", "413111", "241112", "134111"]
  const Row8: seq<string> := ["111242", "121142", "121241", "114212", "124112", "124211", "411212", "421112", "421211", "212141"]
  const Row9: seq<string> := ["214121", "412121", "111143", "111341", "131141", "114113", "114311", "411113", "411311", "113141"]
  const Row10: seq<string> := ["114131", "311141", "411131", "211412", "211214", "211232", "2331112"]

  /** CODE128_PATTERNS: entry `code` is the pattern of symbol code `code`. */
  const Patterns: seq<string> :=
    Row0 + Row1 + Row2 + Row3 + Row4 + Row5 + Row6 + Row7 + Row8 + Row9 + Row10

  /** The table covers codes 0..106. */
  const PatternCount: int := 107

  predicate ValidCode(code: int)
  {
    0 <= code < PatternCount
  }

  lemma TableSize()
    ensures |Patterns| == PatternCount
  {
  }

  /** `Number(ch)` for a decimal digit character. */
  function Digit(ch: char): int
  {
    ch as int - '0' as int
  }

  /** The modules taken by the first n digits of pattern p. */
  function ModulesBefore(p: string, n: nat): int
    requires n <= |p|
  {
    if n == 0 then 0 else ModulesBefore(p, n - 1) + Digit(p[n - 1])
  }

  /** The modules a whole pattern takes. */
  function Width(p: string): int
  {
    ModulesBefore(p, |p|)
  }

  /** Every digit is a module width of one to four modules. */
  predicate ModuleDigits(p: string)
  {
    forall j :: 0 <= j < |p| ==> '1' <= p[j] <= '4'
  }

  /** A data, start or code-switch symbol: three bars and three spaces over eleven modules. */
  predicate SymbolPattern(p: string)
  {
    |p| == 6 && Width(p) == 11 && ModuleDigits(p)
  }

  /** The stop pattern: four bars and three spaces over thirteen modules. */
  predicate StopPattern(p: string)
  {
    |p| == 7 && Width(p) == 13 && ModuleDigits(p)
  }

  /** The shape of a CODE128 pattern table: 107 entries, every one but Stop a six-digit
      eleven-module symbol, Stop a seven-digit thirteen-module one. The functions and
      lemmas about symbol sequences are stated for any table of this shape, so that their
      proofs rest on this invariant and not on the 107 literals; TableShape proves that
      the CODE128 table has it. */
  predicate Code128Shaped(t: seq<string>)
  {
    && |t| == PatternCount
    && (forall code :: 0 <= code < Stop ==> SymbolPattern(t[code]))
    && StopPattern(t[Stop])
  }

  lemma Row0Shape()
    ensures forall i :: 0 <= i < |Row0| ==> SymbolPattern(Row0[i])
  {
  }

  lemma Row0InTable()
    ensures Patterns[0..10] == Row0
  {
  }

  lemma Row1Shape()
    ensures forall i :: 0 <= i < |Row1| ==> SymbolPattern(Row1[i])
  {
  }

  lemma Row1InTable()
    ensures Patterns[10..20] == Row1
  {
  }

  lemma Row2Shape()
    ensures forall i :: 0 <= i < |Row2| ==> SymbolPattern(Row2[i])
  {
  }

  lemma Row2InTable()
    ensures Patterns[20..30] == Row2
  {
  }

  lemma Row3Shape()
    ensures forall i :: 0 <= i < |Row3| ==> SymbolPattern(Row3[i])
  {
  }

  lemma Row3InTable()
    ensures Patterns[30..40] == Row3
  {
  }

  lemma Row4Shape()
    ensures forall i :: 0 <= i < |Row4| ==> SymbolPattern(Row4[i])
  {
  }

  lemma Row4InTable()
    ensures Patterns[40..50] == Row4
  {
  }

  lemma Row5Shape()
    ensures forall i :: 0 <= i < |Row5| ==> SymbolPattern(Row5[i])
  {
  }

  lemma Row5InTable()
    ensures Patterns[50..60] == Row5
  {
  }

  lemma Row6Shape()
    ensures forall i :: 0 <= i < |Row6| ==> SymbolPattern(Row6[i])
  {
  }

  lemma Row6InTable()
    ensures Patterns[60..70] == Row6
  {
  }

  lemma Row7Shape()
    ensures forall i :: 0 <= i < |Row7| ==> SymbolPattern(Row7[i])
  {
  }

  lemma Row7InTable()
    ensures Patterns[70..80] == Row7
  {
  }

  lemma Row8Shape()
    ensures forall i :: 0 <= i < |Row8| ==> SymbolPattern(Row8[i])
  {
  }

  lemma Row8InTable()
    ensures Patterns[80..90] == Row8
  {
  }

  lemma Row9Shape()
    ensures forall i :: 0 <= i < |Row9| ==> SymbolPattern(Row9[i])
  {
  }

  lemma Row9InTable()
    ensures Patterns[90..100] == Row9
  {
  }

  lemma Row10Shape()
    ensures forall i :: 0 <= i < 6 ==> SymbolPattern(Row10[i])
  {
  }

  lemma StopShape()
    ensures StopPattern(Row10[6])
  {
  }

  lemma Row10InTable()
    ensures Patterns[100..107] == Row10
  {
  }

  /** The table invariant: 107 entries; entries 0..105 are six digits summing to 11,
      entry 106 is seven digits summing to 13, every digit is 1..4; Start B is 211214
      and Stop is 2331112. */
  lemma TableShape()
    ensures Code128Shaped(Patterns)
    ensures Patterns[StartB] == "211214" && Patterns[Stop] == "2331112"
  {
    TableSize();
    forall code | 0 <= code < Stop
      ensures SymbolPattern(Patterns[code])
    {
      if code < 10 {
        Row0InTable(); Row0Shape();
        assert Patterns[code] == Patterns[0..10][code];
      }
      else if code < 20 {
        Row1InTable(); Row1Shape();
        assert Patterns[code] == Patterns[10..20][code - 10];
      }
      else if code < 30 {
        Row2InTable(); Row2Shape();
        assert Patterns[code] == Patterns[20..30][code - 20];
      }
      else if code < 40 {
        Row3InTable(); Row3Shape();
        assert Patterns[code] == Patterns[30..40][code - 30];
      }
      else if code < 50 {
        Row4InTable(); Row4Shape();
        assert Patterns[code] == Patterns[40..50][code - 40];
      }
      else if code < 60 {
        Row5InTable(); Row5Shape();
        assert Patterns[code] == Patterns[50..60][code - 50];
      }
      else if code < 70 {
        Row6InTable(); Row6Shape();
        assert Patterns[code] == Patterns[60..70][code - 60];
      }
      else if code < 80 {
        Row7InTable(); Row7Shape();
        assert Patterns[code] == Patterns[70..80][code - 70];
      }
      else if code < 90 {
        Row8InTable(); Row8Shape();
        assert Patterns[code] == Patterns[80..90][code - 80];
      }
      else if code < 100 {
        Row9InTable(); Row9Shape();
        assert Patterns[code] == Patterns[90..100][code - 90];
      }
      else if code < 106 {
        Row10InTable(); Row10Shape();
        assert Patterns[code] == Patterns[100..107][code - 100];
      }
    }
    Row10InTable();
    StopShape();
    assert Patterns[Stop] == Patterns[100..107][6];
    assert Patterns[StartB] == Patterns[100..107][4];
  }
}
