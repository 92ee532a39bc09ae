/** The CODE128 Code Set B encoder: printable ASCII text to a checksummed sequence of
    symbol codes, [Start B, data values..., checksum, Stop]. */
module Code128Encoder {
  import opened Wrappers
  import opened Code128Table

  /** A UTF-16 code unit, as returned by `String.prototype.charCodeAt`. */
  type CodeUnit = c: int | 0 <= c < 0x1_0000

  /** Code Set B covers the code units 32..127. */
  predicate InSubsetB(c: int)
  {
    32 <= c <= 127
  }

  predicate AllInSubsetB(text: seq<CodeUnit>)
  {
    forall i :: 0 <= i < |text| ==> InSubsetB(text[i])
  }

  /** The data symbol value of each character: its code unit minus 32. */
  function DataValues(text: seq<CodeUnit>): seq<int>
  {
    seq(|text|, i requires 0 <= i < |text| => text[i] as int - 32)
  }

  /** The sum of v[i] * (i + 1), accumulated from the left. */
  function WeightedSum(v: seq<int>): int
  {
    if v == [] then 0 else WeightedSum(v[..|v| - 1]) + v[|v| - 1] * |v|
  }

  /** The check symbol: Start B's value plus the position-weighted data values, mod 103. */
  function Checksum(text: seq<CodeUnit>): int
  {
    (StartB + WeightedSum(DataValues(text))) % 103
  }

  /** The symbol sequence the encoder returns for valid text. */
  function Encoding(text: seq<CodeUnit>): seq<int>
  {
    [StartB] + DataValues(text) + [Checksum(text), Stop]
  }

  /** code128BEncode. It validates every code unit first and throws on the first one outside
      32..127, naming its index; otherwise it returns [104, data..., checksum, 106]. */
  method Encode(text: seq<CodeUnit>) returns (r: Result<seq<int>, Error>)
    ensures r.Failure? <==> !AllInSubsetB(text)
    ensures r.Failure? ==>
      r.error.UnsupportedChar? && r.error.index < |text| &&
      !InSubsetB(text[r.error.index]) && AllInSubsetB(text[..r.error.index])
    ensures r.Success? ==> r.value == Encoding(text)
  {
    var i := 0;
    while i < |text|
      invariant 0 <= i <= |text|
      invariant AllInSubsetB(text[..i])
    {
      var c := text[i];
      if c < 32 || c > 127 {
        return Failure(UnsupportedChar(i));
      }
      assert text[..i + 1] == text[..i] + [c];
      i := i + 1;
    }
    assert text[..i] == text;

    var codes: seq<int> := [];
    i := 0;
    while i < |text|
      invariant 0 <= i <= |text|
      invariant codes == DataValues(text)[..i]
    {
      codes := codes + [text[i] as int - 32];
      i := i + 1;
    }
    assert codes == DataValues(text);

    var checksum := StartB;
    i := 0;
    while i < |codes|
      invariant 0 <= i <= |codes|
      invariant checksum == StartB + WeightedSum(codes[..i])
    {
      assert codes[..i + 1][..i] == codes[..i];
      checksum := checksum + codes[i] * (i + 1);
      i := i + 1;
    }
    assert codes[..i] == codes;

    checksum := checksum % 103;
    return Success([StartB] + codes + [checksum, Stop]);
  }

  /** Shape of a successful encoding: |text| + 3 symbols, Start B first and Stop last,
      symbol i + 1 the data value of text[i] (0..95), and a check symbol in 0..102. */
  lemma EncodingShape(text: seq<CodeUnit>)
    requires AllInSubsetB(text)
    ensures |Encoding(text)| == |text| + 3
    ensures Encoding(text)[0] == StartB && Encoding(text)[|text| + 2] == Stop
    ensures forall i :: 0 <= i < |text| ==>
      Encoding(text)[i + 1] == text[i] - 32 && 0 <= Encoding(text)[i + 1] <= 95
    ensures Encoding(text)[|text| + 1] == Checksum(text) && 0 <= Checksum(text) <= 102
  {
  }

  /** Every symbol of an encoding is an index the pattern table has an entry for, so the
      invalid-index check of the module counter never fires on encoder output. */
  lemma EncodingUsesTable(text: seq<CodeUnit>)
    requires AllInSubsetB(text)
    ensures forall k :: 0 <= k < |Encoding(text)| ==> ValidCode(Encoding(text)[k])
    ensures forall k :: 0 <= k < |Encoding(text)| - 1 ==> Encoding(text)[k] < Stop
  {
    EncodingShape(text);
    var e := Encoding(text);
    forall k | 0 <= k < |e|
      ensures ValidCode(e[k]) && (k < |e| - 1 ==> e[k] < Stop)
    {
      if 1 <= k <= |text| {
        assert e[k] == text[k - 1] - 32;
      }
    }
  }

  /** Reading side of Code Set B, the inverse of the encoder: a symbol sequence framed by
      Start B and Stop whose data values are in 0..95 and whose check symbol matches
      gives back the text. */
  function Decode(symbols: seq<int>): Option<seq<CodeUnit>>
  {
    if |symbols| < 3 || symbols[0] != StartB || symbols[|symbols| - 1] != Stop then None
    else
      var data := symbols[1..|symbols| - 2];
      if !(forall i :: 0 <= i < |data| ==> 0 <= data[i] <= 95) then None
      else
        var text := seq(|data|, i requires 0 <= i < |data| && 0 <= data[i] <= 95 => (data[i] + 32) as CodeUnit);
        if symbols[|symbols| - 2] != Checksum(text) then None else Some(text)
  }

  /** Decoding an encoding gives back the text. */
  lemma DecodeEncoding(text: seq<CodeUnit>)
    requires AllInSubsetB(text)
    ensures Decode(Encoding(text)) == Some(text)
  {
    var e := Encoding(text);
    EncodingShape(text);
    var data := e[1..|e| - 2];
    assert data == DataValues(text);
    var back := seq(|data|, i requires 0 <= i < |data| && 0 <= data[i] <= 95 => (data[i] + 32) as CodeUnit);
    assert back == text;
  }

  /** Only encodings decode: a sequence that decodes to some text is that text's encoding,
      and the text is in Code Set B. */
  lemma DecodeOnlyEncodings(symbols: seq<int>, text: seq<CodeUnit>)
    requires Decode(symbols) == Some(text)
    ensures AllInSubsetB(text)
    ensures Encoding(text) == symbols
  {
    var data := symbols[1..|symbols| - 2];
    assert DataValues(text) == data;
    assert symbols == [symbols[0]] + data + [symbols[|symbols| - 2], symbols[|symbols| - 1]];
  }

  /** Worked cases: the empty text, "A", and "ABC-123456", the text the node's noOp path
      passes (FuturepdfLib.node.ts:318). */
  lemma EncodingExamples()
    ensures Encoding([]) == [104, 1, 106]
    ensures Encoding([65]) == [104, 33, 34, 106]
    ensures |Encoding([65, 66, 67, 45, 49, 50, 51, 52, 53, 54])| == 13
  {
    assert WeightedSum([33]) == 33 by {
      assert [33][..0] == [];
    }
  }
}
