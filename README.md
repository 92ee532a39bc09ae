# CODE128-B barcode renderer, modelled in Dafny

The source file of the FuturePDF n8n node, `nodes/FuturepdfLib/FuturepdfLib.node.ts`,
contains a CODE128 Code Set B renderer, `drawCode128B`. It needs no canvas: it draws
filled rectangles on the pdf-lib page it is given. The renderer has four parts:

- `CODE128_PATTERNS`: the table of the 107 CODE128 bar/space width patterns.
- `code128BEncode`: turns printable ASCII text into symbol codes. It validates every
  character, maps each one to its data value (code unit minus 32), computes the mod-103
  position-weighted checksum, and frames the result as `[104, data..., checksum, 106]`.
- `code128TotalModules`: sums the module widths of the symbols' patterns. It throws on a
  code that has no pattern.
- `drawCode128B`: applies the option defaults and requires an `rgb` function. It fits
  the symbols and two quiet zones into the box width, then walks every pattern digit by
  digit. Digits at even positions become filled rectangles (bars) and digits at odd
  positions are skipped (spaces). The cursor advances by every digit.

Modules:

- `Wrappers`: `Option`, `Result`, and the error kinds the source throws.
- `Code128Table`: the pattern table, written as its eleven source rows.
  - `TableShape` proves that 106 entries are six digits summing to 11 modules, that Stop
    is seven digits summing to 13, and that every digit is 1 to 4.
  - The lemmas about symbol sequences are stated for any table of that shape
    (`Code128Shaped`). The long table literal is instantiated only where the source uses
    it.
- `Code128Encoder`: `Encode` is the three loops of `code128BEncode`, proved against the
  function `Encoding`. The lemmas give the shape of the output, its range and a
  reading-side inverse `Decode`.
- `Code128Modules`: `TotalModulesIn`/`TotalModules` is the module-counting loop, proved
  against `ModuleSum`. An encoding of n characters always spans 11n + 35 modules, so the
  invalid-index throw never fires on encoder output.
- `Code128Bars`: where the renderer puts its bars, in whole modules.
  - `PatternBars` and `SymbolBars` follow the two loops of `drawCode128B`.
  - Lemmas give the bar count, the widths, and the left-to-right order without overlap.
  - A second reading keeps the bar/space alternation running across symbols instead of
    restarting it. It is proved to draw the same bars.
- `Code128Render`: the page (a class logging every `drawRectangle` call), the options,
  the layout arithmetic, and `DrawCode128B`.
  - The loops are split into `DrawSymbols` (over symbols) and `DrawPattern` (over one
    pattern's digits).
  - Each loop is proved to append exactly the rectangles `Render` makes from the bars.
  - The cursor is proved to end at the start of the right quiet zone.
- `Code128Layout`: what those rectangles look like.
  - They share one style, and each is 1 to 4 module widths wide.
  - With a positive module width, they lie between the two quiet zones, left to right,
    without overlap.

Numbers are `real` (JavaScript `number` without rounding). Text is a sequence of UTF-16
code units, the values `charCodeAt` returns. The page is a class whose `drawn` field
records the rectangles in drawing order. The colour value made by pdf-lib's `rgb` is an
opaque type parameter.

## Model

| member | source | states |
|---|---|---|
| Code128Table.TableSize | nodes/FuturepdfLib/FuturepdfLib.node.ts:37-49 | the pattern table has 107 entries, codes 0 to 106 |
| Code128Table.TableShape | nodes/FuturepdfLib/FuturepdfLib.node.ts:37-49 | every entry is made of digits 1 to 4; codes 0 to 105 are six digits summing to 11 modules; Stop (106) is seven digits summing to 13; Start B is "211214" and Stop is "2331112" |
| Code128Encoder.Encode | nodes/FuturepdfLib/FuturepdfLib.node.ts:52-73 | fails exactly when some code unit is outside 32..127; the failure names the first such index (everything before it is valid); on success returns `Encoding(text)` = [104, each code unit - 32, checksum, 106] |
| Code128Encoder.EncodingShape | nodes/FuturepdfLib/FuturepdfLib.node.ts:61-72 | the encoding of valid text has length n + 3, starts with Start B (104), ends with Stop (106); element i + 1 is text[i] - 32 in 0..95; element n + 1 is the checksum, in 0..102 |
| Code128Encoder.EncodingUsesTable | nodes/FuturepdfLib/FuturepdfLib.node.ts:61-72 | every symbol of an encoding is a valid table code, and every one before the last is below Stop |
| Code128Encoder.DecodeEncoding | nodes/FuturepdfLib/FuturepdfLib.node.ts:52-73 | decoding the encoding of valid text gives the text back, so `Encode` is injective on valid text |
| Code128Encoder.DecodeOnlyEncodings | nodes/FuturepdfLib/FuturepdfLib.node.ts:52-73 | whatever decodes to some text is exactly that text's encoding, and that text is valid: the checksum and framing are checked both ways |
| Code128Encoder.EncodingExamples | nodes/FuturepdfLib/FuturepdfLib.node.ts:52-73 | the empty text encodes to [104, 1, 106]; "A" to [104, 33, 34, 106]; a ten-character text to 13 symbols |
| Code128Modules.ModulesStep | nodes/FuturepdfLib/FuturepdfLib.node.ts:78-87 | one more symbol adds the width of its pattern to the running module count |
| Code128Modules.AddModules | nodes/FuturepdfLib/FuturepdfLib.node.ts:84-86 | the digit loop adds exactly the module width of the pattern to the total |
| Code128Modules.TotalModulesIn | nodes/FuturepdfLib/FuturepdfLib.node.ts:75-89 | over any table: fails exactly when some symbol has no pattern (`if (!pattern) throw`), naming the first such code; otherwise returns the sum of the symbols' pattern widths |
| Code128Modules.TotalModules | nodes/FuturepdfLib/FuturepdfLib.node.ts:75-89 | the same over the CODE128 table: `Invalid CODE128 pattern index` exactly for the first code outside 0..106, otherwise the module sum |
| Code128Modules.ModulesOfSymbols | nodes/FuturepdfLib/FuturepdfLib.node.ts:37-49 | n symbols below Stop span 11 n modules |
| Code128Modules.EncodingModulesIn | nodes/FuturepdfLib/FuturepdfLib.node.ts:113-114 | over any CODE128-shaped table, the encoding of n valid characters has only valid codes and spans 11 n + 35 modules |
| Code128Modules.EncodingModules | nodes/FuturepdfLib/FuturepdfLib.node.ts:113-114 | the same for the CODE128 table, so `code128TotalModules` never throws on `code128BEncode`'s output |
| Code128Bars.PatternStep | nodes/FuturepdfLib/FuturepdfLib.node.ts:124-140 | one more digit adds a bar exactly when the digit is at an even position (`isBar`), starting at the modules drawn so far and as wide as the digit |
| Code128Bars.SymbolStep | nodes/FuturepdfLib/FuturepdfLib.node.ts:120-141 | one more symbol appends its pattern's bars, starting where the previous symbols end |
| Code128Bars.OrderedAppend | nodes/FuturepdfLib/FuturepdfLib.node.ts:120-141 | bars ordered inside lo..mid followed by bars ordered inside mid..hi are ordered inside lo..hi |
| Code128Bars.PatternBarCount | nodes/FuturepdfLib/FuturepdfLib.node.ts:122-140 | the first n digits of a pattern draw (n + 1) / 2 bars |
| Code128Bars.PatternBarsWidths | nodes/FuturepdfLib/FuturepdfLib.node.ts:124-136 | every bar of a pattern is one to four modules wide |
| Code128Bars.ModulesAtLeastDigits | nodes/FuturepdfLib/FuturepdfLib.node.ts:37-49 | n digits of a pattern span at least n modules |
| Code128Bars.PatternBarsOrdered | nodes/FuturepdfLib/FuturepdfLib.node.ts:122-140 | a pattern's bars lie inside the modules it spans, each one ending at or before the next one starts |
| Code128Bars.SymbolBarsOrdered | nodes/FuturepdfLib/FuturepdfLib.node.ts:120-141 | all symbols' bars lie inside 0..(module sum), left to right without overlap, each one to four modules wide |
| Code128Bars.SymbolBarCount | nodes/FuturepdfLib/FuturepdfLib.node.ts:120-141 | n symbols below Stop draw 3 n bars |
| Code128Bars.EncodingBarCount | nodes/FuturepdfLib/FuturepdfLib.node.ts:113-141 | the encoding of n characters is drawn as 3 (n + 2) + 4 bars |
| Code128Bars.CarriedEven | nodes/FuturepdfLib/FuturepdfLib.node.ts:122 | after an even number of digits, carrying the alternation on draws the same bars as restarting it with a bar |
| Code128Bars.DigitCountOfSymbols | nodes/FuturepdfLib/FuturepdfLib.node.ts:37-49 | n symbols below Stop have 6 n digits |
| Code128Bars.ContinuousMatchesRestart | nodes/FuturepdfLib/FuturepdfLib.node.ts:120-141 | when only the last symbol may be Stop, resetting `isBar` at every symbol draws the same bars as one alternation running across symbols |
| Code128Bars.EncodingContinuous | nodes/FuturepdfLib/FuturepdfLib.node.ts:113-141 | on any encoding both readings of the alternation agree |
| Code128Render.Page.constructor | nodes/FuturepdfLib/FuturepdfLib.node.ts:128-135 | a new page has nothing drawn on it |
| Code128Render.Page.DrawRectangle | nodes/FuturepdfLib/FuturepdfLib.node.ts:128-135 | drawing appends exactly that rectangle to the page and changes nothing else |
| Code128Render.Layout | nodes/FuturepdfLib/FuturepdfLib.node.ts:114-118 | total modules = data modules + 2 qz; module width times total modules = box width; the first bar starts qz module widths right of x; the data modules end qz module widths before x + width; with qz = 0 the first bar is at x |
| Code128Render.OffsetAdd | nodes/FuturepdfLib/FuturepdfLib.node.ts:138 | the cursor after a + d modules is the cursor after a modules advanced by d modules |
| Code128Render.OffsetIsProduct | nodes/FuturepdfLib/FuturepdfLib.node.ts:125-138 | the running sum of module widths after n modules is n times the module width |
| Code128Render.Advance | nodes/FuturepdfLib/FuturepdfLib.node.ts:125-138 | `cursorX += w` with w = digit * moduleW moves the cursor from module a to module a + digit |
| Code128Render.RenderAppend | nodes/FuturepdfLib/FuturepdfLib.node.ts:128-135 | the rectangles of two bar runs are the rectangles of the first followed by those of the second |
| Code128Render.RectAtCursor | nodes/FuturepdfLib/FuturepdfLib.node.ts:128-135 | the rectangle drawn at the cursor (x: cursorX, width: w, y, height, color, borderWidth 0) is the one the layout assigns to the bar |
| Code128Render.DrawPattern | nodes/FuturepdfLib/FuturepdfLib.node.ts:121-140 | drawing one pattern appends exactly its bars' rectangles and leaves the cursor at the module after the pattern |
| Code128Render.DrawSymbols | nodes/FuturepdfLib/FuturepdfLib.node.ts:120-141 | drawing all symbols appends exactly the rectangles of `SymbolBars`, in order, and leaves the cursor module-sum module widths right of where it started |
| Code128Render.DrawCode128BIn | nodes/FuturepdfLib/FuturepdfLib.node.ts:98-148 | over any CODE128-shaped table: a missing `rgb` fails first; otherwise it fails exactly on text outside Code Set B, naming the first bad index; on failure nothing is drawn; on success it draws exactly `BarcodeRectsIn`, returns { n + 3, moduleW, qz }, and the cursor ends at x + width - qz * moduleW |
| Code128Render.DrawCode128B | nodes/FuturepdfLib/FuturepdfLib.node.ts:98-148 | the same over the CODE128 table, drawing exactly `BarcodeRects` |
| Code128Layout.RenderStyle | nodes/FuturepdfLib/FuturepdfLib.node.ts:128-135 | one rectangle per bar, all with the same y, height and colour, and border width 0 |
| Code128Layout.RenderWidths | nodes/FuturepdfLib/FuturepdfLib.node.ts:125 | bars one to four modules wide become rectangles 1, 2, 3 or 4 module widths wide |
| Code128Layout.OffsetMono | nodes/FuturepdfLib/FuturepdfLib.node.ts:138 | with a positive module width the cursor only moves right |
| Code128Layout.RectSpan | nodes/FuturepdfLib/FuturepdfLib.node.ts:125-138 | a bar's rectangle starts at its first module's offset and ends at the offset of the module after its last |
| Code128Layout.BarInside | nodes/FuturepdfLib/FuturepdfLib.node.ts:125-138 | a bar inside modules lo..hi becomes a positive-width rectangle inside their page range |
| Code128Layout.BarBefore | nodes/FuturepdfLib/FuturepdfLib.node.ts:125-138 | a bar ending before another starts becomes a rectangle ending before the other's starts |
| Code128Layout.RenderedBox | nodes/FuturepdfLib/FuturepdfLib.node.ts:120-141 | ordered bars inside lo..hi become positive-width rectangles inside the scaled range, left to right without overlap |
| Code128Layout.PositiveModuleWidth | nodes/FuturepdfLib/FuturepdfLib.node.ts:101-117 | a positive box width and a quiet zone that is not negative make the division defined and the module width positive |
| Code128Layout.BarcodeStyleIn | nodes/FuturepdfLib/FuturepdfLib.node.ts:113-141 | for valid text over any CODE128-shaped table, wherever the division is defined: 3 (n + 2) + 4 rectangles; all have y, height and colour from the options and border width 0; each is 1 to 4 module widths wide |
| Code128Layout.BarcodeStyle | nodes/FuturepdfLib/FuturepdfLib.node.ts:113-141 | the same for the CODE128 table |
| Code128Layout.BarcodeLayoutIn | nodes/FuturepdfLib/FuturepdfLib.node.ts:113-141 | for valid text over any CODE128-shaped table with a positive module width: every rectangle has positive width and lies between x + qz * moduleW and x + width - qz * moduleW; each one ends at or before the next one starts |
| Code128Layout.BarcodeLayout | nodes/FuturepdfLib/FuturepdfLib.node.ts:113-141 | the same for the CODE128 table |
| Code128Layout.DefaultLayout | nodes/FuturepdfLib/FuturepdfLib.node.ts:99-118 | with only `rgb` given and empty text: 55 modules of 40/11, the first bar at 400/11 |

## Left out

- The n8n node around the renderer (`FuturepdfLib.node.ts:151-470`) is not part of this
  model. That covers the parameter parsing, the per-item loop, PDF loading and saving,
  the user-code hook and the `noOp` helper. The same goes for the compiled `dist/` copy,
  the lowercase duplicate of the source file, and the build configuration.
- pdf-lib itself is left out. The page is a log of `drawRectangle` calls and `rgb` is an
  opaque function parameter.
- Floating point is left out. Numbers are exact reals, so rounding in `width /
  totalModules` and in the running `cursorX += w` is not modelled. NaN and the coercions
  `Number(...)` applies to strings or objects are not modelled either. An option is either
  absent (`None`) or a number, and `|| default` replaces an absent value or 0.
- `opts.color || rgb(0, 0, 0)` covers only an absent colour. A colour object is always
  truthy.
- Code128Render.DrawCode128B: requires that the box hold a non-zero number of modules
  (`Divisible`) on the path that divides. JavaScript would divide by zero and draw at
  non-finite positions, which exact reals cannot express.
- One loop is written as two methods. The source's nested symbol/digit loop is
  `DrawSymbols` over `DrawPattern`, and the digit sum inside `code128TotalModules` is
  `AddModules`. Same statements, same order.
- The pattern table is written as eleven row constants concatenated in source order, one
  per source line 38-48. It is the same 107 strings.
- Code128Encoder.Decode has no counterpart in the source. It is a reading-side inverse,
  used only to state that the encoding is injective and fully checked.
- The code never rejects a non-positive box width or quiet zone, and the model adds no
  such check. When the module width comes out negative, the code still draws, with
  negative-width rectangles running right to left. So the bounds and order of
  `BarcodeLayout` are stated for a positive module width.
- The code resets `isBar` at the start of every symbol. `EncodingContinuous` proves that an
  alternation running on across symbols would draw the same bars on every encoding.
