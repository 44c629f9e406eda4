/**
 * The `/bold` command of `commands/bold.js`. JavaScript strings are sequences
 * of UTF-16 code units and `split('')` cuts between code units, so the text is
 * modelled as a sequence of code units; each ASCII letter or digit becomes the
 * code point of its bold form in the Mathematical Alphanumeric Symbols block,
 * written back as a surrogate pair, and every other unit is kept.
 */
module Bold {

  /** A UTF-16 code unit. */
  type CodeUnit = x: int | 0 <= x < 0x1_0000

  const UpperOffset := 119743
  const LowerOffset := 119737
  const DigitOffset := 120734

  predicate IsUpper(u: CodeUnit) { 65 <= u <= 90 }
  predicate IsLower(u: CodeUnit) { 97 <= u <= 122 }
  predicate IsDigit(u: CodeUnit) { 48 <= u <= 57 }
  predicate IsAlnum(u: CodeUnit) { IsUpper(u) || IsLower(u) || IsDigit(u) }

  /** The code point a unit is replaced by: its bold form, or the unit itself. */
  function BoldPoint(u: CodeUnit): (cp: int)
  {
    if IsUpper(u) then u + UpperOffset
    else if IsLower(u) then u + LowerOffset
    else if IsDigit(u) then u + DigitOffset
    else u
  }

  /** A code point beyond the basic plane. */
  predicate Supplementary(cp: int) { 0x1_0000 <= cp <= 0x10_FFFF }

  /** `String.fromCodePoint(cp)` as code units: one unit, or a surrogate pair. */
  function Utf16(cp: int): (r: seq<CodeUnit>)
    requires 0 <= cp <= 0x10_FFFF
    ensures cp < 0x1_0000 ==> r == [cp]
    ensures (Supplementary(cp) ==>
      (|r| == 2 && 0xD800 <= r[0] < 0xDC00 && 0xDC00 <= r[1] < 0xE000))
  {
    if cp < 0x1_0000 then [cp]
    else [0xD800 + (cp - 0x1_0000) / 0x400, 0xDC00 + (cp - 0x1_0000) % 0x400]
  }

  /** The code point a surrogate pair stands for. */
  function FromSurrogates(high: CodeUnit, low: CodeUnit): int {
    0x1_0000 + (high - 0xD800) * 0x400 + (low - 0xDC00)
  }

  /** A surrogate pair decodes back to the code point it was written for. */
  lemma Utf16RoundTrip(cp: int)
    requires Supplementary(cp)
    ensures FromSurrogates(Utf16(cp)[0], Utf16(cp)[1]) == cp
  {
    var v := cp - 0x1_0000;
    assert v == (v / 0x400) * 0x400 + v % 0x400;
  }

  /** What one code unit becomes. */
  function MapUnit(u: CodeUnit): seq<CodeUnit> {
    Utf16(BoldPoint(u))
  }

  /** `text.split('').map(...).join('')`. */
  function Boldify(text: seq<CodeUnit>): seq<CodeUnit> {
    if text == [] then [] else Boldify(text[..|text| - 1]) + MapUnit(text[|text| - 1])
  }

  /** Capitals go to U+1D400..U+1D419, small letters to U+1D41A..U+1D433, digits to U+1D7CE..U+1D7D7, in alphabet order. */
  lemma BoldRanges(u: CodeUnit)
    ensures IsUpper(u) ==> 0x1D400 <= BoldPoint(u) <= 0x1D419 && BoldPoint(u) - 0x1D400 == u - 'A' as int
    ensures IsLower(u) ==> 0x1D41A <= BoldPoint(u) <= 0x1D433 && BoldPoint(u) - 0x1D41A == u - 'a' as int
    ensures IsDigit(u) ==> 0x1D7CE <= BoldPoint(u) <= 0x1D7D7 && BoldPoint(u) - 0x1D7CE == u - '0' as int
    ensures !IsAlnum(u) ==> BoldPoint(u) == u
  {
  }

  /** A letter or digit becomes two units that decode to its bold code point; anything else is kept as it is. */
  lemma MapUnitShape(u: CodeUnit)
    ensures IsAlnum(u) ==> |MapUnit(u)| == 2 && FromSurrogates(MapUnit(u)[0], MapUnit(u)[1]) == BoldPoint(u)
    ensures !IsAlnum(u) ==> MapUnit(u) == [u]
  {
    if IsAlnum(u) {
      Utf16RoundTrip(BoldPoint(u));
    }
  }

  /** The mapping works unit by unit: the output of a concatenation is the concatenation of the outputs. */
  lemma {:induction false} BoldifyAppend(a: seq<CodeUnit>, b: seq<CodeUnit>)
    ensures Boldify(a + b) == Boldify(a) + Boldify(b)
    decreases |b|
  {
    if b != [] {
      var b' := b[..|b| - 1];
      assert (a + b)[..|a + b| - 1] == a + b';
      BoldifyAppend(a, b');
    } else {
      assert a + b == a;
    }
  }

  function AlnumCount(text: seq<CodeUnit>): nat {
    if text == [] then 0 else AlnumCount(text[..|text| - 1]) + (if IsAlnum(text[|text| - 1]) then 1 else 0)
  }

  /** Each letter or digit adds one unit to the length. */
  lemma {:induction false} BoldifyLength(text: seq<CodeUnit>)
    ensures |Boldify(text)| == |text| + AlnumCount(text)
  {
    if text != [] {
      BoldifyLength(text[..|text| - 1]);
      MapUnitShape(text[|text| - 1]);
    }
  }

  /** Text with no ASCII letter or digit comes back unchanged. */
  lemma {:induction false} BoldifyKeepsOthers(text: seq<CodeUnit>)
    requires forall i :: 0 <= i < |text| ==> !IsAlnum(text[i])
    ensures Boldify(text) == text
  {
    if text != [] {
      var init := text[..|text| - 1];
      BoldifyKeepsOthers(init);
      MapUnitShape(text[|text| - 1]);
      assert text == init + [text[|text| - 1]];
    }
  }

  /**
   * Bold text already in the input passes through, so an 'A' and a bold 'A'
   * give the same output: the mapping cannot be undone.
   */
  lemma BoldIsNotInvertible()
    ensures Boldify(['A' as int]) == Boldify([0xD835, 0xDC00])
  {
    assert [0xD835, 0xDC00][..1] == [0xD835];
    assert [0xD835 as CodeUnit][..0] == [];
    assert ['A' as int as CodeUnit][..0] == [];
  }
}
