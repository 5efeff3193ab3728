/**
 * The frame files of the image-sequence scrubber: frame i (1-based) lives at
 * "/frames/ezgif-frame-" + i written in decimal and left-padded with '0' to three
 * characters + ".jpg".
 */
module FrameNaming {

  /** Number of frames in the sequence. */
  const FRAME_COUNT: nat := 240

  const PREFIX: string := "/frames/ezgif-frame-"
  const SUFFIX: string := ".jpg"

  /** Width of the zero-padded index field. */
  const FIELD_WIDTH: nat := 3

  predicate IsDigit(c: char)
  {
    '0' <= c <= '9'
  }

  predicate AllDigits(s: string)
  {
    forall k :: 0 <= k < |s| ==> IsDigit(s[k])
  }

  function DigitChar(d: nat): (c: char)
    requires d < 10
    ensures IsDigit(c)
  {
    ('0' as int + d) as char
  }

  function DigitValue(c: char): (d: nat)
    requires IsDigit(c)
    ensures d < 10
  {
    c as int - '0' as int
  }

  /** `n.toString()` for a non-negative integer: its decimal digits, no leading zero. */
  function Decimal(n: nat): (s: string)
    ensures |s| >= 1 && AllDigits(s)
    ensures |s| > 1 ==> s[0] != '0'
    decreases n
  {
    if n < 10 then [DigitChar(n)] else Decimal(n / 10) + [DigitChar(n % 10)]
  }

  /** `s.padStart(width, fill)`: `fill` put in front until `width` is reached; never truncates. */
  function PadStart(s: string, width: nat, fill: char): (r: string)
    ensures |r| == if |s| < width then width else |s|
    ensures r[|r| - |s|..] == s
    ensures forall k :: 0 <= k < |r| - |s| ==> r[k] == fill
  {
    if |s| >= width then s else seq(width - |s|, _ => fill) + s
  }

  /** The index field of a frame's file name. */
  function Field(index: nat): string
  {
    PadStart(Decimal(index), FIELD_WIDTH, '0')
  }

  /** `IMG_PATH(index)`. */
  function ImgPath(index: nat): string
  {
    PREFIX + Field(index) + SUFFIX
  }

  /** Reads a string of decimal digits back as a number (leading zeros allowed). */
  function ParseDecimal(s: string): nat
    requires AllDigits(s)
    decreases |s|
  {
    if s == [] then 0 else ParseDecimal(s[..|s| - 1]) * 10 + DigitValue(s[|s| - 1])
  }

  lemma {:induction false} ParseDecimalOfDecimal(n: nat)
    ensures ParseDecimal(Decimal(n)) == n
    decreases n
  {
    if n >= 10 {
      var s := Decimal(n);
      assert s[..|s| - 1] == Decimal(n / 10);
      ParseDecimalOfDecimal(n / 10);
    }
  }

  /** Numbers below 1000 take at most three digits; numbers from 1000 on take more. */
  lemma {:induction false} DecimalLength(n: nat)
    ensures n < 1000 ==> |Decimal(n)| <= FIELD_WIDTH
    ensures 1000 <= n ==> |Decimal(n)| > FIELD_WIDTH
    decreases n
  {
    if n >= 10 {
      DecimalLength(n / 10);
      if n >= 100 {
        DecimalLength(n / 100);
      }
    }
  }

  lemma {:induction false} ParseZeros(z: string)
    requires forall k :: 0 <= k < |z| ==> z[k] == '0'
    ensures AllDigits(z) && ParseDecimal(z) == 0
    decreases |z|
  {
    if z != [] {
      ParseZeros(z[..|z| - 1]);
    }
  }

  /** Leading zeros do not change the value read back. */
  lemma {:induction false} ParseLeadingZeros(z: string, s: string)
    requires forall k :: 0 <= k < |z| ==> z[k] == '0'
    requires AllDigits(s)
    ensures AllDigits(z + s) && ParseDecimal(z + s) == ParseDecimal(s)
    decreases |s|
  {
    if s == [] {
      assert z + s == z;
      ParseZeros(z);
    } else {
      ParseLeadingZeros(z, s[..|s| - 1]);
      assert (z + s)[..|z + s| - 1] == z + s[..|s| - 1];
    }
  }

  /**
   * For every index below 1000 (so for every frame 1..240) the file name is the prefix,
   * a field of exactly three digits that reads back as the index, and the suffix.
   */
  lemma ImgPathField(index: nat)
    requires index < 1000
    ensures |ImgPath(index)| == |PREFIX| + FIELD_WIDTH + |SUFFIX|
    ensures ImgPath(index)[..|PREFIX|] == PREFIX
    ensures ImgPath(index)[|PREFIX| + FIELD_WIDTH..] == SUFFIX
    ensures AllDigits(ImgPath(index)[|PREFIX|..|PREFIX| + FIELD_WIDTH])
    ensures ParseDecimal(ImgPath(index)[|PREFIX|..|PREFIX| + FIELD_WIDTH]) == index
  {
    var d := Decimal(index);
    var f := Field(index);
    DecimalLength(index);
    var z := seq(FIELD_WIDTH - |d|, _ => '0');
    assert f == z + d;
    ParseLeadingZeros(z, d);
    ParseDecimalOfDecimal(index);
    var path := ImgPath(index);
    assert path[|PREFIX|..|PREFIX| + FIELD_WIDTH] == f;
  }

  /** From index 1000 on the field is wider than three characters: padStart never truncates. */
  lemma ImgPathWideField(index: nat)
    requires 1000 <= index
    ensures |ImgPath(index)| > |PREFIX| + FIELD_WIDTH + |SUFFIX|
  {
    DecimalLength(index);
  }

  /** Distinct frames never share a file. */
  lemma ImgPathInjective(i: nat, j: nat)
    requires i < 1000 && j < 1000 && ImgPath(i) == ImgPath(j)
    ensures i == j
  {
    ImgPathField(i);
    ImgPathField(j);
  }

  /** The first frame's file name. */
  lemma ImgPathFirst()
    ensures ImgPath(1) == "/frames/ezgif-frame-001.jpg"
  {
    assert Decimal(1) == "1";
    assert Field(1) == "001";
  }

  /** The file of frame 121, the one shown half-way through the scroll. */
  lemma ImgPathMiddle()
    ensures ImgPath(121) == "/frames/ezgif-frame-121.jpg"
  {
    assert Decimal(1) == "1";
    assert Decimal(12) == "12";
    assert Decimal(121) == "121";
    assert Field(121) == "121";
  }

  /** The last frame's file name. */
  lemma ImgPathLast()
    ensures ImgPath(FRAME_COUNT) == "/frames/ezgif-frame-240.jpg"
  {
    assert Decimal(2) == "2";
    assert Decimal(24) == "24";
    assert Decimal(240) == "240";
    assert Field(240) == "240";
  }
}
