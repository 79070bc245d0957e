/** The byte threshold filter of the image library (ImageLib/ImageFilter.cpp):
    a filter that zeroes every voxel of an 8-bit image whose value lies
    outside [min, max], writing into the image it filters into. Each new
    filter is named from a counter shared by all threshold filters. */
module ImageFilter {
  import opened Base

  /** An unsigned byte, the voxel type of the 3D images. */
  newtype Byte = x: int | 0 <= x < 256

  // ---------------------------------------------------------------------
  // Filter names
  // ---------------------------------------------------------------------

  const NamePrefix: string := "ThresholdImageFilter"

  function DigitChar(d: nat): char
    requires d < 10
  {
    "0123456789"[d]
  }

  function DigitValue(c: char): int
  {
    c as int - '0' as int
  }

  /** The decimal digits of n, without leading zeros. */
  function Digits(n: nat): (r: string)
    ensures |r| >= 1
    ensures n < 10 <==> |r| == 1
    ensures forall k | 0 <= k < |r| :: '0' <= r[k] <= '9'
    decreases n
  {
    if n < 10 then [DigitChar(n)] else Digits(n / 10) + [DigitChar(n % 10)]
  }

  /** `%02d` of a non-negative number: at least two digits, padded with a
      leading zero. */
  function TwoDigits(n: nat): (r: string)
    ensures |r| >= 2
    ensures n < 100 <==> |r| == 2
  {
    if n < 10 then "0" + Digits(n) else Digits(n)
  }

  /** The name the constructor gives the filter made when the counter is n. */
  function FilterName(n: nat): (r: string)
    ensures |r| >= |NamePrefix| + 2 && r[..|NamePrefix|] == NamePrefix
  {
    NamePrefix + TwoDigits(n)
  }

  /** The value of a string of decimal digits. */
  function ParseDecimal(s: string): int
    decreases |s|
  {
    if s == [] then 0 else ParseDecimal(s[..|s| - 1]) * 10 + DigitValue(s[|s| - 1])
  }

  lemma DigitValueOfChar(d: nat)
    requires d < 10
    ensures DigitValue(DigitChar(d)) == d
  {
    assert d in {0, 1, 2, 3, 4, 5, 6, 7, 8, 9};
  }

  lemma {:induction false} DigitsRoundTrip(n: nat)
    ensures ParseDecimal(Digits(n)) == n
    decreases n
  {
    var s := Digits(n);
    if n >= 10 {
      var q, d := n / 10, n % 10;
      DigitsRoundTrip(q);
      DigitValueOfChar(d);
      assert s == Digits(q) + [DigitChar(d)];
      assert s[..|s| - 1] == Digits(q);
      assert ParseDecimal(s) == ParseDecimal(Digits(q)) * 10 + DigitValue(DigitChar(d));
      assert n == q * 10 + d;
    } else {
      DigitValueOfChar(n);
      assert s[..|s| - 1] == [];
    }
  }

  /** A filter name is the prefix followed by the counter, which can be read
      back; counters below 100 take exactly two digits. */
  lemma {:induction false} FilterNameRoundTrip(n: nat)
    ensures IsPrefix(NamePrefix, FilterName(n))
    ensures ParseDecimal(FilterName(n)[|NamePrefix|..]) == n
    ensures n < 100 <==> |FilterName(n)| == |NamePrefix| + 2
  {
    var name := FilterName(n);
    assert name[|NamePrefix|..] == TwoDigits(n);
    DigitsRoundTrip(n);
    if n < 10 {
      var s := TwoDigits(n);
      assert s[..|s| - 1] == "0";
      assert ParseDecimal("0") == 0 by {
        assert "0"[..0] == [];
      }
      assert s[|s| - 1] == Digits(n)[0];
      assert Digits(n) == [Digits(n)[0]];
      assert Digits(n)[..0] == [];
    }
  }

  /** Filters made at different counter values have different names. */
  lemma FilterNamesDistinct(m: nat, n: nat)
    requires m != n
    ensures FilterName(m) != FilterName(n)
  {
    FilterNameRoundTrip(m);
    FilterNameRoundTrip(n);
  }

  /** The `static int n` of the constructor: the counter the next filter's
      name is made from. It starts at 1. */
  class FilterCounter {
    var n: nat

    constructor ()
      ensures n == 1
    {
      n := 1;
    }
  }

  // ---------------------------------------------------------------------
  // The per-voxel rule
  // ---------------------------------------------------------------------

  /** The new value of a voxel: kept when it lies within [min, max], both
      ends included, and 0 otherwise. */
  function Threshold(b: Byte, min: int, max: int): (r: Byte)
    ensures r == b || r == 0
    ensures min <= b as int <= max ==> r == b
  {
    if b as int > max || (b as int) < min then 0 else b
  }

  /** A voxel keeps its value exactly when it is within the bounds or is
      already 0; every other voxel becomes 0. */
  lemma ThresholdKeeps(b: Byte, min: int, max: int)
    ensures Threshold(b, min, max) == b <==> (min <= b as int <= max || b == 0)
    ensures Threshold(b, min, max) != b ==> Threshold(b, min, max) == 0
  {
  }

  /** Filtering a filtered voxel changes nothing. */
  lemma ThresholdIdempotent(b: Byte, min: int, max: int)
    ensures Threshold(Threshold(b, min, max), min, max) == Threshold(b, min, max)
  {
  }

  /** The default bounds, 0 and 255, keep every voxel. */
  lemma ThresholdDefaultKeepsAll(b: Byte)
    ensures Threshold(b, DefaultMin, DefaultMax) == b
  {
  }

  const DefaultMax := 255
  const DefaultMin := 0

  /** The output image after filtering `count` voxels of `input` into
      `output`: the first `count` voxels follow the rule, the rest are kept. */
  function Filtered(input: seq<Byte>, output: seq<Byte>, count: int, min: int, max: int): (r: seq<Byte>)
    requires count <= |input| && count <= |output|
    ensures |r| == |output|
    ensures forall i | 0 <= i < |r| :: r[i] == output[i] || (i < count && (r[i] == input[i] || r[i] == 0))
  {
    seq(|output|, i requires 0 <= i < |output| =>
      if i < count then Threshold(input[i], min, max) else output[i])
  }

  /** Filtering the filtered image again, in place, changes nothing. */
  lemma FilteredIdempotent(input: seq<Byte>, output: seq<Byte>, count: int, min: int, max: int)
    requires count <= |input| && count <= |output|
    ensures var once := Filtered(input, output, count, min, max);
      Filtered(once, once, count, min, max) == once
  {
    var once := Filtered(input, output, count, min, max);
    forall i | 0 <= i < |once| && i < count
      ensures Threshold(once[i], min, max) == once[i]
    {
      ThresholdIdempotent(input[i], min, max);
    }
  }

  /** With the default bounds the first `count` voxels are copied unchanged. */
  lemma FilteredDefaultCopies(input: seq<Byte>, output: seq<Byte>, count: int)
    requires count <= |input| && count <= |output|
    ensures forall i | 0 <= i < count :: Filtered(input, output, count, DefaultMin, DefaultMax)[i] == input[i]
  {
  }

  // ---------------------------------------------------------------------
  // The filter object
  // ---------------------------------------------------------------------

  class ThresholdImageFilter {
    var name: string
    /** Parameter 0, "max". */
    var max: int
    /** Parameter 1, "min". */
    var min: int

    /** Names the filter from the shared counter, advances the counter, and
        sets the parameters max = 255 and min = 0. */
    constructor (counter: FilterCounter)
      modifies counter
      ensures name == FilterName(old(counter.n)) && counter.n == old(counter.n) + 1
      ensures max == DefaultMax && min == DefaultMin
    {
      name := FilterName(counter.n);
      counter.n := counter.n + 1;
      max := DefaultMax;
      min := DefaultMin;
    }

    /** `ApplyFilter`, given the bytes of the source image, the bytes of the
        image to filter into and the voxel count width * height * depth.
        When min >= max nothing is written. Otherwise voxel i of the output,
        for i below the count, becomes voxel i of the source after the rule;
        the other output bytes, and the source when it is another buffer,
        stay as they were. The two buffers may be the same. */
    method ApplyFilter(original: array<Byte>, filtered: array<Byte>, count: int)
      requires count <= original.Length && count <= filtered.Length
      modifies filtered
      ensures min >= max ==> filtered[..] == old(filtered[..])
      ensures min < max ==> filtered[..] == Filtered(old(original[..]), old(filtered[..]), count, min, max)
      ensures original != filtered ==> original[..] == old(original[..])
    {
      if min >= max {
        return;
      }
      var i := 0;
      while i < count
        invariant 0 <= i <= count || (count < 0 && i == 0)
        invariant forall k | 0 <= k < filtered.Length ::
          filtered[k] == (if k < i then Threshold(old(original[k]), min, max) else old(filtered[k]))
        invariant original != filtered ==> original[..] == old(original[..])
        invariant forall k | i <= k < original.Length :: original[k] == old(original[k])
      {
        if original[i] as int > max || (original[i] as int) < min {
          filtered[i] := 0;
        } else {
          filtered[i] := original[i];
        }
        i := i + 1;
      }
    }
  }
}
