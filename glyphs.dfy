/**
 * The star strings both rating pages render: one full star per whole star, an
 * optional half star, and a dash placeholder when there is nothing to show.
 */
module Glyphs {

  const FullStar: char := '\U{2B50}'
  const HalfStar: char := '\U{2730}'
  const Placeholder: string := "\U{2014}"

  /** `c.repeat(k)`. */
  function Repeat(c: char, k: nat): (r: string)
    ensures |r| == k
    ensures forall i :: 0 <= i < k ==> r[i] == c
  {
    if k == 0 then [] else [c] + Repeat(c, k - 1)
  }

  /** Number of occurrences of `c` in `s`. */
  function Count(c: char, s: string): (r: nat)
    ensures r <= |s|
  {
    if s == [] then 0 else (if s[0] == c then 1 else 0) + Count(c, s[1..])
  }

  lemma {:induction false} CountAppend(c: char, a: string, b: string)
    ensures Count(c, a + b) == Count(c, a) + Count(c, b)
  {
    if a == [] {
      assert a + b == b;
    } else {
      assert (a + b)[1..] == a[1..] + b;
      CountAppend(c, a[1..], b);
    }
  }

  lemma {:induction false} CountRepeat(c: char, d: char, k: nat)
    ensures Count(c, Repeat(d, k)) == if c == d then k else 0
  {
    if k > 0 {
      assert Repeat(d, k)[1..] == Repeat(d, k - 1);
      CountRepeat(c, d, k - 1);
    }
  }

  /** `"⭐".repeat(full) + (half ? "✰" : "")`. */
  function StarGlyphs(full: nat, half: bool): (r: string)
    ensures |r| == full + (if half then 1 else 0)
    ensures forall i :: 0 <= i < full ==> r[i] == FullStar
    ensures half ==> r[full] == HalfStar
    ensures Count(FullStar, r) == full
    ensures Count(HalfStar, r) == (if half then 1 else 0)
    ensures r != Placeholder
  {
    var r := Repeat(FullStar, full) + (if half then [HalfStar] else []);
    CountAppend(FullStar, Repeat(FullStar, full), if half then [HalfStar] else []);
    CountAppend(HalfStar, Repeat(FullStar, full), if half then [HalfStar] else []);
    CountRepeat(FullStar, FullStar, full);
    CountRepeat(HalfStar, FullStar, full);
    assert |r| == 1 ==> r[0] != Placeholder[0];
    r
  }

  /** The rating a star string depicts, times 100: a full star is 100, a half star 50. */
  function StarValue(s: string): int {
    100 * Count(FullStar, s) + 50 * Count(HalfStar, s)
  }
}
