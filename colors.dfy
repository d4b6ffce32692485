/**
 Colors and the per-channel difference vector every RGB metric reduces.
 A color is read only through its red, green and blue channel readings,
 each an integer in [0, 255].
 */
module Colors {
  import opened Reductions

  /** One 8-bit unsigned channel reading. */
  type Channel = x: int | 0 <= x <= 255

  datatype Color = Color(red: Channel, green: Channel, blue: Channel)

  /**
   The signed channel differences of c1 minus c2, red first, then green,
   then blue. No clamping: an entry is negative when c2 is brighter in
   that channel.
   */
  function RGBDists(c1: Color, c2: Color): (r: seq<int>)
    ensures |r| == 3
    ensures r == [c1.red - c2.red, c1.green - c2.green, c1.blue - c2.blue]
    ensures forall i | 0 <= i < 3 :: -255 <= r[i] <= 255
  {
    [c1.red - c2.red, c1.green - c2.green, c1.blue - c2.blue]
  }

  /** Swapping the two colors negates every difference. */
  lemma RGBDistsSwapped(c1: Color, c2: Color)
    ensures RGBDists(c2, c1) == Negated(RGBDists(c1, c2))
  {
  }

  /** The differences all vanish exactly when the two colors agree on every channel. */
  lemma RGBDistsZeroIff(c1: Color, c2: Color)
    ensures (forall i | 0 <= i < 3 :: RGBDists(c1, c2)[i] == 0) <==> c1 == c2
  {
    var d := RGBDists(c1, c2);
    if forall i | 0 <= i < 3 :: d[i] == 0 {
      assert d[0] == 0 && d[1] == 0 && d[2] == 0;
    }
  }
}
