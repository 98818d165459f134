/**
  `formatNumber`, which prints the follower count on the artist card: millions
  get an "M" suffix, thousands a "K" suffix, and anything smaller is printed
  as it is.
 */
module NumberFormat {
  import opened Text

  const Million := 1000000
  const Thousand := 1000

  /**
    `formatNumber(num)`. The scaled branches print `(num / divisor).toFixed(1)`,
    a floating-point rendering that is not modelled: `toFixed1(num, divisor)`
    stands for it, and only the branch and its suffix are fixed here.
   */
  function FormatNumber(num: int, toFixed1: (int, int) -> string): (r: string)
    ensures r != []
    ensures r[|r| - 1] == 'M' <==> num >= Million
    ensures r[|r| - 1] == 'K' <==> Thousand <= num < Million
    ensures num >= Million ==> r == toFixed1(num, Million) + "M"
    ensures Thousand <= num < Million ==> r == toFixed1(num, Thousand) + "K"
    ensures num < Thousand ==> r == IntToString(num) && IsDigit(r[|r| - 1])
  {
    if num >= Million then
      toFixed1(num, Million) + "M"
    else if num >= Thousand then
      toFixed1(num, Thousand) + "K"
    else
      var r := IntToString(num);
      assert IsDigit(r[|r| - 1]) by {
        if num < 0 {
          assert r[|r| - 1] == NatToString(-num)[|r| - 2];
        }
      }
      r
  }

  /**
    Below one thousand a non-negative count is printed as its own decimal
    digits, at most three of them, and reading them back gives the count.
   */
  lemma {:induction false} FormatNumberPlainRoundTrip(num: int, toFixed1: (int, int) -> string)
    requires 0 <= num < Thousand
    ensures |FormatNumber(num, toFixed1)| <= 3
    ensures forall k :: 0 <= k < |FormatNumber(num, toFixed1)| ==> IsDigit(FormatNumber(num, toFixed1)[k])
    ensures ParseDecimal(FormatNumber(num, toFixed1)) == num
  {
    ParseNatToString(num);
    NatToStringLength(num);
  }
}
