/** The section banner the CLI prints between stages: the text in
    `[ ... ]`, centred in a line of 78 characters by runs of `=`. The
    source computes the padding in floating point, `(78.0 - size - 4) / 2`,
    and takes its floor on the left and its ceiling on the right; with an
    integer size that is the halving below. */
module Banner {
  import opened Optional

  const LineSize := 78

  /** A run of n `=` characters: `'=' * n`. */
  function Rule(n: nat): (r: string)
    ensures |r| == n && forall i :: 0 <= i < n ==> r[i] == '='
  {
    seq(n, _ => '=')
  }

  /** `pad.floor`; Dafny's division by 2 rounds towards negative infinity. */
  function LeftPad(text: string): int {
    (LineSize - |text| - 4) / 2
  }

  /** `pad.ceil` */
  function RightPad(text: string): int {
    (LineSize - |text| - 4 + 1) / 2
  }

  /** `banner(text)`; None where `'=' * pad.floor` raises ArgumentError for
      a negative count, that is for a text longer than 74 characters. */
  function BannerLine(text: string): Option<string> {
    if LeftPad(text) < 0 then None
    else Some(Rule(LeftPad(text)) + "[ " + text + " ]" + Rule(RightPad(text)))
  }

  /** The banner exists exactly for texts of at most 74 characters; it is
      then 78 characters wide, the text sits between `[ ` and ` ]`, and
      the left run of `=` is never longer than the right one and at most
      one shorter. */
  lemma BannerLayout(text: string)
    ensures BannerLine(text).Some? <==> |text| <= LineSize - 4
    ensures BannerLine(text).Some? ==>
      var r := BannerLine(text).value; var l := LeftPad(text);
      && 0 <= l <= RightPad(text) <= l + 1
      && |r| == LineSize
      && r[..l] == Rule(l)
      && r[l..l + 2] == "[ " && r[l + 2..l + 2 + |text|] == text && r[l + 2 + |text|..l + 4 + |text|] == " ]"
      && r[l + 4 + |text|..] == Rule(RightPad(text))
  {
    if BannerLine(text).Some? {
      var l := LeftPad(text);
      var r := BannerLine(text).value;
      assert r == Rule(l) + ("[ " + text + " ]" + Rule(RightPad(text)));
      assert r[l..] == "[ " + text + " ]" + Rule(RightPad(text));
    }
  }
}
