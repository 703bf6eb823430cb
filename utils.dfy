/** The body truncator (src/utils.ts). */
module Utils {
  import opened Strings

  /** Longest body kept before truncation. */
  const BodyLimit: nat := 2048

  /** Appended after a cut; it is not passed through the escaper. */
  const Ellipsis: string := "..."

  /** `trimBody`: a body longer than the limit is cut to its first
      `BodyLimit` characters and followed by a literal `...`. */
  function TrimBody(text: string): (r: string)
    ensures |text| <= BodyLimit ==> r == text
    ensures text[..Min(|text|, BodyLimit)] <= r
    ensures |r| <= BodyLimit + |Ellipsis|
    ensures |text| > BodyLimit ==> |r| == BodyLimit + |Ellipsis| && r[BodyLimit..] == Ellipsis
  {
    if |text| > BodyLimit then text[..BodyLimit] + Ellipsis else text
  }

  /** Trimming twice is trimming once. */
  lemma {:induction false} TrimBodyIdempotent(text: string)
    ensures TrimBody(TrimBody(text)) == TrimBody(text)
  {
  }

  /** The texts `trimBody` returns unchanged are exactly those within the
      limit and those that already look like a cut body. */
  lemma {:induction false} TrimBodyFixedPoints(text: string)
    ensures TrimBody(text) == text <==>
      |text| <= BodyLimit || (|text| == BodyLimit + |Ellipsis| && text[BodyLimit..] == Ellipsis)
  {
  }
}
