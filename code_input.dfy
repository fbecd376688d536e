/** The six-character code boxes of the live-quiz and join-classroom screens. */
module CodeInput {
  import opened JsText

  const CodeLength: nat := 6

  /** `onChangeText`: `text.slice(0, 6).toUpperCase()`. */
  function NormalizeCode(text: string): (r: string)
    ensures |r| <= CodeLength
    ensures |r| == if |text| < CodeLength then |text| else CodeLength
    ensures r == Upper(text)[..|r|]
  {
    var n := if |text| < CodeLength then |text| else CodeLength;
    UpperPrefix(text, n);
    Upper(text[..n])
  }

  /** Normalising what is already in the box changes nothing. */
  lemma NormalizeCodeIdempotent(text: string)
    ensures NormalizeCode(NormalizeCode(text)) == NormalizeCode(text)
  {
    var r := NormalizeCode(text);
    assert r[..|r|] == r;
    UpperIdempotent(text[..|r|]);
  }

  /** What the box holds is already upper case. */
  lemma NormalizeCodeIsUpper(text: string)
    ensures Upper(NormalizeCode(text)) == NormalizeCode(text)
  {
    var n := if |text| < CodeLength then |text| else CodeLength;
    UpperIdempotent(text[..n]);
  }
}
