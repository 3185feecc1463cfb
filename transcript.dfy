/** The transcript text built from the caption fragments (get_transcript,
    index.py:22-27). Fetching the fragments is outside the model: the method
    takes the fetched texts, in the order the caption service returned them. */
module Transcript {

  /** The text after folding `texts`: every fragment followed by one space, so
      its length is the sum of (length + 1) and, unless there are no fragments,
      it ends in a space. */
  function Assembled(texts: seq<string>): (r: string)
    ensures |r| == TotalLength(texts)
    ensures texts != [] ==> r[|r| - 1] == ' '
  {
    if texts == [] then "" else Assembled(texts[..|texts| - 1]) + texts[|texts| - 1] + " "
  }

  /** The sum over the fragments of their length plus one. */
  function TotalLength(texts: seq<string>): nat
  {
    if texts == [] then 0 else TotalLength(texts[..|texts| - 1]) + |texts[|texts| - 1]| + 1
  }

  /** The loop of get_transcript: `transcript += line['text'] + ' '`. */
  method GetTranscript(texts: seq<string>) returns (transcript: string)
    ensures transcript == Assembled(texts)
    ensures |transcript| == TotalLength(texts)
    ensures texts != [] ==> transcript[|transcript| - 1] == ' '
  {
    transcript := "";
    for i := 0 to |texts|
      invariant transcript == Assembled(texts[..i])
    {
      assert texts[..i + 1][..i] == texts[..i];
      transcript := transcript + texts[i] + " ";
    }
    assert texts[..|texts|] == texts;
  }

  /** Fragment i sits at the offset given by the lengths of the fragments before
      it, and is followed by exactly one space. */
  lemma {:induction false} AssembledAt(texts: seq<string>, i: nat)
    requires i < |texts|
    ensures TotalLength(texts[..i]) + |texts[i]| < |Assembled(texts)|
    ensures Assembled(texts)[TotalLength(texts[..i])..TotalLength(texts[..i]) + |texts[i]|] == texts[i]
    ensures Assembled(texts)[TotalLength(texts[..i]) + |texts[i]|] == ' '
  {
    var init := texts[..|texts| - 1];
    if i < |texts| - 1 {
      AssembledAt(init, i);
      assert init[..i] == texts[..i];
      assert init[i] == texts[i];
      var o := TotalLength(texts[..i]);
      assert Assembled(texts)[..|Assembled(init)|] == Assembled(init);
      assert Assembled(texts)[o..o + |texts[i]|] == Assembled(init)[o..o + |texts[i]|];
    } else {
      assert texts[..i] == init;
    }
  }
}
