/** Sentence capitalization (capitalize_sentences_batch, index.py:36-39). */
module Capitalize {
  import opened Chars

  /** A sentence that already starts with something other than a lower-case letter. */
  predicate IsCapitalized(s: string) {
    |s| > 0 && !IsLower(s[0])
  }

  /** Every sentence of the batch has a first character; `sentence[0]` raises
      IndexError on an empty one. */
  predicate AllNonEmpty(ss: seq<string>) {
    forall i :: 0 <= i < |ss| ==> |ss[i]| > 0
  }

  /** `sentence[0].upper() + sentence[1:]` */
  function Capitalize(s: string): (r: string)
    requires |s| > 0
    ensures |r| == |s|
    ensures r[0] == Upper(s[0])
    ensures forall k :: 1 <= k < |s| ==> r[k] == s[k]
    ensures IsCapitalized(r)
    ensures IsCapitalized(s) ==> r == s
  {
    [Upper(s[0])] + s[1..]
  }

  /** The list comprehension of capitalize_sentences_batch. */
  function CapitalizeBatch(ss: seq<string>): (r: seq<string>)
    requires AllNonEmpty(ss)
    ensures |r| == |ss|
    ensures forall i :: 0 <= i < |ss| ==> r[i] == Capitalize(ss[i])
  {
    seq(|ss|, i requires 0 <= i < |ss| => Capitalize(ss[i]))
  }

  /** Capitalizing a batch twice is the same as capitalizing it once, and every
      sentence of the result is capitalized. */
  lemma CapitalizeBatchIdempotent(ss: seq<string>)
    requires AllNonEmpty(ss)
    ensures AllNonEmpty(CapitalizeBatch(ss))
    ensures CapitalizeBatch(CapitalizeBatch(ss)) == CapitalizeBatch(ss)
    ensures forall i :: 0 <= i < |ss| ==> IsCapitalized(CapitalizeBatch(ss)[i])
  {
  }

  /** Capitalizing is done sentence by sentence, so it distributes over splitting
      the list in two. */
  lemma CapitalizeBatchAppend(a: seq<string>, b: seq<string>)
    requires AllNonEmpty(a) && AllNonEmpty(b)
    ensures AllNonEmpty(a + b)
    ensures CapitalizeBatch(a + b) == CapitalizeBatch(a) + CapitalizeBatch(b)
  {
  }
}
