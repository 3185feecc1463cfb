/** The transcript pipeline of process_and_save_transcript (index.py:41-70):
    transcript, optional punctuation, sentence split, batched capitalization,
    ordered gather, join, output name. The punctuation model and the sentence
    tokenizer are external; they are parameters here. */
module Pipeline {
  import opened Wrappers
  import opened Capitalize
  import Batching
  import SpaceJoin
  import Transcript

  /** The model add_punctuation loads: PunctuationModel(model=name) for a
      non-empty name, PunctuationModel() otherwise (index.py:29-34). */
  datatype PunctuationModel = DefaultModel | NamedModel(name: string)

  function ModelFor(name: string): (m: PunctuationModel)
    ensures m == DefaultModel <==> name == ""
    ensures m.NamedModel? ==> m.name == name
  {
    if name != "" then NamedModel(name) else DefaultModel
  }

  /** What `pool.imap(capitalize_sentences_batch, batches)` yields: one result per
      batch, in the order the batches were submitted. */
  function CapitalizeBatches(bs: seq<seq<string>>): (r: seq<seq<string>>)
    requires forall k :: 0 <= k < |bs| ==> AllNonEmpty(bs[k])
    ensures |r| == |bs|
    ensures forall k :: 0 <= k < |bs| ==> r[k] == CapitalizeBatch(bs[k])
  {
    seq(|bs|, k requires 0 <= k < |bs| => CapitalizeBatch(bs[k]))
  }

  /** Capitalizing batch by batch and then flattening is capitalizing the
      flattened list. */
  lemma {:induction false} FlattenCapitalizeCommute(bs: seq<seq<string>>)
    requires forall k :: 0 <= k < |bs| ==> AllNonEmpty(bs[k])
    ensures AllNonEmpty(Batching.Flatten(bs))
    ensures Batching.Flatten(CapitalizeBatches(bs)) == CapitalizeBatch(Batching.Flatten(bs))
  {
    if bs != [] {
      var rest := bs[1..];
      assert forall k :: 0 <= k < |rest| ==> AllNonEmpty(rest[k]) by {
        forall k | 0 <= k < |rest| ensures AllNonEmpty(rest[k]) {
          assert rest[k] == bs[k + 1];
        }
      }
      FlattenCapitalizeCommute(rest);
      assert CapitalizeBatches(bs)[1..] == CapitalizeBatches(rest);
      assert AllNonEmpty(bs[0]);
      CapitalizeBatchAppend(bs[0], Batching.Flatten(rest));
    }
  }

  /** A batch cut from a list of non-empty sentences holds only non-empty
      sentences. */
  lemma {:induction false} BatchAllNonEmpty(s: seq<string>, size: nat, k: nat)
    requires size >= 1 && AllNonEmpty(s) && k < |Batching.Batches(s, size)|
    ensures AllNonEmpty(Batching.Batches(s, size)[k])
  {
    Batching.BatchesShape(s, size, k);
    var lo, hi := k * size, Batching.Min(k * size + size, |s|);
    var batch := Batching.Batches(s, size)[k];
    assert batch == s[lo..hi];
    forall j | 0 <= j < |batch| ensures |batch[j]| > 0 {
      assert batch[j] == s[lo + j];
    }
  }

  /** The batches hold only non-empty sentences exactly when the list does. */
  lemma {:induction false} BatchesAllNonEmpty(s: seq<string>, size: nat)
    requires size >= 1
    ensures AllNonEmpty(s) <==>
      forall k :: 0 <= k < |Batching.Batches(s, size)| ==> AllNonEmpty(Batching.Batches(s, size)[k])
  {
    var bs := Batching.Batches(s, size);
    if AllNonEmpty(s) {
      forall k | 0 <= k < |bs| ensures AllNonEmpty(bs[k]) {
        BatchAllNonEmpty(s, size, k);
      }
    } else if forall k :: 0 <= k < |bs| ==> AllNonEmpty(bs[k]) {
      Batching.FlattenBatches(s, size);
      FlattenCapitalizeCommute(bs);
    }
  }

  /** The ordered gather: whatever the batch size, flattening the per-batch
      results gives every sentence capitalized, in the original order. */
  lemma {:induction false} OrderedGather(s: seq<string>, size: nat)
    requires size >= 1 && AllNonEmpty(s)
    ensures forall k :: 0 <= k < |Batching.Batches(s, size)| ==> AllNonEmpty(Batching.Batches(s, size)[k])
    ensures Batching.Flatten(CapitalizeBatches(Batching.Batches(s, size))) == CapitalizeBatch(s)
  {
    BatchesAllNonEmpty(s, size);
    FlattenCapitalizeCommute(Batching.Batches(s, size));
    Batching.FlattenBatches(s, size);
  }

  /** f'{filename}_punctuated.txt' or f'{filename}_raw.txt' (index.py:53, 64). */
  function OutputFileName(filename: string, punctuated: bool): (name: string)
    ensures punctuated ==> name == filename + "_punctuated.txt"
    ensures !punctuated ==> name == filename + "_raw.txt"
  {
    filename + (if punctuated then "_punctuated.txt" else "_raw.txt")
  }

  /** Different file names or different modes never write to the same name. */
  lemma OutputFileNameInjective(f1: string, p1: bool, f2: string, p2: bool)
    requires OutputFileName(f1, p1) == OutputFileName(f2, p2)
    ensures f1 == f2 && p1 == p2
  {
    var n := OutputFileName(f1, p1);
    // the characters before ".txt" tell the modes apart: 'd' for
    // "_punctuated", 'w' for "_raw"
    assert n[|n| - 5] == (if p1 then 'd' else 'w');
    assert n[|n| - 5] == (if p2 then 'd' else 'w');
    var suffix := if p1 then "_punctuated.txt" else "_raw.txt";
    assert f1 == n[..|n| - |suffix|];
    assert f2 == n[..|n| - |suffix|];
  }

  /** The exceptions that the `except Exception` of index.py:69-70 logs. */
  datatype ProcessError =
    | TranscriptUnavailable  // the caption fetch raised (index.py:23)
    | MathDomainError        // math.log2 of a negative batch size (index.py:49, 60)
    | IndexError             // `sentence[0]` of an empty sentence (index.py:38)

  /** The file that is written: directory, name and complete contents. */
  datatype Saved = Saved(outputDir: string, fileName: string, text: string)

  /** The sentences handed to the batches: the transcript, restored by the
      punctuation model in punctuated mode, split by the tokenizer. */
  function Sentences(texts: seq<string>, punctuated: bool, punctuationModel: string,
                     restore: (PunctuationModel, string) -> string,
                     tokenize: string -> seq<string>): (r: seq<string>)
    ensures !punctuated ==> r == tokenize(Transcript.Assembled(texts))
    ensures punctuated ==> r == tokenize(restore(ModelFor(punctuationModel), Transcript.Assembled(texts)))
  {
    var raw := Transcript.Assembled(texts);
    tokenize(if punctuated then restore(ModelFor(punctuationModel), raw) else raw)
  }

  /** process_and_save_transcript. `captions` is what the caption service
      returned (None when the fetch raised). A logged exception is an Err and
      writes nothing; otherwise the result is the file written. Whatever batch
      size is chosen, the text is the sentences capitalized one by one, in order,
      joined with single spaces. */
  function ProcessAndSave(captions: Option<seq<string>>, punctuated: bool, outputDir: string,
                          filename: string, batchSize: int, reportedCpus: nat,
                          punctuationModel: string,
                          restore: (PunctuationModel, string) -> string,
                          tokenize: string -> seq<string>): (r: Result<Saved, ProcessError>)
    ensures r.Ok? ==> r.value.outputDir == outputDir && r.value.fileName == OutputFileName(filename, punctuated)
    ensures captions.None? ==> r == Err(TranscriptUnavailable)
    ensures captions.Some? && batchSize < 0 ==> r == Err(MathDomainError)
    ensures captions.Some? && batchSize >= 0 ==>
      var sentences := Sentences(captions.value, punctuated, punctuationModel, restore, tokenize);
      (r == Err(IndexError) <==> !AllNonEmpty(sentences))
      && (AllNonEmpty(sentences) ==>
            r == Ok(Saved(outputDir, OutputFileName(filename, punctuated),
                          SpaceJoin.Join(CapitalizeBatch(sentences)))))
  {
    match captions
    case None => Err(TranscriptUnavailable)
    case Some(texts) =>
      var sentences := Sentences(texts, punctuated, punctuationModel, restore, tokenize);
      match Batching.EffectiveBatchSize(batchSize, reportedCpus)
      case None => Err(MathDomainError)
      case Some(size) =>
        var batches := Batching.Batches(sentences, size);
        BatchesAllNonEmpty(sentences, size);
        if exists k :: 0 <= k < |batches| && !AllNonEmpty(batches[k]) then Err(IndexError)
        else
          OrderedGather(sentences, size);
          var capitalized := Batching.Flatten(CapitalizeBatches(batches));
          Ok(Saved(outputDir, OutputFileName(filename, punctuated), SpaceJoin.Join(capitalized)))
  }
}
