# YouTube transcript generator — Dafny model

A model of `index.py` of the YouTube transcript generator: a command-line tool that
takes a YouTube URL, fetches the video's captions, optionally restores their
punctuation, splits the text into sentences, capitalizes every sentence in
parallel batches and writes the result to `<filename>_raw.txt` or
`<filename>_punctuated.txt`.

What is modelled, module by module:

- `Transcript` — `get_transcript`: the loop that appends each caption fragment's
  text and one space. `GetTranscript` is a method with a loop invariant, proved
  against the function `Assembled`, whose contract gives the length of the
  result; a lemma gives the position of every fragment in it.
- `Capitalize` — `capitalize_sentences_batch`: the first character upper-cased,
  the rest unchanged; only defined for non-empty sentences (`sentence[0]`).
- `Batching` — batch-size coercion (`2**int(math.log2(b))`, or the CPU count for
  0, and the `ValueError` for a negative size), the slicing comprehension
  `[s[i:i+size] for i in range(0, len(s), size)]` and flattening.
- `SpaceJoin` — `' '.join(...)` and, as its inverse, `str.split(' ')`.
- `YoutubeUrl` — `parse_youtube_url`: the leftmost match of
  `(?:youtube\.com\/.*?[?&]v=|youtu\.be\/)([^"&?\/\s]{11})` as an explicit
  scanner (start positions left to right, `.*?` lazily), with a declarative
  description of a match (`MatchesAt`) and of the leftmost one (`IsLeftmost`).
- `Pipeline` — `process_and_save_transcript`: the two branches (raw and
  punctuated), the ordered gather of `pool.imap`, the join, the output name, and
  the exceptions its `except Exception` logs, as a `Result`.
- `Cli` — `main`: the mode default, `or` defaults for language, directory and
  file name, and the `ValueError` of URL parsing that escapes `main`.

The caption service, the punctuation model and the sentence tokenizer are
parameters: `fetch(videoId, language)` (None when the fetch raises),
`restore(model, text)` and `tokenize(text)`. `os.getcwd()` and `os.cpu_count()`
are parameters too (a CPU count the platform cannot report is passed as 0; both
are falsy in `os.cpu_count() or 1`).

Two edge cases of `index.py` that the model keeps as written:
- an empty sentence makes `sentence[0]` in `capitalize_sentences_batch`
  (index.py:38) raise `IndexError`; the `except Exception` of index.py:69-70
  logs it and no file is written;
- with batch size 0 the CPU count (or 1) is the batch size as it is, not
  rounded to a power of two (index.py:48-49).

## Model

| member | source | states |
|---|---|---|
| `Transcript.GetTranscript` | index.py:22-27 | the loop builds every fragment's text followed by one space, in fragment order; its length is the sum of (length + 1); a non-empty result ends in a space |
| `Transcript.Assembled` | index.py:24-27 | the fold of the fragments: its length is the sum over the fragments of their length plus one, and it ends in a space unless there are no fragments |
| `Transcript.AssembledAt` | index.py:24-27 | fragment i sits at the offset given by the fragments before it and is followed by exactly one space |
| `Chars.Upper` | index.py:38 | `upper()` of one character: never a lower-case letter afterwards; a lower-case letter becomes its capital (lowering gives it back); other characters unchanged |
| `Capitalize.Capitalize` | index.py:38 | same length, first character upper-cased, every other character unchanged, the result is capitalized, and an already capitalized sentence is returned unchanged |
| `Capitalize.CapitalizeBatch` | index.py:36-39 | one result per sentence, same order, each the capitalized sentence; requires every sentence non-empty (`sentence[0]` raises otherwise) |
| `Capitalize.CapitalizeBatchIdempotent` | index.py:38 | capitalizing a batch twice equals capitalizing it once; every result sentence is capitalized |
| `Capitalize.CapitalizeBatchAppend` | index.py:38 | capitalizing a concatenation is concatenating the capitalized parts |
| `Batching.FloorLog2` | index.py:49 | for b >= 1, `int(log2 b)` is the exponent e with 2^e <= b < 2^(e+1) |
| `Batching.FloorLog2Unique` | index.py:49 | that exponent is the only k with 2^k <= b < 2^(k+1) |
| `Batching.CpuCountOrOne` | index.py:48 | `os.cpu_count() or 1` is at least 1 and is the reported count when there is one |
| `Batching.EffectiveBatchSize` | index.py:48-49 | negative size: ValueError; size 0: the CPU count (or 1), not rounded; size b > 0: a power of two p with p <= b < 2p; the size used is always >= 1 |
| `Batching.Batches` | index.py:51 | the slicing comprehension yields ceil(n / size) batches |
| `Batching.NumBatches` | index.py:51 | `len(range(0, n, size))`: (count - 1) * size < n <= count * size for n > 0; the count is 0 exactly when n is 0 |
| `Batching.NumBatchesIsCeiling` | index.py:51 | the batch count is the unique ceiling of n / size |
| `Batching.BatchesShape` | index.py:51 | batch k starts at k * size, is non-empty, at most size long, and exactly size long unless it is the last |
| `Batching.FlattenBatches` | index.py:51-52 | concatenating the batches in order gives back the sentence list |
| `Batching.Flatten` | index.py:52 | `[x for batch in bs for x in batch]`: every element of every batch appears in the result (FlattenAppend and FlattenBatches state its order) |
| `Batching.FlattenAppend` | index.py:52 | flattening distributes over concatenation of batch lists |
| `SpaceJoin.Join` | index.py:52 | `' '.join(ss)`: empty for no strings, otherwise the strings' lengths plus one separator fewer than there are strings (JoinAt gives every position) |
| `SpaceJoin.JoinThenSpaceIsAssembled` | index.py:52 | `' '.join(ss)` plus one space is exactly the transcript fold of the same strings |
| `SpaceJoin.JoinAt` | index.py:52 | every string sits at its offset, neighbours are separated by exactly one space, nothing before the first and nothing after the last |
| `SpaceJoin.SplitJoin` | index.py:52 | splitting on ' ' a join of space-free strings gives the list back |
| `SpaceJoin.JoinSplit` | index.py:52 | joining the pieces of a split on ' ' gives the text back |
| `YoutubeUrl.LazyScan` | index.py:73 | the lazy `.*?[?&]v=` after `youtube.com/`: the first id position where the rest of the pattern matches, with no newline consumed, or none exists |
| `YoutubeUrl.MatchStartingAt` | index.py:73 | the shortest match of the pattern starting at a given position, or proof that none starts there |
| `YoutubeUrl.SearchFrom` | index.py:73 | re.search: the leftmost start position with a match, and the shortest match there; None exactly when no match exists |
| `YoutubeUrl.ParseYoutubeUrl` | index.py:72-77 | on success the id has 11 characters, none of `"&?/` or whitespace, and is group 1 of the leftmost match (after `youtu.be/`, or after `?v=`/`&v=` following `youtube.com/` with no newline between); the error is returned exactly when the pattern matches nowhere |
| `YoutubeUrl.ShortLinkExample` | index.py:73-75 | `https://youtu.be/dQw4w9WgXcQ?t=42` gives `dQw4w9WgXcQ` |
| `YoutubeUrl.WatchLinkExample` | index.py:73-75 | `https://www.youtube.com/watch?v=dQw4w9WgXcQ&t=42` gives `dQw4w9WgXcQ` |
| `YoutubeUrl.NoVideoExample` | index.py:76-77 | `https://www.youtube.com/feed/trending` raises the invalid-URL error |
| `Pipeline.ModelFor` | index.py:29-34 | the named punctuation model for a non-empty name, the default model exactly for the empty one |
| `Pipeline.CapitalizeBatches` | index.py:51 | `pool.imap` yields one capitalized batch per batch, in submission order |
| `Pipeline.FlattenCapitalizeCommute` | index.py:51-52 | flattening the per-batch results equals capitalizing the flattened batches |
| `Pipeline.BatchAllNonEmpty` | index.py:51 | a batch cut from non-empty sentences holds only non-empty sentences |
| `Pipeline.BatchesAllNonEmpty` | index.py:38 | some batch raises `IndexError` exactly when some sentence is empty |
| `Pipeline.OrderedGather` | index.py:51-52 | for every batch size, the gathered, flattened result is every sentence capitalized in the original order |
| `Pipeline.OutputFileName` | index.py:53 | `<filename>_punctuated.txt` in punctuated mode, `<filename>_raw.txt` otherwise (index.py:64) |
| `Pipeline.OutputFileNameInjective` | index.py:53 | two runs write to the same name only with the same file name and the same mode |
| `Pipeline.Sentences` | index.py:43-47 | the tokenizer is applied to the transcript fold itself in raw mode (index.py:58), and to the punctuation model's restoration of it, with the model chosen by name, in punctuated mode |
| `Pipeline.ProcessAndSave` | index.py:41-70 | a failed fetch, a negative batch size and an empty sentence are logged errors that write nothing; otherwise the file is named from the mode and holds the sentences capitalized one by one and joined with single spaces, whatever the batch size |
| `Cli.OrDefault` | index.py:97-100 | `value or default`: a missing or empty string falls back to the default |
| `Cli.WithModeDefault` | index.py:92-93 | with neither -r nor -p, -r is set; nothing else changes |
| `Cli.DefaultFilename` | index.py:100 | without -f (or with an empty one) the file name is `<video_id>_raw` |
| `Cli.RunMain` | index.py:92-103 | the URL error escapes main exactly when the URL has no match; otherwise the pipeline runs on the id, the language (default `en`), the directory (default the working directory) and the file name |
| `Cli.RawFlagIgnored` | index.py:92-103 | -r changes nothing: only -p selects punctuated mode, so raw mode is the default and -p wins when both are given |
| `Cli.DefaultSavedName` | index.py:100 | for a given video id, without -f and -o a successful save goes to the working directory as `<id>_raw_raw.txt` or `<id>_raw_punctuated.txt` |
| `Cli.DefaultOutputName` | index.py:100 | without -f and -o the file written is `<id>_raw_raw.txt` (raw) or `<id>_raw_punctuated.txt` (punctuated) in the working directory |

## Left out

- Chars.Upper: models `str.upper()` on ASCII letters only; Unicode case mapping, including mappings that change the length (`'ß'.upper() == 'SS'`), is not modelled, so `Capitalize` keeps the length where Python might not.
- Batching.EffectiveBatchSize: `int(math.log2(b))` is computed in floating point; the model uses the exact integer floor (`Batching.FloorLog2`), which differs for sizes just below a power of two from 2^49 - 1 upward, where the rounded logarithm makes the power of two exceed b (for b = 2^49 - 1 the float log2 is 49.0, so `2**49 > b`).
- The caption fetch (`youtube_transcript_api`, index.py:23) is a network call; its result is an input, and every exception it raises is one error value.
- The punctuation model (`PunctuationModel.restore_punctuation`, index.py:29-34) and `nltk.sent_tokenize` (index.py:47, 58) are external libraries; they are uninterpreted function parameters.
- `multiprocessing.Pool` and `tqdm` (index.py:50-51, 61-62): concurrency and a progress bar; `imap` is modelled as the order-preserving sequential map it is observably equivalent to. The `-v` flag only affects the progress bar and has no effect in the model.
- Writing the file, `os.path.join`, logging and the NLTK resource download (index.py:14-20, 54-56, 65-67): I/O; the result records the directory, file name and text that would be written.
- Argument parsing itself (index.py:80-90) is replaced by the `Args` record of parsed values.
- `args.batch_size or 0` (index.py:101) is the identity on integers and is not modelled separately.
- Exceptions other than the three named in `Pipeline.ProcessError` (for instance a failing punctuation model or tokenizer) are not modelled.
