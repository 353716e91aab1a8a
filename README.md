# YAML configuration loader

This project models the small configuration loader at the top of
`test/test-file-small.c`: the `struct config` object (entries keyed by the
hash of a path, plus a string cache holding the copied values), `confload`,
which walks the token stream of a YAML file and stores every scalar value
under the hash of `blockpath/key`, `confdelete`, and `confreads`, which looks
a path up and falls back to a default or aborts.

The project has four modules:

- `ConfTypes` (`conf_types.dfy`) holds the shared values: 64-bit hashes, C
  strings and `CStr` (the text before the first NUL, as `strlen` and
  `make_str_from_c` read it), the token kinds the loader tells apart, the
  "Unknown token type" warning, and `Deps`. `Deps` carries what the loader
  takes from elsewhere: the `strhash` function (any function, not assumed
  injective) and the name bound to `CONF_FILEPATH`.
- `PathBuilder` (`path_builder.dfy`) is the loop as a state machine on
  values. `Step` handles one token and `Run` consumes tokens until the end of
  the stream or a scan failure. `LoadSpec` covers a whole load. The lemmas
  about them state what each token does, what a whole run stores, which
  warnings it issues, and when a load succeeds.
- `Conf` (`conf.dfy`) is the imperative loader. `Config` is a class whose
  `data` and `cache` fields are updated in place. `blockpath` is a 256-char
  `array<char>` handled by an `snprintf` method (`FormatBlockPath`) and by the
  backward NUL-cutting loop (`CutBlockPath`). `Load` is a `while` loop over
  the token stream and is proved to produce exactly what `LoadSpec` describes.
  `Delete` and `Reads` model `confdelete` and `confreads`.
- `ConfExamples` (`examples_conf.dfy`) works through whole loads of small
  documents for an arbitrary `strhash`.

Nested mappings do not push path segments, and a repeated hash does not keep
its first value. The code does this instead:

- A block-mapping start does not push a path segment. It overwrites the whole
  block path with `/` followed by the current key. A block end cuts at the
  last `/`. So in a mapping nested twice, values land under `/b/c` and `/d`,
  not `/a/b/c` and `/a/d` (`ConfExamples.ThreeLevelPaths`).
- `hmputs` replaces an entry already stored under the same hash, so the last
  value written wins. Two paths whose hashes collide therefore share one entry
  (`ConfExamples.CollisionKeepsLastValue`). Every copy stays in the string
  cache.

## Model

| member | source | states |
|---|---|---|
| ConfTypes.CStr | test/test-file-small.c:104-106 | the C string read from a buffer is a prefix of it and stops right before its first NUL |
| ConfTypes.CStrOfTerminated | test/test-file-small.c:95-99 | a buffer whose first NUL is at index n holds exactly its first n characters as a C string |
| PathBuilder.BlockPathFor | test/test-file-small.c:89-93 | `snprintf` into the 256-byte buffer yields `/` and the key, cut to 255 characters so the terminator fits |
| PathBuilder.DropLastSegment | test/test-file-small.c:94-101 | a block end cuts the path at its last slash (a prefix with no slash after the cut); a path without a slash is unchanged |
| PathBuilder.DropLastSegmentAt | test/test-file-small.c:95-99 | the slash the backward scan finds first, with no slash after it, is where the path is cut |
| PathBuilder.StopIndex | test/test-file-small.c:76-78 | the loop stops at the first end-of-stream or failed-scan token; every token before it lets the loop continue |
| PathBuilder.TokenEffects | test/test-file-small.c:80-88 | only scalars touch entries and cache; key and value tokens only set the mode; stream start changes nothing; an unknown token adds exactly one warning and changes nothing else |
| PathBuilder.ScalarEffects | test/test-file-small.c:102-115 | a key scalar sets the key to its C string and stores nothing; a value scalar stores one entry, all its bytes under the hash of `blockpath/key`, appends one cache copy and leaves other entries alone |
| PathBuilder.BlockStartEffects | test/test-file-small.c:89-93 | a block-mapping start with an empty key keeps the block path; with a key it becomes `/key`, cut to fit the buffer; nothing else changes |
| PathBuilder.BlockEndEffects | test/test-file-small.c:94-101 | a block end shortens the path to before its last slash, keeps a path without a slash, and changes nothing else |
| PathBuilder.DropAppendedSegment | test/test-file-small.c:95-99 | cutting at the last slash undoes appending a slash-free segment |
| PathBuilder.EnterThenLeaveForgetsParent | test/test-file-small.c:89-101 | entering a nested mapping under a non-empty key without a slash and leaving it empties the block path, whatever the enclosing path was and however long the key |
| PathBuilder.StepKeepsInv | test/test-file-small.c:61-125 | every token keeps the block path inside its buffer, keeps the reserved entry, and keeps every stored value among the cache copies |
| PathBuilder.RunKeepsInv | test/test-file-small.c:61-127 | the same invariant holds wherever the loop stops |
| PathBuilder.RunFinishedIff | test/test-file-small.c:76-78 | the loop finishes exactly when some token ends the stream and no failed scan comes before it |
| PathBuilder.RunStopsAtStopIndex | test/test-file-small.c:76-118 | the loop finishes exactly when the first stopping token is the end of the stream |
| PathBuilder.RunWarnings | test/test-file-small.c:119-124 | the warnings are those from before the loop followed by one per unknown token before the stop, in order, with the file and position |
| PathBuilder.RunKeys | test/test-file-small.c:102-113 | after the loop the stored hashes are those from before plus the hash of every path a value was stored under |
| PathBuilder.RunKeepsUntouched | test/test-file-small.c:110-112 | an entry whose hash no stored path has keeps its value |
| PathBuilder.InsertedSameLength | test/test-file-small.c:108-112 | every stored value goes with exactly one path: a run visits as many paths as it stores values |
| PathBuilder.RunCache | test/test-file-small.c:111 | the cache after the loop is the cache before it followed by a copy of every stored value, in order |
| PathBuilder.RunData | test/test-file-small.c:108-112 | the entries after the loop are the entries before it, updated in order by each stored value under its path's hash, a later value replacing an earlier one with the same hash |
| PathBuilder.StoreAllLastWins | test/test-file-small.c:110-112 | storing one more value after the others leaves that value under its path's hash, whatever was stored there before |
| PathBuilder.RunPair | test/test-file-small.c:83-113 | a `key: value` pair stores exactly one entry, the value under the hash of `blockpath/key`, and leaves the loop expecting a value |
| PathBuilder.RunOpen | test/test-file-small.c:83-93 | the tokens opening a nested mapping under a non-empty key set the block path to `/key` (cut to fit) and store nothing |
| PathBuilder.RunClose | test/test-file-small.c:94-101 | a block end cuts the block path and stores nothing |
| PathBuilder.LoadSucceedsIff | test/test-file-small.c:76-78 | a load succeeds exactly when the end of the stream comes before any scan failure |
| PathBuilder.LoadedContents | test/test-file-small.c:61-132 | a successful load holds the reserved entry updated in order by every stored value under its path's hash, and its cache is the file path followed by every stored value |
| PathBuilder.ReservedEntryAfterLoad | test/test-file-small.c:61-65 | after a successful load the reserved key is stored, every value is a cache copy, and the cache is the file path followed by every stored value; the reserved entry still holds the file path unless a stored path hashes to the same value |
| Conf.Config.constructor | test/test-file-small.c:57-59 | a new configuration has no entries and an empty cache |
| Conf.Config.Put | test/test-file-small.c:63-65 | the value is appended to the cache, then stored under the hash, replacing any entry with that hash |
| Conf.StrLen | test/test-file-small.c:95 | `strlen` on the block path buffer returns the length of its C string |
| Conf.FormatBlockPath | test/test-file-small.c:90-92 | after the `snprintf` the buffer holds `BlockPathFor(key)` |
| Conf.CutBlockPath | test/test-file-small.c:94-101 | the backward loop leaves `DropLastSegment` of the old block path in the buffer |
| Conf.Load | test/test-file-small.c:47-141 | a file that cannot be opened gives no configuration and no warning; otherwise it returns a configuration exactly when `LoadSpec` loads, new and holding the entries and cache `LoadSpec` gives, and the warnings `LoadSpec` reports |
| Conf.Delete | test/test-file-small.c:143-148 | releases all entries and the whole cache; does nothing for `null` |
| Conf.Reads | test/test-file-small.c:150-159 | returns the stored value when the path's hash has an entry, even if a default is given; otherwise the default; with neither, the unknown-entry error, and only then |
| Conf.ReadReservedAfterLoad | test/test-file-small.c:61-65 | reading the reserved key without a default after a load gives the file path back, unless a stored path hashes to the same value |
| Conf.ReservedNeverAborts | test/test-file-small.c:150-159 | reading the reserved key without a default after a successful load never aborts and returns one of the cache copies |
| ConfExamples.TwoLevelPaths | test/test-file-small.c:89-113 | `a:` with nested `b: 1` and `c: 2` stores `1` under `/a/b` and `2` under `/a/c` after the reserved entry, with no warning |
| ConfExamples.ThreeLevelPaths | test/test-file-small.c:89-101 | `a:` / `b:` / `c: 1` then `d: 2` stores under `/b/c` and `/d`, because the block path is overwritten rather than extended |
| ConfExamples.CollisionKeepsLastValue | test/test-file-small.c:110-112 | two paths with the same hash share one entry holding the later value, while both copies stay in the cache |
| ConfExamples.ScanFailureDropsEntries | test/test-file-small.c:78 | a scan failure after an entry was stored fails the whole load; the warnings issued before it remain |
| ConfExamples.LongKeysTruncate | test/test-file-small.c:91 | keys agreeing on their first 254 characters give the same 255-character block path |

## Left out

- libyaml is not modelled. The scanner is a sequence of tokens. A failed
  `yaml_parser_scan` is the `ScanError` token. A sequence that runs out
  before the end of the stream is treated as a failed scan. All token kinds
  the loop does not handle are one `Other` token with the start mark's line
  and column.
- File I/O is not modelled: `fopen` failure is the `None` input, and
  `fclose`, `yaml_parser_delete` and `yaml_token_delete` release resources
  only.
- The internals of `strhash` are not modelled: it is a parameter, and no
  injectivity is assumed. The value of `CONF_FILEPATH` is also a parameter,
  because `conf.h` is not part of this model.
- The stb_ds hash map, `scdup` and `scfree` internals, `bmalloc` and `bfree`
  are not modelled. Entries are a map from hash to string and the cache is
  the sequence of copies. Memory ownership and the lifetime of the returned
  pointers are not modelled.
- The pooling of `get_tmp_str` and `put_tmp_str` is not modelled. The `key`
  and `path` buffers are plain strings.
- `bwarn` is modelled as a list of warnings returned by `Load`; their
  printing is not modelled. `babort` is the `UnknownEntry` error from
  `Reads`; terminating the program is not modelled.
- `bassert(conf)` in `confreads` is a non-null parameter type.
- Bytes are modelled as `char`. Scalar values are copied by their full
  `length`, and keys are read as C strings up to the first NUL, as the code
  does.
- Everything in `test/test-file-small.c` after line 159 is not part of this
  model.
- Conf.Load: the ensures does not say that the configuration torn down on a
  scan failure was emptied, because that object is not returned.
