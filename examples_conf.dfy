/** Whole loads of small documents, token by token, for an arbitrary
    `strhash`. */
module ConfExamples {
  import opened ConfTypes
  import opened PathBuilder

  /** Tokens of
        a:
          b: 1
          c: 2 */
  function TwoLevels(): seq<Token> {
    [StreamStart, BlockMappingStart]
    + (OpenTokens("a")
    + (PairTokens("b", "1")
    + (PairTokens("c", "2")
    + [BlockEnd, BlockEnd, StreamEnd])))
  }

  /** Tokens of
        a:
          b:
            c: 1
          d: 2 */
  function ThreeLevels(): seq<Token> {
    [StreamStart, BlockMappingStart]
    + (OpenTokens("a")
    + (OpenTokens("b")
    + (PairTokens("c", "1")
    + ([BlockEnd]
    + (PairTokens("d", "2")
    + [BlockEnd, BlockEnd, StreamEnd])))))
  }

  /** Tokens of
        a: 1
        b: 2 */
  function Flat(): seq<Token> {
    [StreamStart, BlockMappingStart]
    + (PairTokens("a", "1")
    + (PairTokens("b", "2")
    + [BlockEnd, StreamEnd]))
  }

  /** A stream start and the top-level block-mapping start (no key yet)
      change nothing. */
  lemma LeadIn(d: Deps, f: CString, b: Builder, rest: seq<Token>)
    requires b.key == ""
    ensures Run(d, f, b, [StreamStart, BlockMappingStart] + rest) == Run(d, f, b, rest)
  {
    var all := [StreamStart, BlockMappingStart] + rest;
    assert all[0] == StreamStart && all[1..][0] == BlockMappingStart && all[1..][1..] == rest;
  }

  /** `RunOpen` for a literal key and the block path it yields. */
  lemma OpenStep(d: Deps, f: CString, b: Builder, k: CString, p: CString, rest: seq<Token>)
    requires k != "" && BlockPathFor(k) == p
    ensures var b' := b.(mode := ExpectValue, key := k, blockpath := p);
      Run(d, f, b, OpenTokens(k) + rest) == Run(d, f, b', rest)
  {
    CStrOfCString(k);
    RunOpen(d, f, b, k, rest);
  }

  /** `RunPair` for a literal key and the path it is stored under. */
  lemma PairStep(d: Deps, f: CString, b: Builder, k: CString, v: string, p: string, rest: seq<Token>)
    returns (b': Builder)
    requires p == b.blockpath + "/" + k
    ensures b' == b.(mode := ExpectValue, key := k, data := b.data[d.strhash(p) := v], cache := b.cache + [v])
    ensures Run(d, f, b, PairTokens(k, v) + rest) == Run(d, f, b', rest)
  {
    CStrOfCString(k);
    RunPair(d, f, b, k, v, rest);
    b' := b.(mode := ExpectValue, key := k, data := b.data[d.strhash(p) := v], cache := b.cache + [v]);
  }

  /** Closing a one-segment block path and the top-level mapping, then the
      end of the stream, finishes with the empty block path. */
  lemma CloseTwoLevels(d: Deps, f: CString, b: Builder, seg: CString)
    requires '/' !in seg && b.blockpath == "/" + seg
    ensures Run(d, f, b, [BlockEnd, BlockEnd, StreamEnd]) == Finished(b.(blockpath := ""))
  {
    DropAppendedSegment("", seg);
    assert "" + "/" + seg == "/" + seg;
    var tail := [BlockEnd, BlockEnd, StreamEnd];
    var b' := b.(blockpath := "");
    assert tail[0] == BlockEnd && tail[1..][0] == BlockEnd && tail[1..][1..] == [StreamEnd];
    assert Run(d, f, b, tail) == Run(d, f, b', tail[1..]) == Run(d, f, b', [StreamEnd]);
  }

  /** A block end inside a one-segment block path empties it. */
  lemma CloseSegment(d: Deps, f: CString, b: Builder, seg: CString, rest: seq<Token>)
    requires '/' !in seg && b.blockpath == "/" + seg
    ensures Run(d, f, b, [BlockEnd] + rest) == Run(d, f, b.(blockpath := ""), rest)
  {
    DropAppendedSegment("", seg);
    assert "" + "/" + seg == "/" + seg;
    RunClose(d, f, b, rest);
  }

  /** With an empty block path, the closing block ends and the end of the
      stream change nothing more. */
  lemma CloseAtTop(d: Deps, f: CString, b: Builder)
    requires b.blockpath == ""
    ensures Run(d, f, b, [BlockEnd, BlockEnd, StreamEnd]) == Finished(b)
  {
    var tail := [BlockEnd, BlockEnd, StreamEnd];
    assert DropLastSegment("") == "";
    assert tail[0] == BlockEnd && tail[1..][0] == BlockEnd && tail[1..][1..] == [StreamEnd];
    assert Run(d, f, b, tail) == Run(d, f, b, tail[1..]) == Run(d, f, b, [StreamEnd]);
  }

  /** A mapping nested once stores its values under `/a/b` and `/a/c`,
      after the reserved entry; no warning is issued. */
  lemma TwoLevelPaths(d: Deps, filepath: CString)
    ensures LoadSpec(d, filepath, Some(TwoLevels()))
            == Loaded(map[d.strhash(d.confFilepath) := filepath]
                         [d.strhash("/a/b") := "1"][d.strhash("/a/c") := "2"],
                      [filepath, "1", "2"], [])
  {
    var b := TwoLevelsRun(d, filepath);
    assert b.cache == [filepath, "1", "2"];
  }

  lemma TwoLevelsRun(d: Deps, f: CString) returns (b4: Builder)
    ensures b4 == Builder(ExpectValue, "c", "",
                          map[d.strhash(d.confFilepath) := f][d.strhash("/a/b") := "1"][d.strhash("/a/c") := "2"],
                          [f] + ["1"] + ["2"], [])
    ensures Run(d, f, Initial(d, f), TwoLevels()) == Finished(b4)
  {
    var tail := [BlockEnd, BlockEnd, StreamEnd];
    var r3 := PairTokens("c", "2") + tail;
    var r2 := PairTokens("b", "1") + r3;
    var r1 := OpenTokens("a") + r2;
    var b0 := Initial(d, f);
    var b1 := b0.(mode := ExpectValue, key := "a", blockpath := "/a");
    LeadIn(d, f, b0, r1);
    OpenStep(d, f, b0, "a", "/a", r2);
    var b2 := PairStep(d, f, b1, "b", "1", "/a/b", r3);
    var b3 := PairStep(d, f, b2, "c", "2", "/a/c", tail);
    b4 := b3.(blockpath := "");
    CloseTwoLevels(d, f, b3, "a");
  }

  /** Nested twice, the code stores `/b/c` and then `/d`, not `/a/b/c` and
      `/a/d`: entering `b` replaces the block path by `/b`, and leaving it
      cuts that back to the empty path. */
  lemma ThreeLevelPaths(d: Deps, filepath: CString)
    ensures LoadSpec(d, filepath, Some(ThreeLevels()))
            == Loaded(map[d.strhash(d.confFilepath) := filepath]
                         [d.strhash("/b/c") := "1"][d.strhash("/d") := "2"],
                      [filepath, "1", "2"], [])
  {
    var b := ThreeLevelsRun(d, filepath);
    assert b.cache == [filepath, "1", "2"];
  }

  lemma ThreeLevelsRun(d: Deps, f: CString) returns (b5: Builder)
    ensures b5 == Builder(ExpectValue, "d", "",
                          map[d.strhash(d.confFilepath) := f][d.strhash("/b/c") := "1"][d.strhash("/d") := "2"],
                          [f] + ["1"] + ["2"], [])
    ensures Run(d, f, Initial(d, f), ThreeLevels()) == Finished(b5)
  {
    var tail := [BlockEnd, BlockEnd, StreamEnd];
    var r5 := PairTokens("d", "2") + tail;
    var r4 := [BlockEnd] + r5;
    var r3 := PairTokens("c", "1") + r4;
    var r2 := OpenTokens("b") + r3;
    var r1 := OpenTokens("a") + r2;
    var b0 := Initial(d, f);
    var b1 := b0.(mode := ExpectValue, key := "a", blockpath := "/a");
    var b2 := b1.(key := "b", blockpath := "/b");
    LeadIn(d, f, b0, r1);
    OpenStep(d, f, b0, "a", "/a", r2);
    OpenStep(d, f, b1, "b", "/b", r3);
    var b3 := PairStep(d, f, b2, "c", "1", "/b/c", r4);
    var b4 := b3.(blockpath := "");
    CloseSegment(d, f, b3, "b", r5);
    b5 := PairStep(d, f, b4, "d", "2", "/d", tail);
    CloseAtTop(d, f, b5);
  }

  /** Two paths with the same hash share one entry: the later value wins. */
  lemma CollisionKeepsLastValue(d: Deps, filepath: CString)
    requires d.strhash("/a") == d.strhash("/b")
    ensures LoadSpec(d, filepath, Some(Flat()))
            == Loaded(map[d.strhash(d.confFilepath) := filepath][d.strhash("/a") := "2"],
                      [filepath, "1", "2"], [])
  {
    var f := filepath;
    var tail := [BlockEnd, StreamEnd];
    var r2 := PairTokens("b", "2") + tail;
    var r1 := PairTokens("a", "1") + r2;
    var b0 := Initial(d, f);
    LeadIn(d, f, b0, r1);
    var b1 := PairStep(d, f, b0, "a", "1", "/a", r2);
    var b2 := PairStep(d, f, b1, "b", "2", "/b", tail);
    assert Run(d, f, b2, tail) == Finished(b2) by {
      assert tail[0] == BlockEnd && tail[1..] == [StreamEnd];
      assert Run(d, f, b2, tail) == Run(d, f, b2, [StreamEnd]);
    }
    assert b2.data == map[d.strhash(d.confFilepath) := f][d.strhash("/a") := "2"];
    assert b2.cache == [f, "1", "2"];
  }

  /** A scan failure after some entries were stored fails the whole load;
      the warnings issued before it remain. */
  lemma ScanFailureDropsEntries(d: Deps, filepath: CString)
    ensures LoadSpec(d, filepath, Some([StreamStart, BlockMappingStart]
                                       + (PairTokens("a", "1") + [Other(3, 0), ScanError, StreamEnd])))
            == ScanFailed([UnknownToken(filepath, 3, 0)])
  {
    var f := filepath;
    var tail := [Other(3, 0), ScanError, StreamEnd];
    var b0 := Initial(d, f);
    LeadIn(d, f, b0, PairTokens("a", "1") + tail);
    var b1 := PairStep(d, f, b0, "a", "1", "/a", tail);
    var b2 := b1.(warnings := [UnknownToken(f, 3, 0)]);
    assert tail[0] == Other(3, 0) && tail[1..][0] == ScanError;
    assert Run(d, f, b1, tail) == Run(d, f, b2, tail[1..]) == Failed(b2);
  }

  /** Keys that agree on their first 254 characters give the same block
      path: the cut is deterministic and loses the rest. */
  lemma {:induction false} LongKeysTruncate(k1: CString, k2: CString)
    requires |k1| >= BlockPathSize - 2 && |k2| >= BlockPathSize - 2
    requires k1[..BlockPathSize - 2] == k2[..BlockPathSize - 2]
    ensures BlockPathFor(k1) == BlockPathFor(k2)
    ensures |BlockPathFor(k1)| == BlockPathSize - 1
  {
    var r1, r2 := BlockPathFor(k1), BlockPathFor(k2);
    forall i | 0 <= i < |r1| ensures r1[i] == r2[i] {
      if i > 0 {
        assert r1[i] == ("/" + k1)[i] == k1[i - 1] == k1[..BlockPathSize - 2][i - 1];
        assert r2[i] == ("/" + k2)[i] == k2[i - 1] == k2[..BlockPathSize - 2][i - 1];
      }
    }
  }
}

