/** The token loop of `confload` as a state machine on values: one `Step`
    per token, `Run` until the stream ends or the scanner fails, and
    `LoadSpec` for a whole load. The imperative loader in module `Conf` is
    proved to compute exactly `LoadSpec`. */
module PathBuilder {
  import opened ConfTypes

  /** Size of the `blockpath` buffer, terminator included. */
  const BlockPathSize: nat := 256

  /** `STATE_KEY` / `STATE_VALUE`: which kind of scalar comes next. */
  datatype Mode = ExpectKey | ExpectValue

  /** Everything the loop reads and writes: its mode, the `key` buffer, the
      C string held in `blockpath`, the entries (`conf->data`), the string
      cache (`conf->cache`, every copy in order) and the warnings issued. */
  datatype Builder = Builder(
    mode: Mode,
    key: CString,
    blockpath: CString,
    data: map<Hash, string>,
    cache: seq<string>,
    warnings: seq<Warning>)

  /** Where the loop stopped: at the end of the stream, or at a scan failure. */
  datatype Stop = Finished(last: Builder) | Failed(last: Builder)

  /** The result of a whole load. */
  datatype LoadOutcome =
    | OpenFailed
    | ScanFailed(warnings: seq<Warning>)
    | Loaded(data: map<Hash, string>, cache: seq<string>, warnings: seq<Warning>)

  /** The path a value scalar is stored under: `blockpath`, a slash, `key`. */
  function Path(b: Builder): string {
    b.blockpath + "/" + b.key
  }

  /** What `snprintf(blockpath, 256, "/%.*s", ...)` leaves in the buffer:
      a slash and the key, cut so that the terminator still fits. */
  function BlockPathFor(key: CString): (r: CString)
    ensures |r| < BlockPathSize
    ensures r <= "/" + key
    ensures |r| == if |key| + 1 < BlockPathSize then |key| + 1 else BlockPathSize - 1
  {
    var s := "/" + key;
    if |s| < BlockPathSize then s else s[..BlockPathSize - 1]
  }

  /** Index of the last slash of `s`. */
  function LastSlash(s: string): (i: nat)
    requires '/' in s
    ensures i < |s| && s[i] == '/'
    ensures forall k :: i < k < |s| ==> s[k] != '/'
  {
    if s[|s| - 1] == '/' then |s| - 1
    else
      assert '/' in s[..|s| - 1] by {
        var j :| 0 <= j < |s| && s[j] == '/';
        assert s[..|s| - 1][j] == '/';
      }
      LastSlash(s[..|s| - 1])
  }

  /** What a block end does to `blockpath`: cut it at its last slash; a
      path without a slash stays as it is. */
  function DropLastSegment(s: CString): (r: CString)
    ensures r <= s
    ensures '/' !in s ==> r == s
    ensures '/' in s ==> |r| < |s| && s[|r|] == '/' && '/' !in s[|r| + 1..]
  {
    if '/' in s then s[..LastSlash(s)] else s
  }

  /** A slash with no slash after it is where a block end cuts. */
  lemma DropLastSegmentAt(s: CString, i: nat)
    requires i < |s| && s[i] == '/'
    requires forall k :: i < k < |s| ==> s[k] != '/'
    ensures DropLastSegment(s) == s[..i]
  {
    var j := LastSlash(s);
    assert j == i by {
      if j < i { assert s[i] == '/'; } else if j > i { assert s[j] == '/'; }
    }
  }

  /** The hashes of a list of paths, one path at a time. */
  lemma HashesOfCons(d: Deps, p: string, rest: seq<string>)
    ensures HashesOf(d, [p] + rest) == {d.strhash(p)} + HashesOf(d, rest)
  {
  }

  /** The builder right before the first token is scanned: mode key, empty
      key and block path, and the reserved entry already stored. */
  function Initial(d: Deps, filepath: CString): Builder {
    Builder(ExpectKey, "", "", map[d.strhash(d.confFilepath) := filepath], [filepath], [])
  }

  /** One pass of the loop body for a token that does not end the loop. */
  function Step(d: Deps, file: CString, b: Builder, t: Token): Builder
    requires !t.StreamEnd? && !t.ScanError?
  {
    match t
    case StreamStart => b
    case Key => b.(mode := ExpectKey)
    case Value => b.(mode := ExpectValue)
    case BlockMappingStart =>
      if |b.key| > 0 then b.(blockpath := BlockPathFor(b.key)) else b
    case BlockEnd => b.(blockpath := DropLastSegment(b.blockpath))
    case Scalar(text) =>
      if b.mode == ExpectKey then b.(key := CStr(text))
      else b.(data := b.data[d.strhash(Path(b)) := text], cache := b.cache + [text])
    case Other(line, column) =>
      b.(warnings := b.warnings + [UnknownToken(file, line, column)])
  }

  /** The loop: consume tokens until the end of the stream (success) or a
      scan failure; a stream that runs out first is a scan failure too. */
  function Run(d: Deps, file: CString, b: Builder, toks: seq<Token>): Stop
    decreases |toks|
  {
    if toks == [] || toks[0].ScanError? then Failed(b)
    else if toks[0].StreamEnd? then Finished(b)
    else Run(d, file, Step(d, file, b, toks[0]), toks[1..])
  }

  /** `confload`: `None` is a file that could not be opened. */
  function LoadSpec(d: Deps, filepath: CString, file: Option<seq<Token>>): LoadOutcome {
    match file
    case None => OpenFailed
    case Some(toks) =>
      match Run(d, filepath, Initial(d, filepath), toks)
      case Finished(b) => Loaded(b.data, b.cache, b.warnings)
      case Failed(b) => ScanFailed(b.warnings)
  }

  /** The paths, in order, under which a run stores values. */
  function InsertedPaths(d: Deps, file: CString, b: Builder, toks: seq<Token>): seq<string>
    decreases |toks|
  {
    if toks == [] || toks[0].ScanError? || toks[0].StreamEnd? then []
    else
      (if toks[0].Scalar? && b.mode == ExpectValue then [Path(b)] else [])
      + InsertedPaths(d, file, Step(d, file, b, toks[0]), toks[1..])
  }

  /** The values, in order, that a run stores: the text of every value
      scalar before the stop. */
  function InsertedValues(d: Deps, file: CString, b: Builder, toks: seq<Token>): seq<string>
    decreases |toks|
  {
    if toks == [] || toks[0].ScanError? || toks[0].StreamEnd? then []
    else
      (if toks[0].Scalar? && b.mode == ExpectValue then [toks[0].text] else [])
      + InsertedValues(d, file, Step(d, file, b, toks[0]), toks[1..])
  }

  /** `hmputs` of each path's hash and value in turn, starting from `m`. */
  function StoreAll(d: Deps, m: map<Hash, string>, paths: seq<string>, values: seq<string>): map<Hash, string>
    requires |paths| == |values|
    decreases |paths|
  {
    if paths == [] then m
    else StoreAll(d, m[d.strhash(paths[0]) := values[0]], paths[1..], values[1..])
  }

  function HashesOf(d: Deps, paths: seq<string>): set<Hash> {
    set p | p in paths :: d.strhash(p)
  }

  /** Index of the first token that stops the loop, or `|toks|`. */
  function StopIndex(toks: seq<Token>): (n: nat)
    ensures n <= |toks|
    ensures forall j :: 0 <= j < n ==> !toks[j].StreamEnd? && !toks[j].ScanError?
    ensures n < |toks| ==> toks[n].StreamEnd? || toks[n].ScanError?
  {
    if toks == [] || toks[0].StreamEnd? || toks[0].ScanError? then 0
    else 1 + StopIndex(toks[1..])
  }

  /** The warnings a run of these tokens issues: one per unknown token. */
  function UnknownTokens(file: CString, toks: seq<Token>): seq<Warning> {
    if toks == [] then []
    else
      (if toks[0].Other? then [UnknownToken(file, toks[0].line, toks[0].column)] else [])
      + UnknownTokens(file, toks[1..])
  }

  /** What holds of the builder at every step: the block path fits its
      buffer, the reserved key is stored, and every stored value is one of
      the cache's copies. */
  ghost predicate Inv(d: Deps, b: Builder) {
    && |b.blockpath| < BlockPathSize
    && d.strhash(d.confFilepath) in b.data
    && forall h :: h in b.data ==> b.data[h] in b.cache
  }

  // ---------------------------------------------------------------------------
  // One token
  // ---------------------------------------------------------------------------

  /** Only a scalar can touch the entries and the cache; key and value
      tokens set the mode and nothing else; stream start and unknown tokens
      change nothing but the warnings, and only an unknown token adds one. */
  lemma TokenEffects(d: Deps, file: CString, b: Builder, t: Token)
    requires !t.StreamEnd? && !t.ScanError?
    ensures !t.Scalar? ==> Step(d, file, b, t).data == b.data && Step(d, file, b, t).cache == b.cache
    ensures t.Key? ==> Step(d, file, b, t) == b.(mode := ExpectKey)
    ensures t.Value? ==> Step(d, file, b, t) == b.(mode := ExpectValue)
    ensures t.StreamStart? ==> Step(d, file, b, t) == b
    ensures t.Other? ==> Step(d, file, b, t).(warnings := b.warnings) == b
    ensures t.Other? ==> |Step(d, file, b, t).warnings| == |b.warnings| + 1
    ensures !t.Other? ==> Step(d, file, b, t).warnings == b.warnings
  {
  }

  /** A scalar in key mode replaces the key by the scalar's C string and
      stores nothing; in value mode it stores exactly one entry, a copy of
      all the scalar's bytes under the hash of `blockpath/key`. */
  lemma ScalarEffects(d: Deps, file: CString, b: Builder, text: string)
    ensures b.mode == ExpectKey ==>
      Step(d, file, b, Scalar(text)) == b.(key := CStr(text))
    ensures b.mode == ExpectValue ==>
      var h, b' := d.strhash(b.blockpath + "/" + b.key), Step(d, file, b, Scalar(text));
      && b'.data.Keys == b.data.Keys + {h}
      && b'.data[h] == text
      && (forall g :: g in b.data && g != h ==> b'.data[g] == b.data[g])
      && b'.cache == b.cache + [text]
      && b'.(data := b.data, cache := b.cache) == b
  {
  }

  /** A block-mapping start with a key sets the block path to a slash and
      the key, cut to fit; without a key it leaves it alone. */
  lemma BlockStartEffects(d: Deps, file: CString, b: Builder)
    ensures var p := Step(d, file, b, BlockMappingStart).blockpath;
      && (|b.key| == 0 ==> p == b.blockpath)
      && (|b.key| > 0 ==> |p| < BlockPathSize)
      && (0 < |b.key| < BlockPathSize - 1 ==> p == "/" + b.key)
      && (|b.key| >= BlockPathSize - 1 ==> p == ("/" + b.key)[..BlockPathSize - 1])
    ensures Step(d, file, b, BlockMappingStart).(blockpath := b.blockpath) == b
  {
  }

  /** A block end cuts the block path at its last slash and never makes it
      longer. */
  lemma BlockEndEffects(d: Deps, file: CString, b: Builder)
    ensures var p := Step(d, file, b, BlockEnd).blockpath;
      && p <= b.blockpath
      && ('/' !in b.blockpath ==> p == b.blockpath)
      && ('/' in b.blockpath ==> |p| < |b.blockpath| && b.blockpath[|p|] == '/'
                                 && '/' !in b.blockpath[|p| + 1..])
    ensures Step(d, file, b, BlockEnd).(blockpath := b.blockpath) == b
  {
  }

  /** Removing the last segment undoes appending one. */
  lemma {:induction false} DropAppendedSegment(s: CString, seg: CString)
    requires '/' !in seg
    ensures DropLastSegment(s + "/" + seg) == s
  {
    var t := s + "/" + seg;
    assert t[|s|] == '/';
    assert forall k :: |s| < k < |t| ==> t[k] == seg[k - |s| - 1];
  }

  /** As written, a block-mapping start followed by its block end leaves an
      empty block path, whatever the path was before: the enclosing
      mapping's prefix is not restored. */
  lemma {:induction false} EnterThenLeaveForgetsParent(d: Deps, file: CString, b: Builder)
    requires 0 < |b.key| && '/' !in b.key
    ensures Step(d, file, Step(d, file, b, BlockMappingStart), BlockEnd).blockpath == ""
  {
    var seg := if |b.key| < BlockPathSize - 1 then b.key else b.key[..BlockPathSize - 2];
    assert '/' !in seg by {
      if |b.key| >= BlockPathSize - 1 {
        forall i | 0 <= i < |seg| ensures seg[i] != '/' { assert seg[i] == b.key[i]; }
      }
    }
    assert BlockPathFor(b.key) == "" + "/" + seg;
    DropAppendedSegment("", seg);
  }

  /** Every step keeps the invariant. */
  lemma StepKeepsInv(d: Deps, file: CString, b: Builder, t: Token)
    requires !t.StreamEnd? && !t.ScanError?
    requires Inv(d, b)
    ensures Inv(d, Step(d, file, b, t))
  {
    if t.Scalar? && b.mode == ExpectValue {
      var b' := Step(d, file, b, t);
      forall h | h in b'.data ensures b'.data[h] in b'.cache {
        if h != d.strhash(Path(b)) {
          assert b.data[h] in b.cache;
        } else {
          assert b'.cache[|b.cache|] == t.text;
        }
      }
    }
  }

  // ---------------------------------------------------------------------------
  // A whole run
  // ---------------------------------------------------------------------------

  /** The invariant holds when the loop stops, and the initial builder has it. */
  lemma {:induction false} RunKeepsInv(d: Deps, file: CString, b: Builder, toks: seq<Token>)
    requires Inv(d, b)
    ensures Inv(d, Run(d, file, b, toks).last)
    decreases |toks|
  {
    if toks != [] && !toks[0].ScanError? && !toks[0].StreamEnd? {
      StepKeepsInv(d, file, b, toks[0]);
      RunKeepsInv(d, file, Step(d, file, b, toks[0]), toks[1..]);
    }
  }

  /** The loop succeeds exactly when some token is the end of the stream and
      no scan failure comes before it. */
  lemma {:induction false} RunFinishedIff(d: Deps, file: CString, b: Builder, toks: seq<Token>)
    ensures Run(d, file, b, toks).Finished? <==>
      exists i :: 0 <= i < |toks| && toks[i].StreamEnd?
                  && forall j :: 0 <= j < i ==> !toks[j].ScanError?
    decreases |toks|
  {
    if toks == [] {
    } else if toks[0].ScanError? {
    } else if toks[0].StreamEnd? {
      assert toks[0].StreamEnd?;
    } else {
      var rest := toks[1..];
      RunFinishedIff(d, file, Step(d, file, b, toks[0]), rest);
      if Run(d, file, b, toks).Finished? {
        var i :| 0 <= i < |rest| && rest[i].StreamEnd? && forall j :: 0 <= j < i ==> !rest[j].ScanError?;
        assert toks[i + 1].StreamEnd?;
        assert forall j :: 0 <= j < i + 1 ==> !toks[j].ScanError? by {
          forall j | 0 < j < i + 1 ensures !toks[j].ScanError? {
            assert toks[j] == rest[j - 1];
          }
        }
      } else {
        forall i | 0 <= i < |toks| && toks[i].StreamEnd?
          ensures exists j :: 0 <= j < i && toks[j].ScanError?
        {
          assert i > 0 && rest[i - 1].StreamEnd?;
          var j :| 0 <= j < i - 1 && rest[j].ScanError?;
          assert toks[j + 1].ScanError?;
        }
      }
    }
  }

  /** The loop stops at the first end-of-stream or scan-failure token. */
  lemma {:induction false} RunStopsAtStopIndex(d: Deps, file: CString, b: Builder, toks: seq<Token>)
    ensures Run(d, file, b, toks).Finished? <==>
      StopIndex(toks) < |toks| && toks[StopIndex(toks)].StreamEnd?
    decreases |toks|
  {
    if toks != [] && !toks[0].ScanError? && !toks[0].StreamEnd? {
      RunStopsAtStopIndex(d, file, Step(d, file, b, toks[0]), toks[1..]);
    }
  }

  /** The warnings a run adds are exactly one per unknown token before the
      stop, in order. */
  lemma {:induction false} RunWarnings(d: Deps, file: CString, b: Builder, toks: seq<Token>)
    ensures Run(d, file, b, toks).last.warnings
            == b.warnings + UnknownTokens(file, toks[..StopIndex(toks)])
    decreases |toks|
  {
    if toks == [] || toks[0].ScanError? || toks[0].StreamEnd? {
      assert toks[..StopIndex(toks)] == [];
    } else {
      var b' := Step(d, file, b, toks[0]);
      RunWarnings(d, file, b', toks[1..]);
      var n := StopIndex(toks[1..]);
      assert toks[..StopIndex(toks)] == [toks[0]] + toks[1..][..n];
      calc {
        UnknownTokens(file, toks[..StopIndex(toks)]);
        UnknownTokens(file, [toks[0]] + toks[1..][..n]);
        (if toks[0].Other? then [UnknownToken(file, toks[0].line, toks[0].column)] else [])
          + UnknownTokens(file, toks[1..][..n]);
      }
    }
  }

  /** After a run, the keys are the ones before plus the hash of every path
      stored under. */
  lemma {:induction false} RunKeys(d: Deps, file: CString, b: Builder, toks: seq<Token>)
    ensures Run(d, file, b, toks).last.data.Keys
            == b.data.Keys + HashesOf(d, InsertedPaths(d, file, b, toks))
    decreases |toks|
  {
    if toks != [] && !toks[0].ScanError? && !toks[0].StreamEnd? {
      var b' := Step(d, file, b, toks[0]);
      RunKeys(d, file, b', toks[1..]);
      var rest := InsertedPaths(d, file, b', toks[1..]);
      TokenEffects(d, file, b, toks[0]);
      if toks[0].Scalar? {
        ScalarEffects(d, file, b, toks[0].text);
      }
      if toks[0].Scalar? && b.mode == ExpectValue {
        HashesOfCons(d, Path(b), rest);
      }
    }
  }

  /** An entry whose hash no stored path has keeps its value through a run. */
  lemma {:induction false} RunKeepsUntouched(d: Deps, file: CString, b: Builder, toks: seq<Token>, h: Hash)
    requires h in b.data && h !in HashesOf(d, InsertedPaths(d, file, b, toks))
    ensures h in Run(d, file, b, toks).last.data
    ensures Run(d, file, b, toks).last.data[h] == b.data[h]
    decreases |toks|
  {
    if toks != [] && !toks[0].ScanError? && !toks[0].StreamEnd? {
      var b' := Step(d, file, b, toks[0]);
      var rest := InsertedPaths(d, file, b', toks[1..]);
      TokenEffects(d, file, b, toks[0]);
      if toks[0].Scalar? {
        ScalarEffects(d, file, b, toks[0].text);
      }
      if toks[0].Scalar? && b.mode == ExpectValue {
        HashesOfCons(d, Path(b), rest);
      }
      RunKeepsUntouched(d, file, b', toks[1..], h);
    }
  }

  /** A run stores as many values as it visits paths. */
  lemma {:induction false} InsertedSameLength(d: Deps, file: CString, b: Builder, toks: seq<Token>)
    ensures |InsertedPaths(d, file, b, toks)| == |InsertedValues(d, file, b, toks)|
    decreases |toks|
  {
    if toks != [] && !toks[0].ScanError? && !toks[0].StreamEnd? {
      InsertedSameLength(d, file, Step(d, file, b, toks[0]), toks[1..]);
    }
  }

  /** A run only appends to the cache: one copy of each stored value, in
      the order the values come. */
  lemma {:induction false} RunCache(d: Deps, file: CString, b: Builder, toks: seq<Token>)
    ensures Run(d, file, b, toks).last.cache == b.cache + InsertedValues(d, file, b, toks)
    decreases |toks|
  {
    if toks != [] && !toks[0].ScanError? && !toks[0].StreamEnd? {
      var b' := Step(d, file, b, toks[0]);
      RunCache(d, file, b', toks[1..]);
      TokenEffects(d, file, b, toks[0]);
      if toks[0].Scalar? {
        ScalarEffects(d, file, b, toks[0].text);
      }
    }
  }

  /** The entries after a run: the entries before, then every stored value
      put under its path's hash in order, a later one replacing an earlier
      one with the same hash. */
  lemma {:induction false} RunData(d: Deps, file: CString, b: Builder, toks: seq<Token>)
    ensures |InsertedPaths(d, file, b, toks)| == |InsertedValues(d, file, b, toks)|
    ensures Run(d, file, b, toks).last.data
            == StoreAll(d, b.data, InsertedPaths(d, file, b, toks), InsertedValues(d, file, b, toks))
    decreases |toks|
  {
    InsertedSameLength(d, file, b, toks);
    if toks != [] && !toks[0].ScanError? && !toks[0].StreamEnd? {
      var b' := Step(d, file, b, toks[0]);
      RunData(d, file, b', toks[1..]);
      var ps, vs := InsertedPaths(d, file, b', toks[1..]), InsertedValues(d, file, b', toks[1..]);
      TokenEffects(d, file, b, toks[0]);
      if toks[0].Scalar? {
        ScalarEffects(d, file, b, toks[0].text);
      }
      if toks[0].Scalar? && b.mode == ExpectValue {
        var t := toks[0].text;
        assert b'.data == b.data[d.strhash(Path(b)) := t];
        assert InsertedPaths(d, file, b, toks) == [Path(b)] + ps;
        assert InsertedValues(d, file, b, toks) == [t] + vs;
        assert ([Path(b)] + ps)[1..] == ps && ([t] + vs)[1..] == vs;
        assert StoreAll(d, b.data, [Path(b)] + ps, [t] + vs) == StoreAll(d, b'.data, ps, vs);
      } else {
        assert InsertedPaths(d, file, b, toks) == ps;
        assert InsertedValues(d, file, b, toks) == vs;
      }
    }
  }

  /** Last write wins: putting one more path and value after the others
      leaves that value under that path's hash. */
  lemma {:induction false} StoreAllLastWins(d: Deps, m: map<Hash, string>, paths: seq<string>, values: seq<string>, p: string, v: string)
    requires |paths| == |values|
    ensures StoreAll(d, m, paths + [p], values + [v]) == StoreAll(d, m, paths, values)[d.strhash(p) := v]
    decreases |paths|
  {
    if paths != [] {
      assert (paths + [p])[1..] == paths[1..] + [p];
      assert (values + [v])[1..] == values[1..] + [v];
      StoreAllLastWins(d, m[d.strhash(paths[0]) := values[0]], paths[1..], values[1..], p, v);
    }
  }

  /** The tokens of one `key: value` pair. */
  function PairTokens(k: string, v: string): seq<Token> {
    [Key, Scalar(k), Value, Scalar(v)]
  }

  /** The tokens that open the mapping nested under `key`. */
  function OpenTokens(k: string): seq<Token> {
    [Key, Scalar(k), Value, BlockMappingStart]
  }

  /** A `key: value` pair stores exactly one entry, the value under the hash
      of the block path, a slash and the key's C string, and leaves the loop
      expecting a value. */
  lemma {:induction false} RunPair(d: Deps, file: CString, b: Builder, k: string, v: string, rest: seq<Token>)
    ensures var p := b.blockpath + "/" + CStr(k);
      var b' := b.(mode := ExpectValue, key := CStr(k),
                   data := b.data[d.strhash(p) := v], cache := b.cache + [v]);
      && Run(d, file, b, PairTokens(k, v) + rest) == Run(d, file, b', rest)
      && InsertedPaths(d, file, b, PairTokens(k, v) + rest) == [p] + InsertedPaths(d, file, b', rest)
  {
    var t0 := PairTokens(k, v) + rest;
    var t1, t2, t3 := t0[1..], t0[2..], t0[3..];
    assert t0[0] == Key && t1[0] == Scalar(k) && t2[0] == Value && t3[0] == Scalar(v);
    assert t1 == t0[1..] && t2 == t1[1..] && t3 == t2[1..] && t3[1..] == rest;
    var b1 := b.(mode := ExpectKey);
    var b2 := b1.(key := CStr(k));
    var b3 := b2.(mode := ExpectValue);
    assert Step(d, file, b3, Scalar(v)) == b3.(data := b.data[d.strhash(b.blockpath + "/" + CStr(k)) := v], cache := b.cache + [v]);
    assert Run(d, file, b, t0) == Run(d, file, b1, t1) == Run(d, file, b2, t2) == Run(d, file, b3, t3);
    assert InsertedPaths(d, file, b, t0) == InsertedPaths(d, file, b1, t1)
        == InsertedPaths(d, file, b2, t2) == InsertedPaths(d, file, b3, t3);
  }

  /** Opening the mapping nested under a non-empty key sets the block path
      to a slash and that key (cut to fit) and stores nothing. */
  lemma {:induction false} RunOpen(d: Deps, file: CString, b: Builder, k: string, rest: seq<Token>)
    requires CStr(k) != ""
    ensures var b' := b.(mode := ExpectValue, key := CStr(k), blockpath := BlockPathFor(CStr(k)));
      && Run(d, file, b, OpenTokens(k) + rest) == Run(d, file, b', rest)
      && InsertedPaths(d, file, b, OpenTokens(k) + rest) == InsertedPaths(d, file, b', rest)
  {
    var t0 := OpenTokens(k) + rest;
    var t1, t2, t3 := t0[1..], t0[2..], t0[3..];
    assert t0[0] == Key && t1[0] == Scalar(k) && t2[0] == Value && t3[0] == BlockMappingStart;
    assert t1 == t0[1..] && t2 == t1[1..] && t3 == t2[1..] && t3[1..] == rest;
    var b1 := b.(mode := ExpectKey);
    var b2 := b1.(key := CStr(k));
    var b3 := b2.(mode := ExpectValue);
    assert Run(d, file, b, t0) == Run(d, file, b1, t1) == Run(d, file, b2, t2) == Run(d, file, b3, t3);
    assert InsertedPaths(d, file, b, t0) == InsertedPaths(d, file, b1, t1)
        == InsertedPaths(d, file, b2, t2) == InsertedPaths(d, file, b3, t3);
  }

  /** A block end cuts the block path and stores nothing. */
  lemma RunClose(d: Deps, file: CString, b: Builder, rest: seq<Token>)
    ensures var b' := b.(blockpath := DropLastSegment(b.blockpath));
      && Run(d, file, b, [BlockEnd] + rest) == Run(d, file, b', rest)
      && InsertedPaths(d, file, b, [BlockEnd] + rest) == InsertedPaths(d, file, b', rest)
  {
    assert ([BlockEnd] + rest)[1..] == rest;
  }

  // ---------------------------------------------------------------------------
  // A whole load
  // ---------------------------------------------------------------------------

  /** A load succeeds exactly when the scanner reaches the end of the stream
      before any failure. */
  lemma LoadSucceedsIff(d: Deps, filepath: CString, toks: seq<Token>)
    ensures LoadSpec(d, filepath, Some(toks)).Loaded? <==>
      exists i :: 0 <= i < |toks| && toks[i].StreamEnd?
                  && forall j :: 0 <= j < i ==> !toks[j].ScanError?
  {
    RunFinishedIff(d, filepath, Initial(d, filepath), toks);
  }

  /** What a successful load holds: the reserved entry, then every stored
      value put under its path's hash in order; the cache is the file path
      followed by every stored value. */
  lemma LoadedContents(d: Deps, filepath: CString, toks: seq<Token>)
    requires LoadSpec(d, filepath, Some(toks)).Loaded?
    ensures var o, b := LoadSpec(d, filepath, Some(toks)), Initial(d, filepath);
      && |InsertedPaths(d, filepath, b, toks)| == |InsertedValues(d, filepath, b, toks)|
      && o.data == StoreAll(d, map[d.strhash(d.confFilepath) := filepath],
                            InsertedPaths(d, filepath, b, toks), InsertedValues(d, filepath, b, toks))
      && o.cache == [filepath] + InsertedValues(d, filepath, b, toks)
  {
    RunData(d, filepath, Initial(d, filepath), toks);
    RunCache(d, filepath, Initial(d, filepath), toks);
  }

  /** After every successful load the reserved key is stored, every block
      path stayed within its buffer, every entry's value is in the cache,
      and the cache is the file path followed by every stored value. The
      reserved entry still holds the file path unless a stored path hashes
      to the same value. */
  lemma ReservedEntryAfterLoad(d: Deps, filepath: CString, toks: seq<Token>)
    requires LoadSpec(d, filepath, Some(toks)).Loaded?
    ensures var o, h := LoadSpec(d, filepath, Some(toks)), d.strhash(d.confFilepath);
      && h in o.data
      && (forall g :: g in o.data ==> o.data[g] in o.cache)
      && o.cache == [filepath] + InsertedValues(d, filepath, Initial(d, filepath), toks)
      && (h !in HashesOf(d, InsertedPaths(d, filepath, Initial(d, filepath), toks))
          ==> o.data[h] == filepath)
  {
    var b := Initial(d, filepath);
    RunKeepsInv(d, filepath, b, toks);
    RunCache(d, filepath, b, toks);
    var h := d.strhash(d.confFilepath);
    if h !in HashesOf(d, InsertedPaths(d, filepath, b, toks)) {
      RunKeepsUntouched(d, filepath, b, toks, h);
    }
  }
}
