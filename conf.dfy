/** The configuration object, the loader that fills it from the scanner's
    tokens (`confload`), its teardown (`confdelete`), and string reads with
    a default (`confreads`). */
module Conf {
  import opened ConfTypes
  import opened PathBuilder

  /** `struct config`: the entries, keyed by path hash (`data`), and the
      string cache holding the copied values (`cache`). */
  class Config {
    var data: map<Hash, string>
    var cache: seq<string>

    constructor ()
      ensures data == map[] && cache == []
    {
      data := map[];
      cache := [];
    }

    /** `scdup` the value into the cache, then `hmputs` the entry: an entry
        already stored under the same hash is replaced. */
    method Put(h: Hash, value: string)
      modifies this
      ensures cache == old(cache) + [value]
      ensures data == old(data)[h := value]
    {
      cache := cache + [value];
      data := data[h := value];
    }
  }

  /** Why `confreads` aborts: no entry and no default. */
  datatype ReadError = UnknownEntry(path: CString)

  /** `strlen` on the block path buffer. */
  method StrLen(buf: array<char>) returns (n: nat)
    requires |CStr(buf[..])| < buf.Length
    ensures n == |CStr(buf[..])|
  {
    n := 0;
    while buf[n] != '\0'
      invariant n <= |CStr(buf[..])|
      decreases buf.Length - n
    {
      assert buf[n] == buf[..][n];
      n := n + 1;
    }
  }

  /** `snprintf(blockpath, 256, "/%.*s", key.len, key.ptr)`. */
  method FormatBlockPath(buf: array<char>, key: CString)
    requires buf.Length == BlockPathSize
    modifies buf
    ensures CStr(buf[..]) == BlockPathFor(key)
    ensures |CStr(buf[..])| < buf.Length
  {
    var s := "/" + key;
    var n := if |s| < buf.Length then |s| else buf.Length - 1;
    var i := 0;
    while i < n
      invariant 0 <= i <= n
      invariant buf[..i] == s[..i]
    {
      buf[i] := s[i];
      i := i + 1;
    }
    buf[n] := '\0';
    assert buf[..][..n] == s[..n] == BlockPathFor(key);
    CStrOfTerminated(buf[..], n);
  }

  /** The block-end loop: walk back from the terminator and overwrite the
      last slash with a NUL. */
  method CutBlockPath(buf: array<char>)
    requires |CStr(buf[..])| < buf.Length
    modifies buf
    ensures CStr(buf[..]) == DropLastSegment(old(CStr(buf[..])))
    ensures |CStr(buf[..])| < buf.Length
  {
    ghost var s := CStr(buf[..]);
    var i := StrLen(buf);
    while i > 0
      invariant 0 <= i <= |s|
      invariant buf[..] == old(buf[..])
      invariant forall k :: i <= k < |s| ==> s[k] != '/'
    {
      i := i - 1;
      assert buf[i] == s[i] by { assert s[i] == buf[..][i]; }
      if buf[i] == '/' {
        buf[i] := '\0';
        assert buf[..][..i] == s[..i];
        CStrOfTerminated(buf[..], i);
        DropLastSegmentAt(s, i);
        return;
      }
    }
    assert '/' !in s;
  }

  /** `confload`. `file` is `None` when the file cannot be opened, else the
      tokens the scanner produces from it. On success the configuration is
      new and holds what `LoadSpec` describes; on a scan failure it has been
      torn down and `null` is returned; `warnings` are those issued. */
  method Load(d: Deps, filepath: CString, file: Option<seq<Token>>)
    returns (conf: Config?, warnings: seq<Warning>)
    ensures file.None? ==> conf == null && warnings == []
    ensures var o := LoadSpec(d, filepath, file);
      && (conf != null <==> o.Loaded?)
      && (conf != null ==> fresh(conf) && conf.data == o.data && conf.cache == o.cache)
      && warnings == if o.OpenFailed? then [] else o.warnings
  {
    warnings := [];
    if file.None? {
      return null, [];
    }
    var toks := file.value;
    conf := new Config();
    conf.Put(d.strhash(d.confFilepath), filepath);

    var mode := ExpectKey;
    var blockpath := new char[BlockPathSize](_ => '\0');
    assert CStr(blockpath[..]) == [] by { CStrOfTerminated(blockpath[..], 0); }
    var key: CString := "";
    assert conf.data == map[d.strhash(d.confFilepath) := filepath];
    assert Builder(mode, key, CStr(blockpath[..]), conf.data, conf.cache, warnings)
           == Initial(d, filepath);
    ghost var goal := Run(d, filepath, Initial(d, filepath), toks);

    var done := false;
    var i := 0;
    while !done
      invariant 0 <= i <= |toks|
      invariant blockpath.Length == BlockPathSize && |CStr(blockpath[..])| < BlockPathSize
      invariant fresh(conf) && fresh(blockpath)
      invariant var b := Builder(mode, key, CStr(blockpath[..]), conf.data, conf.cache, warnings);
        if done then goal == Finished(b) else goal == Run(d, filepath, b, toks[i..])
      decreases |toks| - i
    {
      ghost var b := Builder(mode, key, CStr(blockpath[..]), conf.data, conf.cache, warnings);
      if i == |toks| {
        Delete(conf);
        return null, warnings;
      }
      var t := toks[i];
      assert toks[i..][0] == t && toks[i..][1..] == toks[i + 1..];
      match t {
        case ScanError =>
          Delete(conf);
          return null, warnings;
        case StreamStart =>
        case Key =>
          mode := ExpectKey;
        case Value =>
          mode := ExpectValue;
        case BlockMappingStart =>
          if |key| > 0 {
            FormatBlockPath(blockpath, key);
          }
        case BlockEnd =>
          CutBlockPath(blockpath);
        case Scalar(text) =>
          if mode == ExpectKey {
            key := CStr(text);
          } else {
            var n := StrLen(blockpath);
            assert blockpath[..n] == CStr(blockpath[..]);
            var path := blockpath[..n] + "/" + key;
            conf.Put(d.strhash(path), text);
          }
        case StreamEnd =>
          done := true;
        case Other(line, column) =>
          warnings := warnings + [UnknownToken(filepath, line, column)];
      }
      assert !done ==> Builder(mode, key, CStr(blockpath[..]), conf.data, conf.cache, warnings)
                       == Step(d, filepath, b, t);
      i := i + 1;
    }
  }

  /** `confdelete`: release the entries and the cache; nothing to do for
      `null`. */
  method Delete(conf: Config?)
    modifies conf
    ensures conf != null ==> conf.data == map[] && conf.cache == []
  {
    if conf == null {
      return;
    }
    conf.data := map[];
    conf.cache := [];
  }

  /** `confreads`: the stored value when the path's hash has an entry, even
      if a default is given; otherwise the default; with neither, the
      "unknown configuration entry" abort. */
  function Reads(d: Deps, conf: Config, path: CString, default: Option<CString>): (r: Result<string, ReadError>)
    reads conf
    ensures d.strhash(path) in conf.data ==> r == Ok(conf.data[d.strhash(path)])
    ensures d.strhash(path) !in conf.data && default.Some? ==> r.Ok? && r.value == default.value
    ensures d.strhash(path) !in conf.data && default.None? ==> r == Err(UnknownEntry(path))
    ensures r.Err? <==> d.strhash(path) !in conf.data && default.None?
  {
    var h := d.strhash(path);
    if h in conf.data then Ok(conf.data[h])
    else if default.Some? then Ok(default.value)
    else Err(UnknownEntry(path))
  }

  /** Reading the reserved key, without a default, from a configuration that
      `Load` returned gives back the file path it was loaded from, unless a
      path stored by the file hashes to the reserved key's hash. */
  lemma ReadReservedAfterLoad(d: Deps, conf: Config, filepath: CString, toks: seq<Token>)
    requires LoadSpec(d, filepath, Some(toks)).Loaded?
    requires conf.data == LoadSpec(d, filepath, Some(toks)).data
    requires d.strhash(d.confFilepath)
             !in HashesOf(d, InsertedPaths(d, filepath, Initial(d, filepath), toks))
    ensures Reads(d, conf, d.confFilepath, None).Ok?
    ensures Reads(d, conf, d.confFilepath, None).value == filepath
  {
    ReservedEntryAfterLoad(d, filepath, toks);
  }

  /** The reserved key can always be read without a default after a
      successful load: that read never aborts. */
  lemma ReservedNeverAborts(d: Deps, conf: Config, filepath: CString, toks: seq<Token>)
    requires LoadSpec(d, filepath, Some(toks)).Loaded?
    requires conf.data == LoadSpec(d, filepath, Some(toks)).data
    ensures Reads(d, conf, d.confFilepath, None).Ok?
    ensures Reads(d, conf, d.confFilepath, None).value in LoadSpec(d, filepath, Some(toks)).cache
  {
    ReservedEntryAfterLoad(d, filepath, toks);
  }
}
