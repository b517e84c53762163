/** Preparing an upload and cutting it into chunks (src/core/upload/stream.ts).
    The file system is outside the model: the size `fs.stat` reports and the
    path of the temporary file a readable stream is copied to are inputs, and
    the cleanup is the path it unlinks. Only the buffer branch of
    `iterateChunks` is modelled; the chunks a file read stream yields are an
    input of the upload. */
module UploadStream {
  import opened Base

  /** What `uploadFileStream` reads from: a file path or a buffer. */
  datatype Source = PathSource(path: string) | BufferSource(bytes: seq<byte>)

  /** The argument of `prepareStreamSource`. */
  datatype FileInput =
    | PathInput(path: string, statSize: nat)
    | BufferInput(bytes: seq<byte>)
    | StreamInput(tempPath: string, statSize: nat)

  /** `StreamSource`; `cleanupTemp` is the path the cleanup unlinks, when
      there is one. */
  datatype Prepared = Prepared(source: Source, size: nat, filename: string, cleanupTemp: Option<string>)

  const DefaultUploadName := "upload.bin"

  /** `overrideName || fallback`: an empty override is falsy. */
  function NameOr(overrideName: Option<string>, fallback: string): (r: string)
    ensures overrideName.Some? && overrideName.value != "" ==> r == overrideName.value
    ensures overrideName.None? || overrideName.value == "" ==> r == fallback
  {
    if overrideName.Some? && overrideName.value != "" then overrideName.value else fallback
  }

  /** `p` without its trailing '/' characters. */
  function TrimSlashes(p: string): (r: string)
    ensures |r| <= |p| && r == p[..|r|]
    ensures r == [] || r[|r| - 1] != '/'
    ensures forall i :: |r| <= i < |p| ==> p[i] == '/'
  {
    if p != [] && p[|p| - 1] == '/' then TrimSlashes(p[..|p| - 1]) else p
  }

  /** The characters after the last '/' of `p`. */
  function LastSegment(p: string): (r: string)
    ensures '/' !in r
    ensures |r| <= |p| && r == p[|p| - |r|..]
  {
    if p == [] || p[|p| - 1] == '/' then [] else LastSegment(p[..|p| - 1]) + [p[|p| - 1]]
  }

  /** POSIX `path.basename`: the last non-empty segment ("" for "/" and ""). */
  function Basename(path: string): (r: string)
    ensures '/' !in r
  {
    LastSegment(TrimSlashes(path))
  }

  lemma {:induction false} LastSegmentOfName(dir: string, name: string)
    requires '/' !in name
    ensures LastSegment(dir + "/" + name) == name
    decreases |name|
  {
    var p := dir + "/" + name;
    if name == [] {
      assert p[|p| - 1] == '/';
    } else {
      var init, last := name[..|name| - 1], name[|name| - 1];
      assert last in name;
      assert p[|p| - 1] == last && p[..|p| - 1] == dir + "/" + init;
      assert LastSegment(p) == LastSegment(dir + "/" + init) + [last];
      LastSegmentOfName(dir, init);
      assert init + [last] == name;
    }
  }

  /** The base name of `dir/name` is `name`, so a temporary file
      `tmpdir/<uuid>-upload.tmp` is uploaded as `<uuid>-upload.tmp`. */
  lemma BasenameOfJoin(dir: string, name: string)
    requires name != [] && '/' !in name
    ensures Basename(dir + "/" + name) == name
  {
    var p := dir + "/" + name;
    assert p[|p| - 1] == name[|name| - 1] != '/';
    LastSegmentOfName(dir, name);
  }

  /** A name without '/' is its own last segment. */
  lemma {:induction false} LastSegmentOfPlain(name: string)
    requires forall i :: 0 <= i < |name| ==> name[i] != '/'
    ensures LastSegment(name) == name
    decreases |name|
  {
    if name != [] {
      var init := name[..|name| - 1];
      assert forall i :: 0 <= i < |init| ==> init[i] == name[i];
      LastSegmentOfPlain(init);
      assert init + [name[|name| - 1]] == name;
    }
  }

  /** A name without '/' is its own base name. */
  lemma BasenameOfName(name: string)
    requires '/' !in name
    ensures Basename(name) == name
  {
    if name != [] {
      assert name[|name| - 1] in name;
    }
    assert TrimSlashes(name) == name;
    LastSegmentOfPlain(name);
  }

  /** `prepareStreamSource(file, overrideName)`: a path is read in place, a
      buffer is read from memory as `upload.bin` unless renamed, and a stream,
      copied to a temporary file first, is the only input with a cleanup. */
  function PrepareStreamSource(file: FileInput, overrideName: Option<string>): (r: Prepared)
    ensures r.cleanupTemp.Some? <==> file.StreamInput?
    ensures file.StreamInput? ==> r.cleanupTemp == Some(file.tempPath) && r.source == PathSource(file.tempPath)
    ensures file.PathInput? ==> r.source == PathSource(file.path) && r.size == file.statSize
    ensures file.BufferInput? ==> r.source == BufferSource(file.bytes) && r.size == |file.bytes|
    ensures file.StreamInput? ==> r.size == file.statSize
    ensures r.filename == NameOr(overrideName, match file
      case PathInput(path, _) => Basename(path)
      case BufferInput(_) => DefaultUploadName
      case StreamInput(tempPath, _) => Basename(tempPath))
  {
    match file
    case PathInput(path, size) => Prepared(PathSource(path), size, NameOr(overrideName, Basename(path)), None)
    case BufferInput(bytes) => Prepared(BufferSource(bytes), |bytes|, NameOr(overrideName, DefaultUploadName), None)
    case StreamInput(tempPath, size) => Prepared(PathSource(tempPath), size, NameOr(overrideName, Basename(tempPath)), Some(tempPath))
  }

  /** Without an override, every derived file name is free of '/'. */
  lemma DerivedNamesHaveNoSlash(file: FileInput, overrideName: Option<string>)
    requires overrideName.None? || overrideName.value == ""
    ensures '/' !in PrepareStreamSource(file, overrideName).filename
  {
  }

  /** `buf.slice(start, end)` for `0 <= start <= end`: both ends are clamped
      to the buffer's length. */
  function Slice(s: seq<byte>, start: nat, end: nat): (r: seq<byte>)
    requires start <= end
    ensures |r| == Min(end, |s|) - Min(start, |s|)
  {
    s[Min(start, |s|)..Min(end, |s|)]
  }

  /** `Math.ceil(n / c)` for a whole `n` and a positive whole `c`: the least
      `k` with `k * c >= n`. */
  function CeilDiv(n: nat, c: nat): (k: nat)
    requires c > 0
    ensures k * c >= n
    ensures k > 0 ==> (k - 1) * c < n
  {
    var m := n + c - 1;
    assert m == (m / c) * c + m % c;
    assert (m / c - 1) * c == (m / c) * c - c;
    m / c
  }

  lemma MulLe(a: nat, b: nat, c: nat)
    requires a <= b
    ensures a * c <= b * c
  {
  }

  /** The ceiling is the only number with its two properties. */
  lemma CeilUnique(n: nat, c: nat, k: nat)
    requires c > 0 && k * c >= n && (k > 0 ==> (k - 1) * c < n)
    ensures k == CeilDiv(n, c)
  {
    var j := CeilDiv(n, c);
    if k < j {
      MulLe(k, j - 1, c);
    } else if j < k {
      MulLe(j, k - 1, c);
    }
  }

  /** The chunks the buffer branch of `iterateChunks` yields from `offset` on. */
  function ChunksFrom(source: seq<byte>, offset: nat, size: nat, chunkSize: nat): seq<seq<byte>>
    requires chunkSize > 0
    decreases size - offset
  {
    if offset >= size then []
    else
      var end := Min(offset + chunkSize, size);
      [Slice(source, offset, end)] + ChunksFrom(source, end, size, chunkSize)
  }

  function Flatten(chunks: seq<seq<byte>>): seq<byte> {
    if chunks == [] then [] else chunks[0] + Flatten(chunks[1..])
  }

  /** The chunks from `offset` on, joined, are the rest of the buffer up to
      `size`. */
  lemma {:induction false} ChunksJoin(source: seq<byte>, offset: nat, size: nat, chunkSize: nat)
    requires chunkSize > 0 && offset <= size
    ensures Flatten(ChunksFrom(source, offset, size, chunkSize)) == Slice(source, offset, size)
    decreases size - offset
  {
    if offset < size {
      var end := Min(offset + chunkSize, size);
      var chunks := ChunksFrom(source, offset, size, chunkSize);
      assert chunks[1..] == ChunksFrom(source, end, size, chunkSize);
      ChunksJoin(source, end, size, chunkSize);
      assert Slice(source, offset, end) + Slice(source, end, size) == Slice(source, offset, size);
    }
  }

  /** There are `ceil((size - offset) / chunkSize)` chunks. */
  lemma {:induction false} ChunksCount(source: seq<byte>, offset: nat, size: nat, chunkSize: nat)
    requires chunkSize > 0 && offset <= size
    ensures |ChunksFrom(source, offset, size, chunkSize)| == CeilDiv(size - offset, chunkSize)
    decreases size - offset
  {
    var n := size - offset;
    var k := |ChunksFrom(source, offset, size, chunkSize)|;
    if offset < size {
      var end := Min(offset + chunkSize, size);
      ChunksCount(source, end, size, chunkSize);
      var j := CeilDiv(size - end, chunkSize);
      assert k == j + 1;
      if end == size {
        assert j == 0;
      } else {
        assert (j + 1) * chunkSize == j * chunkSize + chunkSize;
      }
    }
    CeilUnique(n, chunkSize, k);
  }

  /** For a buffer of at least `size` bytes, every chunk but the last holds
      exactly `chunkSize` bytes and the last one between 1 and `chunkSize`. */
  lemma {:induction false} ChunksFull(source: seq<byte>, offset: nat, size: nat, chunkSize: nat)
    requires chunkSize > 0 && offset <= size <= |source|
    ensures var chunks := ChunksFrom(source, offset, size, chunkSize);
      && (forall i :: 0 <= i < |chunks| - 1 ==> |chunks[i]| == chunkSize)
      && (chunks != [] ==> 1 <= |chunks[|chunks| - 1]| <= chunkSize)
    decreases size - offset
  {
    if offset < size {
      var end := Min(offset + chunkSize, size);
      var chunks := ChunksFrom(source, offset, size, chunkSize);
      var rest := ChunksFrom(source, end, size, chunkSize);
      ChunksFull(source, end, size, chunkSize);
      assert chunks == [chunks[0]] + rest;
      if rest != [] {
        assert end == offset + chunkSize;
      }
      forall i | 0 <= i < |chunks| - 1 ensures |chunks[i]| == chunkSize {
        if i > 0 {
          assert chunks[i] == rest[i - 1];
        }
      }
    }
  }

  /** An empty buffer (`size` 0) yields no chunk at all. */
  lemma NoChunksWhenEmpty(source: seq<byte>, chunkSize: nat)
    requires chunkSize > 0
    ensures ChunksFrom(source, 0, 0, chunkSize) == []
  {
  }

  /** The buffer branch of `iterateChunks(source, size, chunkSize)`. The loop
      advances only for a positive `chunkSize`, which callers must supply. */
  method IterateChunks(source: seq<byte>, size: nat, chunkSize: nat) returns (chunks: seq<seq<byte>>)
    requires chunkSize > 0
    ensures chunks == ChunksFrom(source, 0, size, chunkSize)
    ensures Flatten(chunks) == Slice(source, 0, size)
    ensures |chunks| == CeilDiv(size, chunkSize)
  {
    chunks := [];
    var offset: nat := 0;
    while offset < size
      invariant offset <= size
      invariant chunks + ChunksFrom(source, offset, size, chunkSize) == ChunksFrom(source, 0, size, chunkSize)
      decreases size - offset
    {
      var end := Min(offset + chunkSize, size);
      assert ChunksFrom(source, offset, size, chunkSize) == [Slice(source, offset, end)] + ChunksFrom(source, end, size, chunkSize);
      chunks := chunks + [Slice(source, offset, end)];
      offset := end;
    }
    assert chunks + [] == chunks;
    ChunksJoin(source, 0, size, chunkSize);
    ChunksCount(source, 0, size, chunkSize);
  }
}
