/** The chunked upload calls (src/api/onebot/stream.ts). Every call goes to
    the `upload_file_stream` action through `client.call`; the replies are an
    input of the model, `reply(k)` being the outcome of the `k`-th call, and a
    call that rejects ends the upload with its error. `randomUUID()`, the
    SHA-256 digest and the chunks a file read stream yields are inputs too. */
module StreamApi {
  import opened Base
  import opened Json
  import opened Errors
  import opened Base64
  import opened UploadStream

  const UploadAction := "upload_file_stream"
  /** `256 * 1024` */
  const DefaultChunkSize := 262144

  /** The options of `uploadFileStream`; an absent `options` has every field
      `None`. */
  datatype UploadOptions = UploadOptions(
    chunkSize: Option<int>,
    streamId: Option<string>,
    expectedSha256: Option<string>,
    fileRetention: Option<int>,
    filename: Option<string>,
    reset: Option<bool>,
    verifyOnly: Option<bool>)

  datatype ApiCall = ApiCall(action: string, params: Value)

  /** What a chunk call describes besides the chunk itself. */
  datatype UploadHeader = UploadHeader(
    streamId: string, totalChunks: nat, fileSize: nat, sha256: string, filename: string,
    fileRetention: Option<int>, verifyOnly: bool)

  /** `{ stream_id, reset: true }` */
  function ResetCall(streamId: string): ApiCall {
    ApiCall(UploadAction, JObj([("stream_id", JStr(streamId)), ("reset", JBool(true))]))
  }

  /** `{ stream_id, is_complete: true }` */
  function CompletionCall(streamId: string): ApiCall {
    ApiCall(UploadAction, JObj([("stream_id", JStr(streamId)), ("is_complete", JBool(true))]))
  }

  /** `chunk.toString('base64')` for each chunk. */
  function EncodeAll(chunks: seq<seq<byte>>): (r: seq<string>)
    ensures |r| == |chunks| && forall i :: 0 <= i < |chunks| ==> r[i] == Encode(chunks[i])
  {
    seq(|chunks|, i requires 0 <= i < |chunks| => Encode(chunks[i]))
  }

  /** Each text decodes back to its own chunk, so the receiver can rebuild
      every chunk, in order. */
  lemma EncodeAllDecodes(chunks: seq<seq<byte>>)
    ensures forall i :: 0 <= i < |chunks| ==> Decode(EncodeAll(chunks)[i]) == Some(chunks[i])
  {
    forall i | 0 <= i < |chunks|
      ensures Decode(EncodeAll(chunks)[i]) == Some(chunks[i])
    {
      DecodeEncode(chunks[i]);
    }
  }

  /** The fields every chunk payload has, in the order they are written;
      `data` is the chunk's base64 text. */
  function ChunkFields(h: UploadHeader, data: string, index: nat): seq<(string, Value)> {
    [("stream_id", JStr(h.streamId)), ("chunk_data", JStr(data)), ("chunk_index", JNum(index)),
     ("total_chunks", JNum(h.totalChunks)), ("file_size", JNum(h.fileSize)),
     ("expected_sha256", JStr(h.sha256)), ("filename", JStr(h.filename))]
  }

  /** The payload of chunk `index`: the seven fields, then `file_retention`
      when the option is given and `verify_only: true` when the option is
      true, each assigned as a new property and so appended. */
  function ChunkCall(h: UploadHeader, data: string, index: nat): ApiCall {
    var retention := if h.fileRetention.Some? then [("file_retention", JNum(h.fileRetention.value))] else [];
    var verify := if h.verifyOnly then [("verify_only", JBool(true))] else [];
    ApiCall(UploadAction, JObj(ChunkFields(h, data, index) + (retention + verify)))
  }

  /** One call per encoded chunk, chunk `i` with index `i`. */
  function ChunkCalls(h: UploadHeader, encoded: seq<string>): (r: seq<ApiCall>)
    ensures |r| == |encoded|
  {
    seq(|encoded|, i requires 0 <= i < |encoded| => ChunkCall(h, encoded[i], i))
  }

  /** Every call the upload makes when no call fails, in order. */
  function Plan(h: UploadHeader, reset: bool, chunks: seq<seq<byte>>): seq<ApiCall> {
    (if reset then [ResetCall(h.streamId)] else []) + ChunkCalls(h, EncodeAll(chunks)) + [CompletionCall(h.streamId)]
  }

  /** The chunks the upload sends: the buffer's own chunks, or for a file
      the chunks its read stream yields. */
  function UploadChunks(p: Prepared, chunkSize: nat, fileChunks: seq<seq<byte>>): seq<seq<byte>>
    requires chunkSize > 0
  {
    match p.source
    case BufferSource(bytes) => ChunksFrom(bytes, 0, p.size, chunkSize)
    case PathSource(_) => fileChunks
  }

  predicate ValidChunkSize(options: UploadOptions) {
    options.chunkSize.None? || options.chunkSize.value > 0
  }

  function EffectiveChunkSize(options: UploadOptions): (c: nat)
    requires ValidChunkSize(options)
    ensures c > 0
    ensures options.chunkSize.None? ==> c == DefaultChunkSize
    ensures options.chunkSize.Some? ==> c == options.chunkSize.value
  {
    if options.chunkSize.Some? then options.chunkSize.value else DefaultChunkSize
  }

  /** The header `uploadFileStream` derives from its options and the prepared
      source: `??` supplies the stream id and digest, `Math.ceil` the chunk
      count. */
  function Header(options: UploadOptions, p: Prepared, uuid: string, digest: string): (h: UploadHeader)
    requires ValidChunkSize(options)
    ensures h.totalChunks == CeilDiv(p.size, EffectiveChunkSize(options))
    ensures h.streamId == options.streamId.GetOr(uuid) && h.sha256 == options.expectedSha256.GetOr(digest)
    ensures h.fileSize == p.size && h.filename == p.filename
    ensures h.fileRetention == options.fileRetention && h.verifyOnly == (options.verifyOnly == Some(true))
  {
    UploadHeader(options.streamId.GetOr(uuid), CeilDiv(p.size, EffectiveChunkSize(options)), p.size,
                 options.expectedSha256.GetOr(digest), p.filename, options.fileRetention, options.verifyOnly == Some(true))
  }

  /** Every call `uploadFileStream` makes when none fails. */
  function UploadPlan(file: FileInput, options: UploadOptions, uuid: string, digest: string,
                      fileChunks: seq<seq<byte>>): seq<ApiCall>
    requires ValidChunkSize(options)
  {
    var p := PrepareStreamSource(file, options.filename);
    Plan(Header(options, p, uuid, digest), options.reset == Some(true), UploadChunks(p, EffectiveChunkSize(options), fileChunks))
  }

  /** The calls of the first `n` replies all succeeded. */
  predicate RepliesOk(reply: nat -> Result<Value, Failure>, from: nat, n: nat) {
    forall k :: from <= k < from + n ==> reply(k).Ok?
  }

  /** `uploadFileStream(file, options)`: the source is prepared, the stream
      id, digest and chunk count settled, and the calls made; the temporary
      file is removed only after the completion call succeeds. */
  method UploadFileStream(file: FileInput, options: UploadOptions, uuid: string, digest: string,
                          fileChunks: seq<seq<byte>>, reply: nat -> Result<Value, Failure>)
    returns (result: Result<Value, Failure>, calls: seq<ApiCall>, removed: Option<string>)
    requires ValidChunkSize(options)
    ensures var plan := UploadPlan(file, options, uuid, digest, fileChunks);
      && 1 <= |calls| <= |plan| && calls == plan[..|calls|]
      && RepliesOk(reply, 0, |calls| - 1)
      && result == reply(|calls| - 1)
      && (|calls| < |plan| ==> result.Err?)
    ensures var p := PrepareStreamSource(file, options.filename);
      && (removed.Some? <==> result.Ok? && p.cleanupTemp.Some?)
      && (removed.Some? ==> removed == p.cleanupTemp)
  {
    var chunkSize := EffectiveChunkSize(options);
    var p := PrepareStreamSource(file, options.filename);
    var h := Header(options, p, uuid, digest);
    var chunks: seq<seq<byte>>;
    if p.source.BufferSource? {
      chunks := IterateChunks(p.source.bytes, p.size, chunkSize);
    } else {
      chunks := fileChunks;
    }
    assert chunks == UploadChunks(p, chunkSize, fileChunks);
    result, calls := SendAll(h, options.reset == Some(true), chunks, reply);
    removed := if result.Ok? then p.cleanupTemp else None;
  }

  /** The calls of an upload, made one at a time, each awaited before the
      next: an optional reset, one call per chunk, then the completion call,
      whose reply is the result. The first call that fails ends the upload
      with its error. */
  method SendAll(h: UploadHeader, reset: bool, chunks: seq<seq<byte>>, reply: nat -> Result<Value, Failure>)
    returns (result: Result<Value, Failure>, calls: seq<ApiCall>)
    ensures var plan := Plan(h, reset, chunks);
      && 1 <= |calls| <= |plan| && calls == plan[..|calls|]
      && RepliesOk(reply, 0, |calls| - 1)
      && result == reply(|calls| - 1)
      && (|calls| < |plan| ==> result.Err?)
  {
    var prefix := if reset then [ResetCall(h.streamId)] else [];
    ghost var plan := Plan(h, reset, chunks);
    if reset {
      result := reply(0);
      if result.Err? {
        calls := prefix;
        assert calls == plan[..1];
        return;
      }
    }
    assert RepliesOk(reply, 0, |prefix|);
    var sent, failure := SendChunks(h, chunks, reply, |prefix|);
    calls := prefix + sent;
    if failure.Some? {
      result := Err(failure.value);
      PlanPrefix(prefix, ChunkCalls(h, EncodeAll(chunks)), [CompletionCall(h.streamId)], |sent|);
      RepliesOkJoin(reply, 0, |prefix|, |sent| - 1);
      return;
    }
    RepliesOkJoin(reply, 0, |prefix|, |sent|);
    calls := calls + [CompletionCall(h.streamId)];
    assert calls == plan;
    result := reply(|calls| - 1);
  }

  lemma RepliesOkJoin(reply: nat -> Result<Value, Failure>, from: nat, n: nat, m: nat)
    requires RepliesOk(reply, from, n) && RepliesOk(reply, from + n, m)
    ensures RepliesOk(reply, from, n + m)
  {
  }

  lemma PlanPrefix(a: seq<ApiCall>, b: seq<ApiCall>, c: seq<ApiCall>, n: nat)
    requires n <= |b|
    ensures (a + b + c)[..|a| + n] == a + b[..n]
  {
  }

  /** The `for await` loop over the chunks: chunk `i` goes out as call
      `base + i`, and the first failing call ends the loop with its error. */
  method SendChunks(h: UploadHeader, chunks: seq<seq<byte>>, reply: nat -> Result<Value, Failure>, base: nat)
    returns (calls: seq<ApiCall>, failure: Option<Failure>)
    ensures |calls| <= |chunks| && calls == ChunkCalls(h, EncodeAll(chunks))[..|calls|]
    ensures failure.None? ==> |calls| == |chunks| && RepliesOk(reply, base, |calls|)
    ensures failure.Some? ==> 1 <= |calls| && RepliesOk(reply, base, |calls| - 1)
                              && reply(base + |calls| - 1) == Err(failure.value)
  {
    ghost var all := ChunkCalls(h, EncodeAll(chunks));
    calls := [];
    failure := None;
    var i := 0;
    while i < |chunks|
      invariant 0 <= i <= |chunks| && calls == all[..i]
      invariant RepliesOk(reply, base, i)
    {
      var data := Encode(chunks[i]);
      calls := calls + [ChunkCall(h, data, i)];
      assert all[..i + 1] == all[..i] + [all[i]];
      var r := reply(base + i);
      if r.Err? {
        failure := Some(r.error);
        return;
      }
      i := i + 1;
    }
  }

  /** The plan: the reset call first exactly when the option is set, chunk
      `i` with index `i` next, the completion call last. */
  lemma PlanShape(h: UploadHeader, reset: bool, chunks: seq<seq<byte>>)
    ensures var plan, off := Plan(h, reset, chunks), if reset then 1 else 0;
      && |plan| == off + |chunks| + 1
      && (reset ==> plan[0] == ResetCall(h.streamId))
      && (forall i :: 0 <= i < |chunks| ==> plan[off + i] == ChunkCall(h, Encode(chunks[i]), i))
      && plan[|plan| - 1] == CompletionCall(h.streamId)
  {
    var first := if reset then [ResetCall(h.streamId)] else [];
    var sent := ChunkCalls(h, EncodeAll(chunks));
    var plan := Plan(h, reset, chunks);
    assert plan == first + sent + [CompletionCall(h.streamId)];
    forall i | 0 <= i < |chunks|
      ensures plan[|first| + i] == ChunkCall(h, Encode(chunks[i]), i)
    {
      assert plan[|first| + i] == sent[i];
    }
  }

  /** The seven field names of a chunk payload are distinct, and neither
      optional name is among them. */
  lemma ChunkFieldsDistinct(h: UploadHeader, data: string, index: nat)
    ensures var fields := ChunkFields(h, data, index);
      && (forall i, j :: 0 <= j < i < |fields| ==> fields[j].0 != fields[i].0)
      && (forall j :: 0 <= j < |fields| ==> fields[j].0 != "file_retention" && fields[j].0 != "verify_only")
  {
  }

  /** The seven fields every chunk payload starts with read back. */
  lemma ChunkFieldsRead(h: UploadHeader, data: string, index: nat)
    ensures var v := JObj(ChunkFields(h, data, index));
      && Get(v, "stream_id") == Some(JStr(h.streamId))
      && Get(v, "chunk_data") == Some(JStr(data))
      && Get(v, "chunk_index") == Some(JNum(index))
      && Get(v, "total_chunks") == Some(JNum(h.totalChunks))
      && Get(v, "file_size") == Some(JNum(h.fileSize))
      && Get(v, "expected_sha256") == Some(JStr(h.sha256))
      && Get(v, "filename") == Some(JStr(h.filename))
      && Get(v, "file_retention") == None && Get(v, "verify_only") == None
  {
    var fields := ChunkFields(h, data, index);
    ChunkFieldsDistinct(h, data, index);
    GetField(fields, 0);
    GetField(fields, 1);
    GetField(fields, 2);
    GetField(fields, 3);
    GetField(fields, 4);
    GetField(fields, 5);
    GetField(fields, 6);
    GetAbsent(fields, "file_retention");
    GetAbsent(fields, "verify_only");
  }

  /** What a chunk payload carries: the stream id, the chunk's text and
      index, the header's totals and name; `file_retention` exactly when the
      option is given and `verify_only` exactly when it is true. */
  lemma ChunkPayload(h: UploadHeader, data: string, index: nat)
    ensures var v := ChunkCall(h, data, index).params;
      && v.JObj?
      && Get(v, "stream_id") == Some(JStr(h.streamId))
      && Get(v, "chunk_data") == Some(JStr(data))
      && Get(v, "chunk_index") == Some(JNum(index))
      && Get(v, "total_chunks") == Some(JNum(h.totalChunks))
      && Get(v, "file_size") == Some(JNum(h.fileSize))
      && Get(v, "expected_sha256") == Some(JStr(h.sha256))
      && Get(v, "filename") == Some(JStr(h.filename))
      && Get(v, "file_retention") == (if h.fileRetention.Some? then Some(JNum(h.fileRetention.value)) else None)
      && Get(v, "verify_only") == (if h.verifyOnly then Some(JBool(true)) else None)
  {
    var base := ChunkFields(h, data, index);
    var retention := if h.fileRetention.Some? then [("file_retention", JNum(h.fileRetention.value))] else [];
    var verify := if h.verifyOnly then [("verify_only", JBool(true))] else [];
    var opt := retention + verify;
    assert ChunkCall(h, data, index).params == JObj(base + opt);
    ChunkFieldsRead(h, data, index);
    OptionalFieldsRead(h);
    GetAppend(base, opt, "stream_id");
    GetAppend(base, opt, "chunk_data");
    GetAppend(base, opt, "chunk_index");
    GetAppend(base, opt, "total_chunks");
    GetAppend(base, opt, "file_size");
    GetAppend(base, opt, "expected_sha256");
    GetAppend(base, opt, "filename");
    GetAppend(base, opt, "file_retention");
    GetAppend(base, opt, "verify_only");
  }

  /** The optional fields of a chunk payload read back. */
  lemma OptionalFieldsRead(h: UploadHeader)
    ensures var retention := if h.fileRetention.Some? then [("file_retention", JNum(h.fileRetention.value))] else [];
      var verify := if h.verifyOnly then [("verify_only", JBool(true))] else [];
      && Get(JObj(retention + verify), "file_retention") == (if h.fileRetention.Some? then Some(JNum(h.fileRetention.value)) else None)
      && Get(JObj(retention + verify), "verify_only") == (if h.verifyOnly then Some(JBool(true)) else None)
  {
    var retention := if h.fileRetention.Some? then [("file_retention", JNum(h.fileRetention.value))] else [];
    var verify := if h.verifyOnly then [("verify_only", JBool(true))] else [];
    GetAppend(retention, verify, "file_retention");
    GetAppend(retention, verify, "verify_only");
  }

  /** A chunk call is neither the reset nor the completion call: it has at
      least seven fields, they have two. */
  lemma ChunkCallsAreNotControl(h: UploadHeader, data: string, index: nat)
    ensures ChunkCall(h, data, index) != ResetCall(h.streamId)
    ensures ChunkCall(h, data, index) != CompletionCall(h.streamId)
  {
    assert |ChunkCall(h, data, index).params.fields| >= 7;
  }

  /** A buffer's upload carries the buffer: decoding the `chunk_data` of the
      chunk calls in order and joining the bytes gives the buffer back. */
  lemma UploadCarriesBuffer(bytes: seq<byte>, options: UploadOptions, uuid: string, digest: string,
                            fileChunks: seq<seq<byte>>)
    requires ValidChunkSize(options)
    ensures var p := PrepareStreamSource(BufferInput(bytes), options.filename);
      var chunks := UploadChunks(p, EffectiveChunkSize(options), fileChunks);
      && Flatten(chunks) == bytes
      && |chunks| == Header(options, p, uuid, digest).totalChunks
      && forall i :: 0 <= i < |chunks| ==> Decode(EncodeAll(chunks)[i]) == Some(chunks[i])
  {
    var c := EffectiveChunkSize(options);
    var p := PrepareStreamSource(BufferInput(bytes), options.filename);
    assert p.source == BufferSource(bytes) && p.size == |bytes|;
    var chunks := ChunksFrom(bytes, 0, |bytes|, c);
    assert UploadChunks(p, c, fileChunks) == chunks;
    ChunksJoin(bytes, 0, |bytes|, c);
    assert Slice(bytes, 0, |bytes|) == bytes;
    ChunksCount(bytes, 0, |bytes|, c);
    var encoded := EncodeAll(chunks);
    forall i | 0 <= i < |chunks|
      ensures Decode(encoded[i]) == Some(chunks[i])
    {
      DecodeEncode(chunks[i]);
    }
  }

  /** Eleven bytes in chunks of four: 4, 4 and 3 bytes. */
  lemma ElevenBytesChunks(bytes: seq<byte>)
    requires |bytes| == 11
    ensures ChunksFrom(bytes, 0, 11, 4) == [bytes[..4], bytes[4..8], bytes[8..]]
  {
    assert ChunksFrom(bytes, 8, 11, 4) == [Slice(bytes, 8, 11)] + ChunksFrom(bytes, 11, 11, 4);
    assert ChunksFrom(bytes, 4, 11, 4) == [Slice(bytes, 4, 8)] + ChunksFrom(bytes, 8, 11, 4);
    assert ChunksFrom(bytes, 0, 11, 4) == [Slice(bytes, 0, 4)] + ChunksFrom(bytes, 4, 11, 4);
    assert Slice(bytes, 0, 4) == bytes[..4] && Slice(bytes, 4, 8) == bytes[4..8] && Slice(bytes, 8, 11) == bytes[8..];
  }

  /** The options of the eleven-byte upload: chunks of four, a stream id, a
      retention, a file name, `reset` and `verifyOnly`. */
  const ElevenBytesOptions := UploadOptions(Some(4), Some("sid"), None, Some(1000), Some("x.bin"), Some(true), Some(true))

  /** The eleven-byte upload announces three chunks of an 11-byte file. */
  lemma ElevenBytesHeader(bytes: seq<byte>, uuid: string, digest: string)
    requires |bytes| == 11
    ensures UploadPlan(BufferInput(bytes), ElevenBytesOptions, uuid, digest, [])
         == Plan(UploadHeader("sid", 3, 11, digest, "x.bin", Some(1000), true), true, ChunksFrom(bytes, 0, 11, 4))
  {
    var p := PrepareStreamSource(BufferInput(bytes), Some("x.bin"));
    assert p.size == 11 && p.filename == "x.bin";
    CeilUnique(11, 4, 3);
  }

  /** An 11-byte buffer with chunk size 4 and `reset` takes five calls: the
      reset, three chunks, each announcing three chunks and carrying the
      optional fields, and the completion. */
  lemma ElevenBytesExample(bytes: seq<byte>, uuid: string, digest: string)
    requires |bytes| == 11
    ensures var plan := UploadPlan(BufferInput(bytes), ElevenBytesOptions, uuid, digest, []);
      && |plan| == 5
      && plan[0] == ResetCall("sid")
      && var first := plan[1].params;
      && Get(first, "stream_id") == Some(JStr("sid")) && Get(first, "total_chunks") == Some(JNum(3))
      && Get(first, "chunk_index") == Some(JNum(0)) && Get(first, "file_size") == Some(JNum(11))
      && Get(first, "filename") == Some(JStr("x.bin")) && Get(first, "file_retention") == Some(JNum(1000))
      && Get(first, "verify_only") == Some(JBool(true))
      && Get(plan[3].params, "chunk_data") == Some(JStr(Encode(bytes[8..])))
      && plan[4] == CompletionCall("sid")
  {
    var h := UploadHeader("sid", 3, 11, digest, "x.bin", Some(1000), true);
    var chunks := ChunksFrom(bytes, 0, 11, 4);
    ElevenBytesHeader(bytes, uuid, digest);
    ElevenBytesChunks(bytes);
    PlanShape(h, true, chunks);
    ChunkPayload(h, Encode(chunks[0]), 0);
    ChunkPayload(h, Encode(chunks[2]), 2);
  }

  /** `getUploadStreamStatus(streamId)`: a bare `{ stream_id }` payload, so
      neither `verify_only` nor any chunk field is sent. */
  function StatusCall(streamId: string): (c: ApiCall)
    ensures c.action == UploadAction && Get(c.params, "stream_id") == Some(JStr(streamId))
    ensures Keys(c.params) == ["stream_id"] && Get(c.params, "verify_only") == None
  {
    ApiCall(UploadAction, JObj([("stream_id", JStr(streamId))]))
  }
}
