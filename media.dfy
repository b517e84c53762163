/** Media hydration (src/api/onebot/media.ts): for each segment of a message
    that names a media file by an id the server resolves, ask for a URL
    (`get_file`, then a type-specific fallback) and write it into the
    segment's `data` as both `url` and `file`.

    The replies are an input of the model: `reply(c)` is the outcome of the
    call `c`. The segments are handled one after another; `Promise.all` runs
    them concurrently, but each one reads and writes only its own `data`, so
    each segment keeps its own list of calls. */
module Media {
  import opened Base
  import opened Json
  import opened Errors

  /** The three lookups `hydrateMedia` uses. */
  datatype MediaCall =
    | GetFile(file: string)
    | GetRecord(file: string, outFormat: string)
    | GetImage(file: string)
  {
    function Action(): string {
      match this
      case GetFile(_) => "get_file"
      case GetRecord(_, _) => "get_record"
      case GetImage(_) => "get_image"
    }

    /** `{ file }`, or `{ file, out_format }` for `get_record`. */
    function Params(): Value {
      match this
      case GetFile(f) => JObj([("file", JStr(f))])
      case GetRecord(f, fmt) => JObj([("file", JStr(f)), ("out_format", JStr(fmt))])
      case GetImage(f) => JObj([("file", JStr(f))])
    }
  }

  const MediaKinds: seq<string> := ["image", "video", "record", "audio", "file"]

  /** `segment?.key` for an element of the message array. */
  function Field(segment: Value, key: string): Option<Value> {
    GetOpt(Some(segment), key)
  }

  /** The segment has a truthy `type` that is one of the media kinds, and a
      truthy `data`. */
  predicate Considered(segment: Value)
    ensures Considered(segment) ==> segment.JObj? && Field(segment, "data").Some? && Field(segment, "type").Some?
  {
    var kind, data := Field(segment, "type"), Field(segment, "data");
    TruthyOpt(kind) && TruthyOpt(data) && kind.value.JStr? && kind.value.s in MediaKinds
  }

  /** `data.file ?? data.file_id` */
  function FileId(data: Value): (r: Option<Value>)
    ensures !Nullish(Get(data, "file")) ==> r == Get(data, "file")
    ensures Nullish(Get(data, "file")) ==> r == Get(data, "file_id")
  {
    Coalesce(Get(data, "file"), Get(data, "file_id"))
  }

  /** The id is a string that is neither an `http://` or `https://` URL nor a
      `file://` path. */
  predicate NeedsLookup(id: Option<Value>) {
    && id.Some? && id.value.JStr?
    && !StartsWith(id.value.s, "http://") && !StartsWith(id.value.s, "https://")
    && !StartsWith(id.value.s, "file://")
  }

  /** `res?.file ?? res?.url` */
  function ReplyUrl(res: Value): Option<Value> {
    Coalesce(GetOpt(Some(res), "file"), GetOpt(Some(res), "url"))
  }

  /** The second lookup for a kind: `get_record` as mp3 for a voice record
      or audio, `get_image` for an image, none for video and file. */
  function Fallback(kind: string, id: string): (r: Option<MediaCall>)
    ensures r.Some? <==> kind in ["record", "audio", "image"]
    ensures kind == "record" || kind == "audio" ==> r == Some(GetRecord(id, "mp3"))
    ensures kind == "image" ==> r == Some(GetImage(id))
  {
    if kind == "record" || kind == "audio" then Some(GetRecord(id, "mp3"))
    else if kind == "image" then Some(GetImage(id))
    else None
  }

  /** The URL a lookup yields when it succeeds with a truthy `file` or `url`. */
  function Found(reply: MediaCall -> Result<Value, Failure>, c: MediaCall): Option<Value> {
    var r := reply(c);
    if r.Ok? && TruthyOpt(ReplyUrl(r.value)) then ReplyUrl(r.value) else None
  }

  /** The lookups for one id, in order, and the URL they settle on: `get_file`
      first; the fallback only when `get_file` replied without a URL; a failed
      call ends the attempt with nothing written. */
  function Lookup(kind: string, id: string, reply: MediaCall -> Result<Value, Failure>): (r: (Option<Value>, seq<MediaCall>))
    ensures r.0.Some? ==> Truthy(r.0.value)
  {
    var first := GetFile(id);
    if reply(first).Err? then (None, [first])
    else if Found(reply, first).Some? then (Found(reply, first), [first])
    else
      match Fallback(kind, id)
      case None => (None, [first])
      case Some(second) => (Found(reply, second), [first, second])
  }

  /** `data.url = u; data.file = u;` */
  function WriteUrl(data: Value, u: Value): (r: Value)
    requires data.JObj?
    ensures r.JObj? && Get(r, "url") == Some(u) && Get(r, "file") == Some(u)
    ensures forall k :: k != "url" && k != "file" ==> Get(r, k) == Get(data, k)
  {
    Set(Set(data, "url", u), "file", u)
  }

  /** One segment of `hydrateMedia`: the segment as it is afterwards, and the
      lookups made for it. */
  function HydrateSegment(segment: Value, reply: MediaCall -> Result<Value, Failure>): (r: (Value, seq<MediaCall>))
    ensures |r.1| <= 2
    ensures r.1 == [] <==> !Considered(segment) || !NeedsLookup(FileId(Field(segment, "data").value))
    ensures r.1 == [] ==> r.0 == segment
    ensures r.0.JObj? <==> segment.JObj?
  {
    if !Considered(segment) then (segment, [])
    else
      var data := Field(segment, "data").value;
      var id := FileId(data);
      if !NeedsLookup(id) then (segment, [])
      else
        var (url, calls) := Lookup(Field(segment, "type").value.s, id.value.s, reply);
        if url.Some? then (Set(segment, "data", WriteUrl(data, url.value)), calls) else (segment, calls)
  }

  /** `hydrateMedia(message)`: a non-array is left alone; otherwise every
      segment is hydrated on its own, `calls[i]` being the lookups made for
      segment `i`. */
  method HydrateMedia(message: Value, reply: MediaCall -> Result<Value, Failure>)
    returns (hydrated: Value, calls: seq<seq<MediaCall>>)
    ensures !message.JArr? ==> hydrated == message && calls == []
    ensures message.JArr? ==> hydrated.JArr? && |hydrated.items| == |message.items| == |calls|
    ensures message.JArr? ==> forall i :: 0 <= i < |calls| ==>
      (hydrated.items[i], calls[i]) == HydrateSegment(message.items[i], reply)
  {
    if !message.JArr? {
      return message, [];
    }
    var done;
    done, calls := HydrateSegments(message.items, reply);
    hydrated := JArr(done);
  }

  /** Every segment hydrated on its own, in order: the segments afterwards and
      the lookups made for each. */
  function HydrateAll(segments: seq<Value>, reply: MediaCall -> Result<Value, Failure>): (r: (seq<Value>, seq<seq<MediaCall>>))
    ensures |r.0| == |r.1| == |segments|
  {
    if segments == [] then ([], [])
    else
      var prefix := HydrateAll(segments[..|segments| - 1], reply);
      var last := HydrateSegment(segments[|segments| - 1], reply);
      (prefix.0 + [last.0], prefix.1 + [last.1])
  }

  /** Segment `i` of the batch is exactly that segment hydrated alone. */
  lemma {:induction false} HydrateAllAt(segments: seq<Value>, reply: MediaCall -> Result<Value, Failure>, i: nat)
    requires i < |segments|
    ensures var r := HydrateAll(segments, reply); (r.0[i], r.1[i]) == HydrateSegment(segments[i], reply)
    decreases |segments|
  {
    if i < |segments| - 1 {
      var init := segments[..|segments| - 1];
      HydrateAllAt(init, reply, i);
      assert init[i] == segments[i];
    }
  }

  /** The loop of `hydrateMedia` over the segments of an array message. */
  method HydrateSegments(segments: seq<Value>, reply: MediaCall -> Result<Value, Failure>)
    returns (done: seq<Value>, calls: seq<seq<MediaCall>>)
    ensures |done| == |segments| == |calls|
    ensures forall i :: 0 <= i < |calls| ==> (done[i], calls[i]) == HydrateSegment(segments[i], reply)
  {
    done, calls := [], [];
    var i := 0;
    while i < |segments|
      invariant 0 <= i <= |segments|
      invariant (done, calls) == HydrateAll(segments[..i], reply)
    {
      assert segments[..i + 1][..i] == segments[..i];
      var r := HydrateSegment(segments[i], reply);
      done, calls := done + [r.0], calls + [r.1];
      i := i + 1;
    }
    assert segments[..i] == segments;
    forall j | 0 <= j < |calls|
      ensures (done[j], calls[j]) == HydrateSegment(segments[j], reply)
    {
      HydrateAllAt(segments, reply, j);
    }
  }

  /** A segment that is not a media segment, or whose id is already a URL or
      missing, is left as it is and costs no lookup. */
  lemma SkippedSegments(segment: Value, reply: MediaCall -> Result<Value, Failure>)
    requires !Considered(segment) || !NeedsLookup(FileId(Field(segment, "data").value))
    ensures HydrateSegment(segment, reply) == (segment, [])
  {
  }

  /** A segment that is looked up asks `get_file` first, and at most one
      more lookup follows. */
  lemma GetFileFirst(segment: Value, reply: MediaCall -> Result<Value, Failure>)
    requires Considered(segment) && NeedsLookup(FileId(Field(segment, "data").value))
    ensures var calls := HydrateSegment(segment, reply).1;
      1 <= |calls| <= 2 && calls[0] == GetFile(FileId(Field(segment, "data").value).value.s)
  {
  }

  /** The order of lookups: `get_file`, then the kind's fallback exactly
      when `get_file` succeeded without a truthy URL. */
  lemma LookupOrder(kind: string, id: string, reply: MediaCall -> Result<Value, Failure>)
    ensures var calls := Lookup(kind, id, reply).1;
      && calls[0] == GetFile(id)
      && (|calls| == 2 <==> reply(GetFile(id)).Ok? && Found(reply, GetFile(id)).None? && Fallback(kind, id).Some?)
      && (|calls| == 2 ==> calls[1] == Fallback(kind, id).value)
      && |calls| <= 2
  {
  }

  /** The URL settled on: the one `get_file` found, else the fallback's, and
      nothing when a call failed or found none. */
  lemma LookupUrl(kind: string, id: string, reply: MediaCall -> Result<Value, Failure>)
    ensures var (url, calls) := Lookup(kind, id, reply);
      && (Found(reply, GetFile(id)).Some? ==> url == Found(reply, GetFile(id)))
      && (reply(GetFile(id)).Err? ==> url == None)
      && (|calls| == 2 ==> url == Found(reply, calls[1]))
      && (|calls| == 1 && Found(reply, GetFile(id)).None? ==> url == None)
  {
  }

  /** A failing lookup is swallowed: the segment is left as it is. */
  lemma ErrorsSwallowed(segment: Value, reply: MediaCall -> Result<Value, Failure>)
    requires Considered(segment) && NeedsLookup(FileId(Field(segment, "data").value))
    requires forall c :: reply(c).Err?
    ensures HydrateSegment(segment, reply) == (segment, [GetFile(FileId(Field(segment, "data").value).value.s)])
  {
  }

  /** Hydration writes nothing but `url` and `file` of the segment's `data`,
      and both get the same truthy URL. */
  lemma OnlyUrlAndFile(segment: Value, reply: MediaCall -> Result<Value, Failure>)
    ensures var after := HydrateSegment(segment, reply).0;
      && (forall k :: k != "data" ==> Field(after, k) == Field(segment, k))
      && (after != segment ==>
            && Considered(segment)
            && var data, data' := Field(segment, "data").value, Field(after, "data").value;
            && (forall k :: k != "url" && k != "file" ==> Get(data', k) == Get(data, k))
            && Get(data', "url") == Get(data', "file")
            && TruthyOpt(Get(data', "url")))
  {
    var after := HydrateSegment(segment, reply).0;
    if after != segment {
      var data := Field(segment, "data").value;
      assert segment.JObj? && data.JObj?;
      assert Field(after, "data") == Some(WriteUrl(data, Lookup(Field(segment, "type").value.s, FileId(data).value.s, reply).0.value));
    }
  }

  /** An id that is already an `http://`, `https://` or `file://` URL is
      never looked up, and neither is one that is not a string. */
  lemma UrlIdsAreKept(id: string, other: Value)
    requires StartsWith(id, "http://") || StartsWith(id, "https://") || StartsWith(id, "file://")
    requires !other.JStr?
    ensures !NeedsLookup(Some(JStr(id))) && !NeedsLookup(Some(other)) && !NeedsLookup(None)
  {
  }
}
