/**
 The HIP report a session record carries: an edited report uploaded in chunks,
 and a generated preview read in chunks. Text is a `string`; every length and
 offset is in bytes of its UTF-8 encoding.
 */
module Hip {
  import opened Basics
  import opened Utf8

  const MAX_EDITED_REPORT_BYTES: nat := 48 * 1024
  const MAX_UPLOAD_CHUNK_BYTES: nat := 8 * 1024
  const HIP_PREVIEW_CHUNK_BYTES: nat := 16 * 1024

  datatype Document = Document(id: nat, text: string)
  datatype Hip = Hip(upload: Option<Document>, report: Option<Document>, preview: Option<Document>)

  const EMPTY := Hip(None, None, None)

  datatype Outcome = Progress(upload: nat) | Stored(report: nat) | Unauthorized | InvalidUpload

  /** One `append_edited_hip_report_chunk` request; the last two are the ids drawn while it is served. */
  datatype Call = Call(
    active: bool, upload: Option<nat>, offset: nat, chunk: string, complete: bool, newUpload: nat, newReport: nat)

  /** `valid` is the report validator. */
  function Append(h: Hip, c: Call, valid: string -> bool): (Hip, Outcome) {
    if !c.active then (h, Unauthorized)
    else if c.upload.None? && c.offset != 0 then (h, InvalidUpload)
    else
      var h := if c.upload.None? then h.(upload := Some(Document(c.newUpload, ""))) else h;
      if h.upload.None? then (h, InvalidUpload)
      else
        var current := h.upload.value;
        if (c.upload.Some? && c.upload.value != current.id) || c.offset != Len(current.text) ||
              Len(c.chunk) > MAX_UPLOAD_CHUNK_BYTES
        then (h, InvalidUpload)
        else if Len(current.text) + Len(c.chunk) > MAX_EDITED_REPORT_BYTES then (h.(upload := None), InvalidUpload)
        else
          var text := current.text + c.chunk;
          if !c.complete then (h.(upload := Some(Document(current.id, text))), Progress(current.id))
          else if !valid(text) then (h.(upload := None), InvalidUpload)
          else (h.(upload := None, report := Some(Document(c.newReport, text))), Stored(c.newReport))
  }

  // --- the upload is the concatenation of what was accepted ---

  datatype Entry = Entry(call: Call, outcome: Outcome)

  predicate Accepted(e: Entry) { e.outcome.Progress? || e.outcome.Stored? }

  /** An id-less chunk at offset 0 starts an upload, whatever becomes of the chunk itself. */
  predicate Opens(e: Entry) { e.call.active && e.call.upload.None? && e.call.offset == 0 }

  function Grown(before: string, e: Entry): string {
    var before := if Opens(e) then "" else before;
    if Accepted(e) then before + e.call.chunk else before
  }

  /** The chunks accepted from the latest opening request on, joined in order. */
  function Received(log: seq<Entry>): string {
    if log == [] then "" else Grown(Received(log[..|log| - 1]), log[|log| - 1])
  }

  /** The upload id drawn by the latest opening request. */
  function OpenedId(log: seq<Entry>): Option<nat> {
    if log == [] then None else
      var e := log[|log| - 1];
      if Opens(e) then Some(e.call.newUpload) else OpenedId(log[..|log| - 1])
  }

  /** The state after a sequence of requests, with every answer given. */
  function Serve(calls: seq<Call>, valid: string -> bool): (Hip, seq<Entry>)
    decreases |calls|
  {
    if calls == [] then (EMPTY, []) else
      var (h, log) := Serve(calls[..|calls| - 1], valid);
      var c := calls[|calls| - 1];
      var (after, outcome) := Append(h, c, valid);
      (after, log + [Entry(c, outcome)])
  }

  predicate Holds(upload: Option<Document>, received: string, latest: Option<nat>) {
    upload.Some? ==>
      && upload.value.text == received
      && Len(received) <= MAX_EDITED_REPORT_BYTES
      && latest == Some(upload.value.id)
  }

  lemma LogGrows(log: seq<Entry>, e: Entry)
    ensures Received(log + [e]) == Grown(Received(log), e)
    ensures OpenedId(log + [e]) == if Opens(e) then Some(e.call.newUpload) else OpenedId(log)
  {
    assert (log + [e])[..|log|] == log;
  }

  lemma AppendHolds(h: Hip, received: string, latest: Option<nat>, c: Call, valid: string -> bool)
    requires Holds(h.upload, received, latest)
    ensures var (after, outcome) := Append(h, c, valid);
            var e := Entry(c, outcome);
            Holds(after.upload, Grown(received, e), if Opens(e) then Some(c.newUpload) else latest)
  {
    EncodeAppend(if c.upload.None? then "" else received, c.chunk);
  }

  lemma AcceptedInOrder(h: Hip, received: string, latest: Option<nat>, c: Call, valid: string -> bool)
    requires Holds(h.upload, received, latest)
    ensures var e := Entry(c, Append(h, c, valid).1);
            Accepted(e) ==>
              && c.active && c.offset == Len(if Opens(e) then "" else received)
              && Len(c.chunk) <= MAX_UPLOAD_CHUNK_BYTES
              && (c.upload.Some? ==> c.upload == latest)
  {
  }

  lemma AppendStores(h: Hip, received: string, latest: Option<nat>, c: Call, valid: string -> bool)
    requires Holds(h.upload, received, latest)
    ensures var (after, outcome) := Append(h, c, valid);
            var text := Grown(received, Entry(c, outcome));
            if outcome.Stored?
            then after.report == Some(Document(outcome.report, text)) && valid(text) &&
                  Len(text) <= MAX_EDITED_REPORT_BYTES
            else after.report == h.report
  {
    EncodeAppend(if c.upload.None? then "" else received, c.chunk);
  }

  /** In every run the upload buffer is the concatenation of the chunks accepted since it was latest. */
  lemma {:induction false} UploadIsConcatenation(calls: seq<Call>, valid: string -> bool)
    ensures var (h, log) := Serve(calls, valid); Holds(h.upload, Received(log), OpenedId(log))
    decreases |calls|
  {
    if calls != [] {
      var before := calls[..|calls| - 1];
      UploadIsConcatenation(before, valid);
      var (h, log) := Serve(before, valid);
      var c := calls[|calls| - 1];
      AppendHolds(h, Received(log), OpenedId(log), c, valid);
      LogGrows(log, Entry(c, Append(h, c, valid).1));
    }
  }

  /** In every run, each accepted chunk continued the upload it named exactly where that upload ended. */
  lemma {:induction false} ChunksAreInOrder(calls: seq<Call>, valid: string -> bool, k: nat)
    requires k < |Serve(calls, valid).1| && Accepted(Serve(calls, valid).1[k])
    ensures var log := Serve(calls, valid).1;
            var c := log[k].call;
            && c.active && Len(c.chunk) <= MAX_UPLOAD_CHUNK_BYTES
            && c.offset == Len(if Opens(log[k]) then "" else Received(log[..k]))
            && (c.upload.Some? ==> c.upload == OpenedId(log[..k]))
    decreases |calls|
  {
    var before := calls[..|calls| - 1];
    var (h, log) := Serve(before, valid);
    assert Serve(calls, valid).1[..|log|] == log;
    if k < |log| {
      ChunksAreInOrder(before, valid, k);
      assert Serve(calls, valid).1[..k] == log[..k];
    } else {
      UploadIsConcatenation(before, valid);
      AcceptedInOrder(h, Received(log), OpenedId(log), calls[|calls| - 1], valid);
    }
  }

  lemma ProgressNamesUpload(h: Hip, received: string, latest: Option<nat>, c: Call, valid: string -> bool)
    requires Holds(h.upload, received, latest)
    ensures var (after, outcome) := Append(h, c, valid);
            outcome.Progress? ==>
              && (if Opens(Entry(c, outcome)) then Some(c.newUpload) else latest) == Some(outcome.upload)
              && after.upload.Some? && after.upload.value.id == outcome.upload
  {
  }

  /** In every run, a progress answer names the upload that is open: the id the opening request drew. */
  lemma {:induction false} ProgressIsTheOpenUpload(calls: seq<Call>, valid: string -> bool, k: nat)
    requires k < |Serve(calls, valid).1| && Serve(calls, valid).1[k].outcome.Progress?
    ensures var log := Serve(calls, valid).1; OpenedId(log[..k + 1]) == Some(log[k].outcome.upload)
    decreases |calls|
  {
    var before := calls[..|calls| - 1];
    var (h, log) := Serve(before, valid);
    var full := Serve(calls, valid).1;
    assert full[..|log|] == log;
    if k < |log| {
      ProgressIsTheOpenUpload(before, valid, k);
      assert full[..k + 1] == log[..k + 1];
    } else {
      UploadIsConcatenation(before, valid);
      ProgressNamesUpload(h, Received(log), OpenedId(log), calls[|calls| - 1], valid);
      LogGrows(log, full[k]);
      assert full[..k + 1] == log + [full[k]];
    }
  }

  // --- every answer, from the log alone ---

  /** What the upload a chunk belongs to holds before it. */
  function Before(log: seq<Entry>, c: Call): string { if c.upload.None? then "" else Received(log) }

  /** The chunk opens an upload or continues the one that is open, where that one ends, and is not too big. */
  predicate Continues(log: seq<Entry>, c: Call)
    decreases |log|, 1
  {
    && c.active
    && (c.upload.Some? ==> c.upload == OpenUpload(log))
    && c.offset == Len(Before(log, c))
    && Len(c.chunk) <= MAX_UPLOAD_CHUNK_BYTES
  }

  predicate Fits(log: seq<Entry>, c: Call) { Len(Before(log, c)) + Len(c.chunk) <= MAX_EDITED_REPORT_BYTES }

  /** The upload left open: the one last opened, until a chunk that continues it completes it or is too much. */
  function OpenUpload(log: seq<Entry>): Option<nat>
    decreases |log|, 0
  {
    if log == [] then None
    else
      var front, e := log[..|log| - 1], log[|log| - 1];
      if Continues(front, e.call) && (e.call.complete || !Fits(front, e.call)) then None
      else if Opens(e) then Some(e.call.newUpload)
      else OpenUpload(front)
  }

  lemma OpenGrows(log: seq<Entry>, e: Entry)
    ensures OpenUpload(log + [e]) ==
            if Continues(log, e.call) && (e.call.complete || !Fits(log, e.call)) then None
            else if Opens(e) then Some(e.call.newUpload)
            else OpenUpload(log)
  {
    assert (log + [e])[..|log|] == log;
  }

  function IdOf(upload: Option<Document>): Option<nat> { if upload.Some? then Some(upload.value.id) else None }

  lemma AppendAnswers(h: Hip, log: seq<Entry>, c: Call, valid: string -> bool)
    requires Holds(h.upload, Received(log), OpenedId(log)) && IdOf(h.upload) == OpenUpload(log)
    ensures var outcome := Append(h, c, valid).1;
            && (outcome.Unauthorized? <==> !c.active)
            && (outcome.Progress? <==> Continues(log, c) && Fits(log, c) && !c.complete)
            && (outcome.Stored? <==>
                  Continues(log, c) && Fits(log, c) && c.complete && valid(Before(log, c) + c.chunk))
    ensures IdOf(Append(h, c, valid).0.upload) == OpenUpload(log + [Entry(c, Append(h, c, valid).1)])
  {
    OpenGrows(log, Entry(c, Append(h, c, valid).1));
  }

  /** In every run the upload the record holds is the one the log leaves open. */
  lemma {:induction false} UploadIsTheOpenOne(calls: seq<Call>, valid: string -> bool)
    ensures var (h, log) := Serve(calls, valid); IdOf(h.upload) == OpenUpload(log)
    decreases |calls|
  {
    if calls != [] {
      var before := calls[..|calls| - 1];
      UploadIsTheOpenOne(before, valid);
      UploadIsConcatenation(before, valid);
      var (h, log) := Serve(before, valid);
      AppendAnswers(h, log, calls[|calls| - 1], valid);
    }
  }

  /**
   After every run, a chunk is accepted exactly when it continues the open upload and
   fits; it is stored exactly when it also completes a valid report; and only an
   inactive session is unauthorized. Everything else is an invalid upload.
   */
  lemma AnswersExactly(calls: seq<Call>, c: Call, valid: string -> bool)
    ensures var (h, log) := Serve(calls, valid);
            var outcome := Append(h, c, valid).1;
            && (outcome.Unauthorized? <==> !c.active)
            && (outcome.Progress? <==> Continues(log, c) && Fits(log, c) && !c.complete)
            && (outcome.Stored? <==>
                  Continues(log, c) && Fits(log, c) && c.complete && valid(Before(log, c) + c.chunk))
  {
    UploadIsTheOpenOne(calls, valid);
    UploadIsConcatenation(calls, valid);
    AppendAnswers(Serve(calls, valid).0, Serve(calls, valid).1, c, valid);
  }

  // --- the client's loop ---

  function Join(chunks: seq<string>): string { if chunks == [] then "" else chunks[0] + Join(chunks[1..]) }

  /**
   A client sends its chunks in order: the first without an id, the others under the
   id last answered, each at the offset sent so far, the last one marked complete. It
   gives up at the first refusal. `draws` are the ids the service draws meanwhile.
   */
  function Upload(h: Hip, chunks: seq<string>, sent: string, id: Option<nat>, draws: nat -> (nat, nat),
                  valid: string -> bool): (Hip, Outcome)
    requires chunks != []
    decreases |chunks|
  {
    var (newUpload, newReport) := draws(|chunks|);
    var last := |chunks| == 1;
    var (after, outcome) := Append(h, Call(true, id, Len(sent), chunks[0], last, newUpload, newReport), valid);
    if last || !outcome.Progress? then (after, outcome)
    else Upload(after, chunks[1..], sent + chunks[0], Some(outcome.upload), draws, valid)
  }

  lemma JoinLen(chunks: seq<string>)
    requires chunks != []
    ensures Len(Join(chunks)) == Len(chunks[0]) + Len(Join(chunks[1..]))
  {
    EncodeAppend(chunks[0], Join(chunks[1..]));
  }

  /** Where the client stands: nothing sent yet, or everything sent so far is in the upload it names. */
  predicate Sending(h: Hip, sent: string, id: Option<nat>) {
    if id.None? then sent == "" else h.upload == Some(Document(id.value, sent))
  }

  lemma OneChunk(h: Hip, sent: string, id: Option<nat>, chunk: string, last: bool, newUpload: nat, newReport: nat,
                 valid: string -> bool)
    requires Sending(h, sent, id) && Len(chunk) <= MAX_UPLOAD_CHUNK_BYTES
    requires Len(sent) + Len(chunk) <= MAX_EDITED_REPORT_BYTES
    requires last ==> valid(sent + chunk)
    ensures var (after, outcome) := Append(h, Call(true, id, Len(sent), chunk, last, newUpload, newReport), valid);
            if last then outcome == Stored(newReport) && after.report == Some(Document(newReport, sent + chunk))
            else outcome.Progress? && Sending(after, sent + chunk, Some(outcome.upload))
  {
    assert Len("") == 0 && "" + chunk == chunk;
  }

  /** Any valid text within the limit, split into chunks within theirs, ends up stored as the session's report. */
  lemma {:induction false} UploadSucceeds(h: Hip, chunks: seq<string>, sent: string, id: Option<nat>,
                                          draws: nat -> (nat, nat), valid: string -> bool)
    requires chunks != [] && Sending(h, sent, id)
    requires forall i :: 0 <= i < |chunks| ==> Len(chunks[i]) <= MAX_UPLOAD_CHUNK_BYTES
    requires Len(sent) + Len(Join(chunks)) <= MAX_EDITED_REPORT_BYTES && valid(sent + Join(chunks))
    ensures var (after, outcome) := Upload(h, chunks, sent, id, draws, valid);
            outcome.Stored? && after.report == Some(Document(outcome.report, sent + Join(chunks)))
    decreases |chunks|
  {
    var (newUpload, newReport) := draws(|chunks|);
    var last := |chunks| == 1;
    JoinLen(chunks);
    Associative(sent, chunks[0], Join(chunks[1..]));
    if last {
      assert chunks[1..] == [] && Join([]) == "" && sent + chunks[0] + "" == sent + chunks[0];
    }
    OneChunk(h, sent, id, chunks[0], last, newUpload, newReport, valid);
    if !last {
      var (after, outcome) := Append(h, Call(true, id, Len(sent), chunks[0], last, newUpload, newReport), valid);
      EncodeAppend(sent, chunks[0]);
      UploadSucceeds(after, chunks[1..], sent + chunks[0], Some(outcome.upload), draws, valid);
    }
  }

  /** From any record, whatever was uploaded before. */
  lemma WholeUploadSucceeds(h: Hip, chunks: seq<string>, draws: nat -> (nat, nat), valid: string -> bool)
    requires chunks != [] && Len(Join(chunks)) <= MAX_EDITED_REPORT_BYTES && valid(Join(chunks))
    requires forall i :: 0 <= i < |chunks| ==> Len(chunks[i]) <= MAX_UPLOAD_CHUNK_BYTES
    ensures var (after, outcome) := Upload(h, chunks, "", None, draws, valid);
            outcome.Stored? && after.report == Some(Document(outcome.report, Join(chunks)))
  {
    assert Len("") == 0 && "" + Join(chunks) == Join(chunks);
    UploadSucceeds(h, chunks, "", None, draws, valid);
  }

  /** The log of the latest request that stored a report. */
  function StoringLog(log: seq<Entry>): seq<Entry> {
    if log == [] || log[|log| - 1].outcome.Stored? then log else StoringLog(log[..|log| - 1])
  }

  /** The report held is the one last stored: exactly the chunks accepted for it, validated, within its limit. */
  lemma {:induction false} ReportIsWhatWasAccepted(calls: seq<Call>, valid: string -> bool)
    ensures var (h, log) := Serve(calls, valid);
            var stored := StoringLog(log);
            && (h.report.Some? <==> stored != [])
            && (stored != [] ==>
                  && stored[|stored| - 1].outcome == Stored(h.report.value.id)
                  && h.report.value.text == Received(stored)
                  && valid(h.report.value.text)
                  && Len(h.report.value.text) <= MAX_EDITED_REPORT_BYTES)
    decreases |calls|
  {
    if calls != [] {
      var before := calls[..|calls| - 1];
      ReportIsWhatWasAccepted(before, valid);
      UploadIsConcatenation(before, valid);
      var (h, log) := Serve(before, valid);
      var c := calls[|calls| - 1];
      AppendStores(h, Received(log), OpenedId(log), c, valid);
      LogGrows(log, Entry(c, Append(h, c, valid).1));
      assert (log + [Entry(c, Append(h, c, valid).1)])[..|log|] == log;
    }
  }

  // --- reading a preview ---

  /** The largest boundary at or below `end`. */
  function BackOff(b: seq<Byte>, end: nat): (r: nat)
    requires end <= |b|
    ensures r <= end && IsBoundary(b, r)
    ensures forall i :: r < i <= end ==> !IsBoundary(b, i)
  {
    if IsBoundary(b, end) then end else BackOff(b, end - 1)
  }

  function Min(x: nat, y: nat): nat { if x <= y then x else y }

  function ChunkEnd(b: seq<Byte>, offset: nat): (r: nat)
    requires offset <= |b|
    ensures r <= offset + HIP_PREVIEW_CHUNK_BYTES && r <= |b|
  {
    BackOff(b, Min(offset + HIP_PREVIEW_CHUNK_BYTES, |b|))
  }

  /** A read that starts between two characters makes progress unless the text is exhausted. */
  lemma ChunkAdvances(text: string, offset: nat)
    requires offset <= Len(text) && IsBoundary(Encode(text), offset)
    ensures offset <= ChunkEnd(Encode(text), offset)
    ensures offset < Len(text) ==> offset < ChunkEnd(Encode(text), offset)
  {
    if offset < Len(text) {
      var next := NextBoundary(text, offset);
    }
  }

  /** The client's loop: read from `offset`, advance by what came back, stop at the last chunk. */
  function ReadFrom(text: string, offset: nat): seq<seq<Byte>>
    requires offset <= Len(text) && IsBoundary(Encode(text), offset)
    decreases Len(text) - offset
  {
    ChunkAdvances(text, offset);
    var end := ChunkEnd(Encode(text), offset);
    var chunk := Encode(text)[offset..end];
    if end == Len(text) then [chunk] else [chunk] + ReadFrom(text, end)
  }

  function Concat(chunks: seq<seq<Byte>>): seq<Byte> {
    if chunks == [] then [] else chunks[0] + Concat(chunks[1..])
  }

  ghost predicate IsTextOf(chunk: seq<Byte>, text: string) {
    exists i, k :: 0 <= i <= k <= |text| && chunk == Encode(text[i..k])
  }

  /** Between two boundaries lies the encoding of a piece of the text. */
  lemma SliceIsText(text: string, i: nat, j: nat)
    requires i <= j <= Len(text) && IsBoundary(Encode(text), i) && IsBoundary(Encode(text), j)
    ensures IsTextOf(Encode(text)[i..j], text)
  {
    var m := BoundaryIsBetween(text, j);
    var front := text[..m];
    EncodeAppend(front, text[m..]);
    assert front + text[m..] == text;
    assert IsBoundary(Encode(front), i);
    var k := BoundaryIsBetween(front, i);
    assert Encode(text)[i..j] == Encode(front)[i..];
    assert front[k..] == text[k..m];
  }

  predicate Whole(chunks: seq<seq<Byte>>, rest: seq<Byte>) {
    && Concat(chunks) == rest
    && (rest == [] ==> chunks == [[]])
    && (rest != [] ==> [] !in chunks)
  }

  lemma ReadOneMore(b: seq<Byte>, offset: nat, end: nat, chunks: seq<seq<Byte>>)
    requires offset < end < |b| && Whole(chunks, b[end..])
    ensures Whole([b[offset..end]] + chunks, b[offset..])
  {
    assert ([b[offset..end]] + chunks)[1..] == chunks;
    assert b[offset..end] + b[end..] == b[offset..];
  }

  lemma ReadLast(chunk: seq<Byte>)
    ensures Whole([chunk], chunk)
  {
    var none: seq<seq<Byte>> := [];
    assert [chunk][1..] == none && chunk + [] == chunk;
  }

  /** Reading from any boundary to the end reproduces the rest of the document; no chunk is empty before the end. */
  lemma {:induction false} ReadingIsLossless(text: string, offset: nat)
    requires offset <= Len(text) && IsBoundary(Encode(text), offset)
    ensures Whole(ReadFrom(text, offset), Encode(text)[offset..])
    decreases Len(text) - offset
  {
    ChunkAdvances(text, offset);
    var end := ChunkEnd(Encode(text), offset);
    if end == Len(text) {
      ReadLast(Encode(text)[offset..end]);
    } else {
      ReadingIsLossless(text, end);
      ReadOneMore(Encode(text), offset, end, ReadFrom(text, end));
    }
  }

  /** Every chunk read is bounded and holds whole characters. */
  lemma {:induction false} ChunksAreText(text: string, offset: nat)
    requires offset <= Len(text) && IsBoundary(Encode(text), offset)
    ensures forall c :: c in ReadFrom(text, offset) ==> |c| <= HIP_PREVIEW_CHUNK_BYTES && IsTextOf(c, text)
    decreases Len(text) - offset
  {
    ChunkAdvances(text, offset);
    var end := ChunkEnd(Encode(text), offset);
    SliceIsText(text, offset, end);
    if end != Len(text) {
      ChunksAreText(text, end);
    }
  }

  /** From offset 0 the whole document comes back. */
  lemma PreviewIsReproduced(text: string)
    ensures Concat(ReadFrom(text, 0)) == Encode(text)
    ensures DecodeLossy(Concat(ReadFrom(text, 0))) == text
  {
    ReadingIsLossless(text, 0);
    assert Encode(text)[0..] == Encode(text);
    DecodeUndoesEncode(text);
  }

  // --- the record itself ---

  datatype Chunk = Chunk(bytes: seq<Byte>, last: bool) | Refused

  class Record {
    var upload: Option<Document>
    var report: Option<Document>
    var preview: Option<Document>

    function View(): Hip
      reads this
    {
      Hip(upload, report, preview)
    }

    constructor ()
      ensures View() == EMPTY
    {
      upload, report, preview := None, None, None;
    }

    method AppendChunk(c: Call, valid: string -> bool) returns (outcome: Outcome)
      modifies this
      ensures (View(), outcome) == Append(old(View()), c, valid)
    {
      if !c.active { return Unauthorized; }
      if c.upload.None? {
        if c.offset != 0 { return InvalidUpload; }
        upload := Some(Document(c.newUpload, ""));
      }
      if upload.None? { return InvalidUpload; }
      var id, text := upload.value.id, upload.value.text;
      if (c.upload.Some? && c.upload.value != id) || c.offset != Len(text) || Len(c.chunk) > MAX_UPLOAD_CHUNK_BYTES {
        return InvalidUpload;
      }
      if Len(text) + Len(c.chunk) > MAX_EDITED_REPORT_BYTES {
        upload := None;
        return InvalidUpload;
      }
      text := text + c.chunk;
      upload := Some(Document(id, text));
      if !c.complete { return Progress(id); }
      if !valid(text) {
        upload := None;
        return InvalidUpload;
      }
      upload := None;
      report := Some(Document(c.newReport, text));
      outcome := Stored(c.newReport);
    }

    method StorePreview(active: bool, id: nat, text: string) returns (stored: bool)
      modifies this`preview
      ensures stored == active
      ensures preview == if active then Some(Document(id, text)) else old(preview)
    {
      if active { preview := Some(Document(id, text)); }
      stored := active;
    }

    method PreviewChunk(id: nat, offset: nat) returns (chunk: Chunk)
      ensures chunk.Chunk? <==>
        preview.Some? && preview.value.id == id && offset <= Len(preview.value.text) &&
              IsBoundary(Encode(preview.value.text), offset)
      ensures chunk.Chunk? ==>
        var b := Encode(preview.value.text);
        var end := ChunkEnd(b, offset);
        offset <= end && chunk.bytes == b[offset..end] && (chunk.last <==> end == |b|)
    {
      if preview.None? || preview.value.id != id { return Refused; }
      var b := Encode(preview.value.text);
      if offset > |b| || !IsBoundary(b, offset) { return Refused; }
      var end := Min(offset + HIP_PREVIEW_CHUNK_BYTES, |b|);
      while !IsBoundary(b, end)
        invariant offset <= end <= |b|
        decreases end
        invariant BackOff(b, end) == ChunkEnd(b, offset)
      {
        end := end - 1;
      }
      chunk := Chunk(b[offset..end], end == |b|);
    }
  }
}
