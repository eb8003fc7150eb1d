/// Model downloads with progress reporting. The HTTP client, the
/// response and its body stream are foreign: the connection is an
/// outcome value and the body a sequence of chunk results. The records a
/// download reports are a sequence in the order they are sent (the
/// callback and channel versions) or written (the progress table).
module Download {
  import opened Base
  import opened Errors

  datatype Phase = Connecting | Downloading | Processing | Caching | Completed | Failed

  /// A record's message. Those quoting megabytes are formatted from
  /// `f64` values and are kept as the numbers they are computed from.
  datatype Message =
    | Text(text: string)
    | SizeAnnounced(total: Option<nat>)
    | Received(downloaded: nat, total: Option<nat>)

  /// `DownloadProgress` without its `f64` percentage.
  datatype DownloadProgress = DownloadProgress(totalBytes: Option<nat>, downloadedBytes: nat, phase: Phase, message: Message)

  /// How sending the request failed, as `reqwest::Error` classifies it.
  datatype SendErrorKind = ConnectFailure | Timeout | RequestFailure | OtherFailure

  /// What building the client and sending the request gives: a client
  /// error, a send error (with its display text), or a response with its
  /// status code, the status's display text and the content length.
  datatype Connection =
    | ClientFailed(reason: string)
    | SendFailed(kind: SendErrorKind, text: string)
    | Responded(status: nat, statusDisplay: string, contentLength: Option<nat>)

  /// One item of the body stream.
  datatype Chunk = Bytes(data: seq<byte>) | ChunkFailed(reason: string)

  /// The outcome of a download: the records it reported, then its result.
  datatype Outcome = Outcome(records: seq<DownloadProgress>, result: Result<seq<byte>>)

  /// The file URL on the HuggingFace hub.
  function HfUrl(repo: string, revision: string, filename: string): string
  {
    "https://huggingface.co/" + repo + "/resolve/" + revision + "/" + filename
  }

  const ConnectingText := "Connecting to server..."
  const ProcessingText := "Processing downloaded model..."
  const CompletedText := "Download completed successfully!"

  function ClientErrorMessage(reason: string): string
  {
    "Failed to create HTTP client: " + reason
  }

  function SendErrorMessage(kind: SendErrorKind, text: string): string
  {
    match kind
    case ConnectFailure => "Failed to connect to HuggingFace: " + text + ". Please check your internet connection."
    case Timeout => "Download timeout: " + text + ". The model file might be very large."
    case RequestFailure => "Request error: " + text + ". Please verify the repository and filename."
    case OtherFailure => "Network error: " + text
  }

  /// `StatusCode::is_success`.
  predicate IsSuccess(status: nat)
  {
    200 <= status < 300
  }

  function StatusMessage(status: nat, statusDisplay: string, url: string): string
  {
    if status == 404 then "Model not found (404): " + url + ". Please check the repository name and filename."
    else if status == 403 then "Access denied (403): " + url + ". The model might be private or require authentication."
    else "HTTP error " + statusDisplay + ": Failed to download model from " + url
  }

  function ChunkErrorMessage(reason: string): string
  {
    "Failed to read response bytes: " + reason
  }

  const ConnectingRecord := DownloadProgress(None, 0, Connecting, Text(ConnectingText))

  function StartRecord(total: Option<nat>): DownloadProgress
  {
    DownloadProgress(total, 0, Downloading, SizeAnnounced(total))
  }

  function ProgressRecord(total: Option<nat>, downloaded: nat): DownloadProgress
  {
    DownloadProgress(total, downloaded, Downloading, Received(downloaded, total))
  }

  function ChunkFailedRecord(total: Option<nat>, downloaded: nat, reason: string): DownloadProgress
  {
    DownloadProgress(total, downloaded, Failed, Text("Download failed: " + reason))
  }

  // ---------------------------------------------------------------------
  // The body stream

  /// The bytes of every successful chunk, in order.
  function Concat(chunks: seq<Chunk>): seq<byte>
  {
    if |chunks| == 0 then []
    else Concat(chunks[..|chunks| - 1]) + (if chunks[|chunks| - 1].Bytes? then chunks[|chunks| - 1].data else [])
  }

  /// Where the stream loop stands: the records it reported, the buffer,
  /// and the error it stopped at.
  datatype StreamState = StreamState(records: seq<DownloadProgress>, buffer: seq<byte>, failure: Option<string>)

  /// The stream loop over the chunks received so far. After each chunk
  /// the running total is reported when `publish` allows it; a failed
  /// chunk ends the loop, reported as a `Failed` record when
  /// `reportFailure` holds.
  function Stream(total: Option<nat>, chunks: seq<Chunk>, publish: nat -> bool, reportFailure: bool): (s: StreamState)
  {
    if |chunks| == 0 then StreamState([], [], None)
    else
      var s := Stream(total, chunks[..|chunks| - 1], publish, reportFailure);
      if s.failure.Some? then s
      else match chunks[|chunks| - 1]
        case ChunkFailed(e) =>
          StreamState(s.records + (if reportFailure then [ChunkFailedRecord(total, |s.buffer|, e)] else []), s.buffer, Some(e))
        case Bytes(d) =>
          var buffer := s.buffer + d;
          StreamState(s.records + (if publish(|buffer|) then [ProgressRecord(total, |buffer|)] else []), buffer, None)
  }

  /// Once the loop has stopped, later chunks change nothing.
  lemma {:induction false} StreamStaysFailed(total: Option<nat>, chunks: seq<Chunk>, publish: nat -> bool,
                                             reportFailure: bool, n: nat, m: nat)
    requires n <= m <= |chunks|
    requires Stream(total, chunks[..n], publish, reportFailure).failure.Some?
    ensures Stream(total, chunks[..m], publish, reportFailure) == Stream(total, chunks[..n], publish, reportFailure)
  {
    if m > n {
      StreamStaysFailed(total, chunks, publish, reportFailure, n, m - 1);
      assert chunks[..m][..m - 1] == chunks[..m - 1];
    }
  }

  /// The callback versions report every chunk.
  predicate Always(n: nat)
  {
    true
  }

  /// Without a failed chunk the loop keeps every byte, and with `Always`
  /// it reports one record per chunk carrying the running total.
  lemma {:induction false} StreamAllBytes(total: Option<nat>, chunks: seq<Chunk>, publish: nat -> bool, reportFailure: bool)
    requires forall i :: 0 <= i < |chunks| ==> chunks[i].Bytes?
    ensures var s := Stream(total, chunks, publish, reportFailure);
            s.failure == None && s.buffer == Concat(chunks)
            && (publish == Always ==>
                  |s.records| == |chunks|
                  && forall k :: 0 <= k < |chunks| ==> s.records[k] == ProgressRecord(total, |Concat(chunks[..k + 1])|))
  {
    if |chunks| > 0 {
      var init := chunks[..|chunks| - 1];
      StreamAllBytes(total, init, publish, reportFailure);
      assert chunks[..|chunks|] == chunks;
      if publish == Always {
        var s := Stream(total, chunks, publish, reportFailure);
        forall k | 0 <= k < |chunks|
          ensures s.records[k] == ProgressRecord(total, |Concat(chunks[..k + 1])|)
        {
          if k < |chunks| - 1 {
            assert init[..k + 1] == chunks[..k + 1];
          }
        }
      }
    }
  }

  /// A failed chunk at `k`, after only successful ones, stops the loop
  /// with the bytes received before it; with `Always` and
  /// `reportFailure` the last record is `Failed` with that count.
  lemma {:induction false} StreamFailsAt(total: Option<nat>, chunks: seq<Chunk>, publish: nat -> bool,
                                         reportFailure: bool, k: nat)
    requires k < |chunks| && chunks[k].ChunkFailed?
    requires forall i :: 0 <= i < k ==> chunks[i].Bytes?
    ensures var s := Stream(total, chunks, publish, reportFailure);
            s.failure == Some(chunks[k].reason) && s.buffer == Concat(chunks[..k])
            && (publish == Always && reportFailure ==>
                  |s.records| == k + 1
                  && (forall i :: 0 <= i < k ==> s.records[i] == ProgressRecord(total, |Concat(chunks[..i + 1])|))
                  && s.records[k] == ChunkFailedRecord(total, |Concat(chunks[..k])|, chunks[k].reason))
  {
    StreamAllBytes(total, chunks[..k], publish, reportFailure);
    assert chunks[..k + 1][..k] == chunks[..k];
    StreamStaysFailed(total, chunks, publish, reportFailure, k + 1, |chunks|);
    assert chunks[..|chunks|] == chunks;
    if publish == Always {
      var s := Stream(total, chunks, publish, reportFailure);
      forall i | 0 <= i < k
        ensures s.records[i] == ProgressRecord(total, |Concat(chunks[..i + 1])|)
      {
        assert chunks[..k][..i + 1] == chunks[..i + 1];
      }
    }
  }

  // ---------------------------------------------------------------------
  // The callback download

  /// `download_model_with_progress_callback` (and its `_fn` twin): the
  /// records it sends and what it returns.
  function Run(url: string, conn: Connection, chunks: seq<Chunk>): Outcome
  {
    match conn
    case ClientFailed(e) => Outcome([ConnectingRecord], Err(ModelLoadError(ClientErrorMessage(e))))
    case SendFailed(kind, text) =>
      Outcome([ConnectingRecord, DownloadProgress(None, 0, Failed, Text("Connection failed: " + text))],
              Err(ModelLoadError(SendErrorMessage(kind, text))))
    case Responded(status, display, total) =>
      if !IsSuccess(status) then
        var msg := StatusMessage(status, display, url);
        Outcome([ConnectingRecord, DownloadProgress(None, 0, Failed, Text(msg))], Err(ModelLoadError(msg)))
      else
        var s := Stream(total, chunks, Always, true);
        var head := [ConnectingRecord, StartRecord(total)];
        match s.failure
        case Some(e) => Outcome(head + s.records, Err(ModelLoadError(ChunkErrorMessage(e))))
        case None =>
          var n := |s.buffer|;
          Outcome(head + s.records + [DownloadProgress(total, n, Processing, Text(ProcessingText)),
                                      DownloadProgress(Some(n), n, Completed, Text(CompletedText))],
                  Ok(s.buffer))
  }

  /// The download loop itself: every record is appended to `records` as
  /// it is sent.
  method DownloadWithProgress(url: string, conn: Connection, chunks: seq<Chunk>)
    returns (records: seq<DownloadProgress>, r: Result<seq<byte>>)
    ensures Outcome(records, r) == Run(url, conn, chunks)
  {
    records := [ConnectingRecord];
    match conn {
      case ClientFailed(e) =>
        r := Err(ModelLoadError(ClientErrorMessage(e)));
      case SendFailed(kind, text) =>
        records := records + [DownloadProgress(None, 0, Failed, Text("Connection failed: " + text))];
        r := Err(ModelLoadError(SendErrorMessage(kind, text)));
      case Responded(status, display, total) =>
        if !IsSuccess(status) {
          var msg := StatusMessage(status, display, url);
          records := records + [DownloadProgress(None, 0, Failed, Text(msg))];
          r := Err(ModelLoadError(msg));
          return;
        }
        records := records + [StartRecord(total)];
        var downloaded: nat := 0;
        var buffer: seq<byte> := [];
        var i := 0;
        while i < |chunks|
          invariant 0 <= i <= |chunks|
          invariant |records| >= 2 && records[..2] == [ConnectingRecord, StartRecord(total)]
          invariant Stream(total, chunks[..i], Always, true) == StreamState(records[2..], buffer, None)
          invariant downloaded == |buffer|
        {
          assert chunks[..i + 1][..i] == chunks[..i];
          match chunks[i] {
            case ChunkFailed(e) =>
              records := records + [ChunkFailedRecord(total, downloaded, e)];
              StreamStaysFailed(total, chunks, Always, true, i + 1, |chunks|);
              assert chunks[..|chunks|] == chunks;
              r := Err(ModelLoadError(ChunkErrorMessage(e)));
              assert records == [ConnectingRecord, StartRecord(total)] + records[2..];
              return;
            case Bytes(d) =>
              buffer := buffer + d;
              downloaded := downloaded + |d|;
              records := records + [ProgressRecord(total, downloaded)];
          }
          i := i + 1;
        }
        assert chunks[..|chunks|] == chunks;
        assert records == [ConnectingRecord, StartRecord(total)] + records[2..];
        records := records + [DownloadProgress(total, downloaded, Processing, Text(ProcessingText)),
                              DownloadProgress(Some(downloaded), downloaded, Completed, Text(CompletedText))];
        r := Ok(buffer);
    }
  }

  /// `download_model`: the same download with the records only logged.
  function DownloadModel(url: string, conn: Connection, chunks: seq<Chunk>): Result<seq<byte>>
  {
    Run(url, conn, chunks).result
  }

  /// A successful download: Connecting, Downloading at 0, one Downloading
  /// record per chunk with the running byte count, Processing, then
  /// Completed whose total is the number of bytes received; the result is
  /// every byte in order.
  lemma RunSucceeds(url: string, status: nat, display: string, total: Option<nat>, chunks: seq<Chunk>)
    requires IsSuccess(status)
    requires forall i :: 0 <= i < |chunks| ==> chunks[i].Bytes?
    ensures var o := Run(url, Responded(status, display, total), chunks);
            var n := |Concat(chunks)|;
            o.result == Ok(Concat(chunks))
            && |o.records| == |chunks| + 4
            && o.records[0] == ConnectingRecord
            && o.records[1] == StartRecord(total)
            && (forall k :: 2 <= k < |chunks| + 2 ==> o.records[k] == ProgressRecord(total, |Concat(chunks[..k - 1])|))
            && o.records[|chunks| + 2] == DownloadProgress(total, n, Processing, Text(ProcessingText))
            && o.records[|chunks| + 3] == DownloadProgress(Some(n), n, Completed, Text(CompletedText))
  {
    StreamAllBytes(total, chunks, Always, true);
  }

  /// A request that fails, or is answered with an unsuccessful status,
  /// reports exactly one `Failed` record with no bytes after Connecting
  /// and returns a model-load error; a client that cannot be built
  /// reports only Connecting.
  lemma RunConnectionFails(url: string, conn: Connection, chunks: seq<Chunk>)
    requires !(conn.Responded? && IsSuccess(conn.status))
    ensures var o := Run(url, conn, chunks);
            o.result.Err? && o.result.error.ModelLoad?
            && o.records[0] == ConnectingRecord
            && (conn.ClientFailed? ==> o.records == [ConnectingRecord])
            && (!conn.ClientFailed? ==>
                  |o.records| == 2 && o.records[1].phase == Failed
                  && o.records[1].downloadedBytes == 0 && o.records[1].totalBytes == None
                  && o.records[1].message == Text(if conn.SendFailed? then "Connection failed: " + conn.text
                                                  else o.result.error.msg))
  {
  }

  /// A chunk that fails after `k` good ones: the last record is `Failed`
  /// carrying the bytes received so far, and the error names the stream.
  lemma RunChunkFails(url: string, status: nat, display: string, total: Option<nat>, chunks: seq<Chunk>, k: nat)
    requires IsSuccess(status)
    requires k < |chunks| && chunks[k].ChunkFailed?
    requires forall i :: 0 <= i < k ==> chunks[i].Bytes?
    ensures var o := Run(url, Responded(status, display, total), chunks);
            o.result == Err(ModelLoad(ChunkErrorMessage(chunks[k].reason)))
            && |o.records| == k + 3
            && o.records[k + 2] == ChunkFailedRecord(total, |Concat(chunks[..k])|, chunks[k].reason)
  {
    StreamFailsAt(total, chunks, Always, true, k);
  }

  /// Only the last record can end a download: it is `Completed` exactly
  /// when the download succeeds, and no earlier record is `Completed` or
  /// `Failed`.
  lemma RunEndsOnce(url: string, conn: Connection, chunks: seq<Chunk>)
    ensures var o := Run(url, conn, chunks);
            |o.records| >= 1
            && (o.result.Ok? <==> o.records[|o.records| - 1].phase == Completed)
            && (o.result.Err? && !conn.ClientFailed? ==> o.records[|o.records| - 1].phase == Failed)
            && forall i :: 0 <= i < |o.records| - 1 ==> o.records[i].phase !in {Completed, Failed}
  {
    if conn.Responded? && IsSuccess(conn.status) {
      var total := conn.contentLength;
      var k := FirstFailure(chunks);
      if k < |chunks| {
        StreamFailsAt(total, chunks, Always, true, k);
      } else {
        StreamAllBytes(total, chunks, Always, true);
      }
    }
  }

  /// The index of the first failed chunk, or the length when none fails.
  function FirstFailure(chunks: seq<Chunk>): (k: nat)
    ensures k <= |chunks|
    ensures forall i :: 0 <= i < k ==> chunks[i].Bytes?
    ensures k < |chunks| ==> chunks[k].ChunkFailed?
  {
    if |chunks| == 0 then 0
    else if chunks[0].ChunkFailed? then 0
    else 1 + FirstFailure(chunks[1..])
  }

  // ---------------------------------------------------------------------
  // The progress-table download

  /// The throttle of the progress-table download: a record is written
  /// when the running count is a whole number of MiB or, for a known
  /// length, when the `f64` percentage cast to `u64` is a multiple of 10.
  /// The percentage is floating point and `decile` stands for its test.
  function Publish(total: Option<nat>, decile: (nat, nat) -> bool): nat -> bool
  {
    (downloaded: nat) => downloaded % 1048576 == 0 || (total.Some? && decile(downloaded, total.value))
  }

  /// `download_model_with_progress_tracking`: the values it writes to its
  /// progress entry, in order, and what it returns. It writes no `Failed`
  /// or `Completed` record itself.
  function Track(url: string, conn: Connection, chunks: seq<Chunk>, decile: (nat, nat) -> bool): (o: Outcome)
    ensures |o.records| >= 1 && o.records[0] == ConnectingRecord
  {
    match conn
    case ClientFailed(e) => Outcome([ConnectingRecord], Err(ModelLoadError(ClientErrorMessage(e))))
    case SendFailed(kind, text) => Outcome([ConnectingRecord], Err(ModelLoadError(SendErrorMessage(kind, text))))
    case Responded(status, display, total) =>
      if !IsSuccess(status) then
        Outcome([ConnectingRecord], Err(ModelLoadError(StatusMessage(status, display, url))))
      else
        var s := Stream(total, chunks, Publish(total, decile), false);
        var head := [ConnectingRecord, StartRecord(total)];
        match s.failure
        case Some(e) => Outcome(head + s.records, Err(ModelLoadError(ChunkErrorMessage(e))))
        case None =>
          Outcome(head + s.records + [DownloadProgress(total, |s.buffer|, Processing, Text(ProcessingText))], Ok(s.buffer))
  }

  const StartingText := "Starting download..."
  const FailedText := "Download failed"

  /// The entry `start_download_with_progress` writes when the download
  /// ends: on success the last counts are kept, on failure they are reset.
  function Finalise(existing: Option<DownloadProgress>, succeeded: bool): (p: DownloadProgress)
    ensures succeeded ==> p.phase == Completed && p.message == Text(CompletedText)
    ensures !succeeded ==> p == DownloadProgress(None, 0, Failed, Text(FailedText))
    ensures succeeded && existing.Some? ==>
              p.totalBytes == existing.value.totalBytes && p.downloadedBytes == existing.value.downloadedBytes
  {
    if succeeded then
      match existing
      case Some(e) => DownloadProgress(e.totalBytes, e.downloadedBytes, Completed, Text(CompletedText))
      case None => DownloadProgress(None, 0, Completed, Text(CompletedText))
    else DownloadProgress(None, 0, Failed, Text(FailedText))
  }

  /// After a successful tracked download the final entry is `Completed`
  /// with the response's content length as total (unlike the callback
  /// version, which reports the received count) and every received byte
  /// counted.
  lemma TrackedCompletion(url: string, conn: Connection, chunks: seq<Chunk>, decile: (nat, nat) -> bool)
    requires Track(url, conn, chunks, decile).result.Ok?
    ensures var o := Track(url, conn, chunks, decile);
            conn.Responded? && IsSuccess(conn.status)
            && (forall i :: 0 <= i < |chunks| ==> chunks[i].Bytes?)
            && o.result.value == Concat(chunks)
            && Finalise(Some(o.records[|o.records| - 1]), true)
               == DownloadProgress(conn.contentLength, |Concat(chunks)|, Completed, Text(CompletedText))
  {
    var total := conn.contentLength;
    var k := FirstFailure(chunks);
    if k < |chunks| {
      StreamFailsAt(total, chunks, Publish(total, decile), false, k);
      assert false;
    }
    StreamAllBytes(total, chunks, Publish(total, decile), false);
  }
}
