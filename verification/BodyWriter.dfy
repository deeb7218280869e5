/**
 Streaming a request body into its destination and reporting it
 (src/server/state.rs:109-147 and the callback in src/server/handlers.rs:693-713).
 */
module BodyWriter {
  import opened Options
  import E = Engine
  import EI = EngineInvariant
  import SO = SessionObjects

  // ---- streams ----

  /** The items of a body stream; `None` is a transport error. */
  type BodyStream = seq<Option<Bytes>>

  predicate Delivered(items: BodyStream) {
    forall i :: 0 <= i < |items| ==> items[i].Some?
  }

  function Chunks(items: BodyStream): (chunks: seq<Bytes>)
    requires Delivered(items)
    ensures |chunks| == |items| && forall i :: 0 <= i < |items| ==> chunks[i] == items[i].value
  {
    seq(|items|, i requires 0 <= i < |items| && items[i].Some? => items[i].value)
  }

  /** The bytes of the first `n` items, in order. */
  function Prefix(items: BodyStream, n: nat): Bytes
    requires n <= |items| && Delivered(items[..n])
  {
    E.Flatten(Chunks(items[..n]))
  }

  lemma PrefixGrows(items: BodyStream, n: nat)
    requires n < |items| && Delivered(items[..n + 1])
    ensures Delivered(items[..n])
    ensures Prefix(items, n + 1) == Prefix(items, n) + items[n].value
  {
    assert items[..n + 1][n] == items[n];
    forall i | 0 <= i < n
      ensures items[..n][i] == items[..n + 1][i]
    {
    }
    assert Chunks(items[..n + 1]) == Chunks(items[..n]) + [items[n].value];
    EI.FlattenAppend(Chunks(items[..n]), items[n].value);
  }

  /** One sample a chunk: how much of the body has been written by then. */
  function Cumulative(items: BodyStream, n: nat): (samples: seq<nat>)
    requires n <= |items| && Delivered(items[..n])
    ensures |samples| == n
  {
    if n == 0 then []
    else
      assert Delivered(items[..n - 1]) by { assert items[..n - 1] == items[..n][..n - 1]; }
      Cumulative(items, n - 1) + [|Prefix(items, n)|]
  }

  lemma {:induction false} SamplesAreCumulative(items: BodyStream, n: nat, i: nat)
    requires i < n <= |items| && Delivered(items[..n])
    ensures Delivered(items[..i]) && Delivered(items[..i + 1])
    ensures Cumulative(items, n)[i] == |Prefix(items, i + 1)| == |Prefix(items, i)| + |items[i].value|
  {
    assert items[..i] == items[..n][..i] && items[..i + 1] == items[..n][..i + 1];
    PrefixGrows(items, i);
    if i < n - 1 {
      assert items[..n - 1] == items[..n][..n - 1];
      SamplesAreCumulative(items, n - 1, i);
    }
  }

  // ---- the destination and the callback ----

  /** A sink's writer; a failing write may have written part of its bytes. */
  class Writer {
    var content: Bytes

    method WriteAll(bytes: Bytes) returns (ok: bool)
      modifies this
      ensures ok ==> content == old(content) + bytes
      ensures !ok ==> exists n :: 0 <= n <= |bytes| && content == old(content) + bytes[..n]
    {
      ok := *;
      var n: nat :| n <= |bytes|;
      content := content + if ok then bytes else bytes[..n];
    }
  }

  /** The progress callback of one upload, with what it captured. */
  class Reporter {
    const session: SO.Session
    const total: nat
    var previousFileBytes: nat
    var fileReported: nat
    ghost var samples: seq<nat>

    constructor (session: SO.Session, total: nat)
      ensures this.session == session && this.total == total
      ensures previousFileBytes == 0 == fileReported && samples == []
    {
      this.session := session;
      this.total := total;
      previousFileBytes, fileReported, samples := 0, 0, [];
    }

    method Report(fileBytes: nat)
      requires total <= E.U64_MAX
      modifies this, session`receivedBytes
      ensures previousFileBytes == fileReported == fileBytes && samples == old(samples) + [fileBytes]
      ensures session.receivedBytes ==
              E.Min(old(session.receivedBytes) + E.SaturatingSub(fileBytes, old(previousFileBytes)), total)
    {
      var delta := if previousFileBytes <= fileBytes then fileBytes - previousFileBytes else 0;
      previousFileBytes := fileBytes;
      fileReported := fileBytes;
      samples := samples + [fileBytes];
      var _ := session.AddProgress(delta, total);
    }
  }

  /** The callbacks of one body telescope: the counter gains what was reported, clamped once at the total. */
  ghost predicate Telescoped(before: nat, reported: nat, total: nat, counter: nat) {
    before <= total ==> counter == E.Min(before + reported, total)
  }

  datatype Outcome = Outcome(bytesWritten: nat, sha256: string)

  /**
   Success writes exactly the bytes of the stream, in order, and answers their
   number and digest.  A failure stops after `done` whole chunks, which are what
   was reported.
   */
  method WriteBody(cfg: E.Config, items: BodyStream, file: Writer, progress: Reporter)
    returns (outcome: Option<Outcome>, ghost done: nat)
    requires progress.total <= E.U64_MAX
    requires progress.previousFileBytes == 0 == progress.fileReported && progress.samples == []
    modifies file, progress, progress.session`receivedBytes
    ensures done <= |items| && Delivered(items[..done])
    ensures outcome.Some? ==>
              && done == |items|
              && file.content == old(file.content) + Prefix(items, done)
              && outcome.value == Outcome(|Prefix(items, done)|, cfg.sha256(Prefix(items, done)))
    ensures outcome.None? ==> old(file.content) + Prefix(items, done) <= file.content
    ensures progress.fileReported == |Prefix(items, done)| && progress.samples == Cumulative(items, done)
    ensures Telescoped(old(progress.session.receivedBytes), |Prefix(items, done)|, progress.total,
                       progress.session.receivedBytes)
  {
    var bytesWritten: nat := 0;
    var hashed: Bytes := [];
    done := 0;
    var i := 0;
    while i < |items|
      invariant 0 <= i == done <= |items| && Delivered(items[..i])
      invariant hashed == Prefix(items, i) && bytesWritten == |hashed|
      invariant file.content == old(file.content) + hashed
      invariant progress.previousFileBytes == progress.fileReported == bytesWritten
      invariant progress.samples == Cumulative(items, i)
      invariant Telescoped(old(progress.session.receivedBytes), bytesWritten, progress.total,
                           progress.session.receivedBytes)
    {
      if items[i].None? {
        return None, done;
      }
      assert items[..i + 1] == items[..i] + [items[i]];
      PrefixGrows(items, i);
      var chunk := items[i].value;
      bytesWritten := bytesWritten + |chunk|;
      hashed := hashed + chunk;
      var ok := file.WriteAll(chunk);
      if !ok {
        return None, done;
      }
      progress.Report(bytesWritten);
      i := i + 1;
      done := i;
    }
    var flushed: bool := *;
    outcome := if flushed then Some(Outcome(bytesWritten, cfg.sha256(hashed))) else None;
  }

  /**
   The handler around it: a body that failed is rolled back by what was reported,
   which restores the counter exactly unless it had been clamped.
   */
  method ReceiveBody(cfg: E.Config, items: BodyStream, file: Writer, session: SO.Session, total: nat)
    returns (outcome: Option<Outcome>, ghost done: nat)
    requires total <= E.U64_MAX && session.receivedBytes <= total
    modifies file, session`receivedBytes
    ensures done <= |items| && Delivered(items[..done])
    ensures outcome.Some? ==>
              && done == |items|
              && outcome.value == Outcome(|Prefix(items, done)|, cfg.sha256(Prefix(items, done)))
              && file.content == old(file.content) + Prefix(items, done)
              && session.receivedBytes == E.Min(old(session.receivedBytes) + |Prefix(items, done)|, total)
    ensures outcome.None? ==>
              (session.receivedBytes == old(session.receivedBytes) <==>
                 old(session.receivedBytes) == 0 || old(session.receivedBytes) + |Prefix(items, done)| <= total)
  {
    var progress := new Reporter(session, total);
    outcome, done := WriteBody(cfg, items, file, progress);
    if outcome.None? {
      var _ := session.RollbackProgress(progress.fileReported);
    }
  }
}
