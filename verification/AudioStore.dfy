/** One channel of the durable audio store (server/src/jarvis_live/ingest/store.py): an append-only
    file, written through a buffer, and an index of what was put there; and what each way to fail
    leaves of the two. */
module AudioStore {
  import opened Options
  import opened Bytes
  import opened Frames

  datatype Row = Row(seqNo: nat, offset: nat, len: nat)

  datatype Outcome =
    | Stored | Duplicate | SeqGap(expected: int, got: int) | StoreClosed
    | WriteFailed    // the write or its flush raised
    | CommitFailed   // the insert or its commit raised
    | SyncFailed     // the frame is stored, but the fsync after it raised
    | Died           // the process went down in the middle

  /** What can go wrong in one append. A write that raises has put `k` bytes into the file; the
      buffer keeps the rest for the next flush, or does not. A commit can raise with or without having
      taken effect, and undoing the write after it can raise too, either way. */
  datatype Fault =
    | NoFault | WriteRaises(k: nat, kept: bool) | CommitRaises(taken: bool, undone: bool)
    | SyncRaises | DiesBeforeCommit(k: nat) | DiesAfterCommit

  /** The rule of `append` once `n` chunks are known to be stored. */
  function Accept(n: nat, seqNo: int): Outcome {
    if n > 0 && seqNo < n then Duplicate else if seqNo == n then Stored else SeqGap(n, seqNo)
  }

  // ---- the store as a value --------------------------------------------------------------

  /** The file, what is still in its buffer, the payloads of the index in order, and how many of them
      the running process knows of. */
  datatype Disk = Disk(file: seq<byte>, pending: seq<byte>, chunks: seq<seq<byte>>, known: nat)

  const EMPTY := Disk([], [], [], 0)

  /** Where the next frame is believed to go. */
  function Offset(d: Disk): nat
    requires d.known <= |d.chunks|
  {
    |Concat(d.chunks[..d.known])|
  }

  /** True at every moment, whatever failed. */
  predicate DiskOk(d: Disk) { d.known <= |d.chunks| <= d.known + 1 && Offset(d) <= |d.file| }

  /** The file is exactly the indexed payloads, and memory agrees. */
  predicate Clean(d: Disk) { d.known == |d.chunks| && d.pending == [] && d.file == Concat(d.chunks) }

  /** Every indexed payload is in the file where the index says. */
  predicate Agree(d: Disk) { Concat(d.chunks) <= d.file }

  /** The first `n` bytes, and what they leave. */
  function Upto(text: seq<byte>, n: nat): seq<byte> { if n < |text| then text[..n] else text }
  function Beyond(text: seq<byte>, n: nat): seq<byte> { if n < |text| then text[n..] else [] }

  /** The end of `append`, once the frame is the next one. */
  function Put(d: Disk, pcm: seq<byte>, fault: Fault): (Disk, Outcome)
    requires DiskOk(d)
  {
    var text := d.pending + pcm;
    if fault.WriteRaises? then
      (d.(file := d.file + Upto(text, fault.k), pending := if fault.kept then Beyond(text, fault.k) else []), WriteFailed)
    else if fault.DiesBeforeCommit? then (d.(file := d.file + Upto(text, fault.k), pending := []), Died)
    else Indexed(d.(file := d.file + text, pending := []), pcm, fault)
  }

  /** With the bytes written, the row. The index takes no second row with the same number. */
  function Indexed(d: Disk, pcm: seq<byte>, fault: Fault): (Disk, Outcome)
    requires DiskOk(d) && Offset(d) + |pcm| <= |d.file|
  {
    var clash := d.known < |d.chunks|;
    var indexed := d.chunks + [pcm];
    if fault.CommitRaises? || clash then
      (Disk(if fault.CommitRaises? && !fault.undone then d.file else d.file[..Offset(d)], d.pending,
            if fault.CommitRaises? && fault.taken && !clash then indexed else d.chunks, d.known), CommitFailed)
    else
      (d.(chunks := indexed, known := d.known + 1),
       if fault == SyncRaises then SyncFailed else if fault == DiesAfterCommit then Died else Stored)
  }

  /** `load`: bytes past the last indexed chunk are cut off; None where it raises. */
  function Reloaded(d: Disk): Option<Disk> {
    var end := |Concat(d.chunks)|;
    if |d.file| < end then None else Some(Disk(d.file[..end], [], d.chunks, |d.chunks|))
  }

  /** `close` flushes what is still in the buffer. */
  function Flushed(d: Disk): Disk { d.(file := d.file + d.pending, pending := []) }

  lemma FlushedOk(d: Disk)
    ensures DiskOk(d) ==> DiskOk(Flushed(d))
    ensures Clean(d) ==> Flushed(d) == d
    ensures Flushed(d).chunks == d.chunks && Flushed(d).known == d.known
    ensures Flushed(d).pending == [] && Flushed(d).file + Flushed(d).pending == d.file + d.pending
  {
    hide Concat;
  }

  lemma ConcatNext(chunks: seq<seq<byte>>, pcm: seq<byte>)
    ensures Concat(chunks + [pcm]) == Concat(chunks) + pcm
  {
    assert (chunks + [pcm])[..|chunks|] == chunks;
  }

  lemma PutOk(d: Disk, pcm: seq<byte>, fault: Fault)
    requires DiskOk(d)
    ensures DiskOk(Put(d, pcm, fault).0)
    ensures d.known <= Put(d, pcm, fault).0.known && d.chunks <= Put(d, pcm, fault).0.chunks <= d.chunks + [pcm]
  {
    hide Concat;
    assert (d.chunks + [pcm])[..d.known] == d.chunks[..d.known];
    if d.known == |d.chunks| {
      assert d.chunks[..d.known] == d.chunks && (d.chunks + [pcm])[..d.known + 1] == d.chunks + [pcm];
      ConcatNext(d.chunks, pcm);
    }
  }

  lemma ReloadedOk(d: Disk)
    requires DiskOk(d) && Reloaded(d).Some?
    ensures DiskOk(Reloaded(d).value) && (Agree(d) ==> Clean(Reloaded(d).value))
  {
    assert d.chunks[..|d.chunks|] == d.chunks;
  }

  /** The faults that leave file and index out of step while the process goes on. */
  predicate Dirties(fault: Fault) {
    match fault
    case WriteRaises(k, kept) => k > 0 || kept
    case CommitRaises(taken, undone) => taken || !undone
    case _ => false
  }

  lemma CleanOk(d: Disk)
    requires Clean(d)
    ensures DiskOk(d) && Offset(d) == |d.file|
  {
    assert d.chunks[..d.known] == d.chunks;
  }

  /** File and index stay in step through exactly the other faults; and where the process dies, the
      next `load` brings them back in step. */
  lemma PutClean(d: Disk, pcm: seq<byte>, fault: Fault)
    requires Clean(d) && DiskOk(d) && pcm != []
    ensures var (e, o) := Put(d, pcm, fault);
      && (o != Died ==> (Clean(e) <==> !Dirties(fault)))
      && (o == Died ==> Agree(e) && Reloaded(e).Some? && Clean(Reloaded(e).value))
  {
    hide Concat;
    CleanOk(d);
    ConcatNext(d.chunks, pcm);
    assert d.pending + pcm == pcm && (d.file + pcm)[..|d.file|] == d.file;
    var e := Put(d, pcm, fault).0;
    if fault.WriteRaises? {
      assert fault.k == 0 ==> Upto(pcm, 0) == [] && Beyond(pcm, 0) == pcm;
    }
    if Put(d, pcm, fault).1 == Died {
      assert Agree(e);
      PutOk(d, pcm, fault);
      ReloadedOk(e);
    }
  }

  /** What the caller hears. A frame is said to be stored only when it is, its row and its bytes; a
      fsync that raises says so although it is. */
  lemma PutSays(d: Disk, pcm: seq<byte>, fault: Fault)
    requires Clean(d) && DiskOk(d)
    ensures var (e, o) := Put(d, pcm, fault);
      && (o == Stored <==> fault.NoFault?) && (o == WriteFailed <==> fault.WriteRaises?)
      && (o == CommitFailed <==> fault.CommitRaises?) && (o == SyncFailed <==> fault.SyncRaises?)
      && (o == Died <==> fault.DiesBeforeCommit? || fault.DiesAfterCommit?)
      && (o == Stored || o == SyncFailed ==>
           && e.chunks == d.chunks + [pcm] && e.known == d.known + 1
           && e.file == d.file + pcm && e.pending == [])
      && (o == WriteFailed || o == CommitFailed ==> e.known == d.known)
  {
    assert d.pending + pcm == pcm;
  }

  /** A commit that takes effect and then raises loses audio: its bytes are cut off again, the index
      is longer than the file, nothing more is stored, and the next start refuses to load. */
  lemma CommitTakenBackLoses(d: Disk, pcm: seq<byte>, more: seq<byte>, fault: Fault)
    requires Clean(d) && DiskOk(d) && pcm != []
    ensures var e := Put(d, pcm, CommitRaises(true, true)).0;
      && !Agree(e) && Reloaded(e) == None && DiskOk(e)
      && Put(e, more, fault).0.chunks == e.chunks && Put(e, more, fault).1 != Stored
  {
    hide Concat;
    CleanOk(d);
    ConcatNext(d.chunks, pcm);
    PutOk(d, pcm, CommitRaises(true, true));
  }

  /** Where the undo raises as well, the audio is still there, and a restart would find it so; but the
      frame sent again has its bytes cut off with those of the row. */
  lemma ResendCutsOff(d: Disk, pcm: seq<byte>)
    requires Clean(d) && DiskOk(d) && pcm != []
    ensures var e := Put(d, pcm, CommitRaises(true, false)).0;
      && DiskOk(e) && Agree(e) && !Clean(e) && Reloaded(e).Some? && Clean(Reloaded(e).value)
      && Put(e, pcm, NoFault).1 == CommitFailed && !Agree(Put(e, pcm, NoFault).0) && Reloaded(Put(e, pcm, NoFault).0) == None
  {
    hide Concat;
    CleanOk(d);
    ConcatNext(d.chunks, pcm);
    PutOk(d, pcm, CommitRaises(true, false));
    assert d.pending + pcm == pcm;
    var e := Put(d, pcm, CommitRaises(true, false)).0;
    ReloadedOk(e);
    assert (d.chunks + [pcm])[..d.known] == d.chunks;
    assert Offset(e) == |d.file| && e.chunks == d.chunks + [pcm];
  }

  /** With bytes `junk` behind the indexed ones, the next frame is stored under an offset where the
      file has `junk` first: it reads back right exactly if those bytes say the same. */
  lemma StoredBehindJunk(d: Disk, junk: seq<byte>, pcm: seq<byte>)
    requires DiskOk(d) && d.known == |d.chunks| && d.file + d.pending == Concat(d.chunks) + junk
    ensures Put(d, pcm, NoFault).1 == Stored
    ensures Agree(Put(d, pcm, NoFault).0) <==> pcm <= junk + pcm
  {
    hide Concat;
    ConcatNext(d.chunks, pcm);
    var c := Concat(d.chunks);
    assert d.file + (d.pending + pcm) == d.file + d.pending + pcm;
    assert c + junk + pcm == c + (junk + pcm);
    PrefixBehind(c, pcm, junk + pcm);
  }

  lemma PrefixBehind<T>(c: seq<T>, a: seq<T>, b: seq<T>)
    ensures c + a <= c + b <==> a <= b
  {
    if c + a <= c + b {
      forall i | 0 <= i < |a| ensures a[i] == b[i] {
        assert (c + a)[|c| + i] == (c + b)[|c| + i];
      }
    }
  }

  /** A frame whose write failed part way, sent again: its row points at the leftover bytes. */
  lemma ResendBehindLeftover(d: Disk, pcm: seq<byte>, k: nat)
    requires Clean(d) && DiskOk(d) && 0 < k < |pcm| && pcm[0] != pcm[k]
    ensures var e := Put(d, pcm, WriteRaises(k, false)).0;
      DiskOk(e) && Put(e, pcm, NoFault).1 == Stored && !Agree(Put(e, pcm, NoFault).0)
  {
    var e := Put(d, pcm, WriteRaises(k, false)).0;
    PutOk(d, pcm, WriteRaises(k, false));
    assert d.pending + pcm == pcm;
    StoredBehindJunk(e, pcm[..k], pcm);
    assert (pcm[..k] + pcm)[k] == pcm[0];
  }

  /** Where the buffer keeps the rest, the frame sent again reads back right, and the one after it
      does not. */
  lemma NextBehindLeftover(d: Disk, pcm: seq<byte>, next: seq<byte>, k: nat)
    requires Clean(d) && DiskOk(d) && k < |pcm| && next != [] && next[0] != pcm[0]
    ensures var e := Put(d, pcm, WriteRaises(k, true)).0;
      DiskOk(e) &&
      var f := Put(e, pcm, NoFault).0;
      Agree(f) && DiskOk(f) && Put(f, next, NoFault).1 == Stored && !Agree(Put(f, next, NoFault).0)
  {
    hide Concat, Put, Agree;
    var e := KeptLeftover(d, pcm, k);
    StoredBehindJunk(e, pcm, pcm);
    var f := StoredAgain(e, pcm);
    StoredBehindJunk(f, pcm, next);
    assert (pcm + next)[0] == pcm[0];
  }

  lemma KeptLeftover(d: Disk, pcm: seq<byte>, k: nat) returns (e: Disk)
    requires Clean(d) && DiskOk(d) && k < |pcm|
    ensures e == Put(d, pcm, WriteRaises(k, true)).0 && DiskOk(e) && e.known == |e.chunks|
    ensures e.file + e.pending == Concat(e.chunks) + pcm
  {
    hide Concat, DiskOk, Upto, Beyond;
    e := Put(d, pcm, WriteRaises(k, true)).0;
    PutOk(d, pcm, WriteRaises(k, true));
    assert d.pending + pcm == pcm;
    UptoAndBeyond(d.file, pcm, k);
  }

  lemma UptoAndBeyond(file: seq<byte>, text: seq<byte>, k: nat)
    ensures file + Upto(text, k) + Beyond(text, k) == file + text
  {
    if k < |text| {
      assert text[..k] + text[k..] == text;
    }
  }

  /** Storing a frame with the same bytes already behind the indexed ones leaves those bytes behind them. */
  lemma StoredAgain(e: Disk, pcm: seq<byte>) returns (f: Disk)
    requires DiskOk(e) && e.known == |e.chunks| && e.file + e.pending == Concat(e.chunks) + pcm
    ensures f == Put(e, pcm, NoFault).0 && DiskOk(f) && f.known == |f.chunks|
    ensures f.file + f.pending == Concat(f.chunks) + pcm
  {
    hide Concat;
    f := Put(e, pcm, NoFault).0;
    PutOk(e, pcm, NoFault);
    ConcatNext(e.chunks, pcm);
    assert e.file + (e.pending + pcm) == e.file + e.pending + pcm;
    assert f.pending == [] && f.file + f.pending == f.file;
  }

  // ---- the class -------------------------------------------------------------------------

  /** `rows` is the index of `chunks` laid end to end. */
  ghost predicate IndexOf(rows: seq<Row>, chunks: seq<seq<byte>>) {
    |rows| == |chunks| &&
    forall i :: 0 <= i < |rows| ==> rows[i] == Row(i, |Concat(chunks[..i])|, |chunks[i]|)
  }

  lemma IndexAppend(rows: seq<Row>, chunks: seq<seq<byte>>, chunk: seq<byte>)
    requires IndexOf(rows, chunks)
    ensures IndexOf(rows + [Row(|chunks|, |Concat(chunks)|, |chunk|)], chunks + [chunk])
  {
    assert (chunks + [chunk])[..|chunks|] == chunks;
    assert forall i :: 0 <= i <= |chunks| ==> (chunks + [chunk])[..i] == chunks[..i];
  }

  lemma IndexEnd(rows: seq<Row>, chunks: seq<seq<byte>>)
    requires IndexOf(rows, chunks) && rows != []
    ensures var tail := rows[|rows| - 1]; tail.seqNo == |chunks| - 1 && tail.offset + tail.len == |Concat(chunks)|
  {
  }

  /** What the row, and then the new state in memory, do to where the next frame goes. */
  lemma OffsetsAfter(d: Disk, pcm: seq<byte>, file: seq<byte>)
    requires DiskOk(d) && Offset(d) <= |file|
    ensures d.known <= |d.chunks| <= d.known + 1 && Offset(d) <= |d.file|
    ensures var e := d.(file := file); DiskOk(e) && Offset(e) == Offset(d)
    ensures d.known == |d.chunks| ==>
      var e, f := d.(file := file, chunks := d.chunks + [pcm]), d.(file := file, chunks := d.chunks + [pcm], known := d.known + 1);
      && Offset(d) == |Concat(d.chunks)| && DiskOk(e) && Offset(e) == Offset(d)
      && (Offset(d) + |pcm| <= |file| ==> DiskOk(f) && Offset(f) == Offset(d) + |pcm|)
  {
    hide Concat;
    if d.known == |d.chunks| {
      assert d.chunks[..d.known] == d.chunks && (d.chunks + [pcm])[..d.known] == d.chunks;
      assert (d.chunks + [pcm])[..d.known + 1] == d.chunks + [pcm];
      ConcatNext(d.chunks, pcm);
    }
  }

  class AudioStore {
    // on disk: these survive a crash
    var file: seq<byte>
    var rows: seq<Row>
    // in memory
    var pending: seq<byte>
    var last: Option<int>
    var offset: nat
    var closed: bool
    /** The payloads of the rows. */
    ghost var chunks: seq<seq<byte>>

    ghost function Value(): Disk
      reads this
    {
      Disk(file, pending, chunks, if last.Some? && last.value >= 0 then last.value as nat + 1 else 0)
    }

    /** What is true whatever failed, while the process is up. */
    ghost predicate Valid()
      reads this
    {
      && IndexOf(rows, chunks) && (last.Some? ==> last.value >= 0)
      && DiskOk(Value()) && offset == Offset(Value())
    }

    constructor ()
      ensures Valid() && Value() == EMPTY && !closed
    {
      file, rows, pending, chunks := [], [], [], [];
      last, offset, closed := None, 0, false;
    }

    /** Recover after a start. False is the `RuntimeError` for a file shorter than its index. */
    method Load() returns (ok: bool)
      requires IndexOf(rows, chunks)
      modifies this
      ensures ok <==> Reloaded(old(Value())).Some?
      ensures ok ==> Valid() && !closed && Value() == Reloaded(old(Value())).value
      ensures !ok ==> file == old(file) && rows == old(rows) && chunks == old(chunks)
    {
      var seqNo: Option<int>, end := None, 0;
      if rows != [] {
        var tail := rows[|rows| - 1];
        IndexEnd(rows, chunks);
        seqNo, end := Some(tail.seqNo), tail.offset + tail.len;
      }
      if |file| < end {
        return false;
      }
      if |file| > end {
        file := file[..end];
      }
      assert chunks[..|chunks|] == chunks;
      last, offset, pending, closed := seqNo, end, [], false;
      ok := true;
    }

    method Append(frame: Frame, fault: Fault) returns (outcome: Outcome)
      requires Valid()
      modifies this
      ensures Valid() && closed == old(closed)
      ensures old(closed) ==> outcome == StoreClosed && Value() == old(Value())
      ensures !old(closed) && frame.seqNo < old(Value()).known && old(Value()).known > 0 ==>
        outcome == Duplicate && Value() == old(Value())
      ensures !old(closed) && frame.seqNo == old(Value()).known ==> (Value(), outcome) == Put(old(Value()), frame.pcm, fault)
      ensures !old(closed) && (frame.seqNo > old(Value()).known || (frame.seqNo < 0 && old(Value()).known == 0)) ==>
        outcome == SeqGap(old(Value()).known, frame.seqNo) && Value() == old(Value())
    {
      if closed {
        return StoreClosed;
      }
      var expected := if last.None? then 0 else last.value + 1;
      if last.Some? && frame.seqNo <= last.value {
        return Duplicate;
      }
      if frame.seqNo != expected {
        return SeqGap(expected, frame.seqNo);
      }
      outcome := Write(frame, fault);
    }

    /** The end of `append`: bytes first, then the row, cutting the bytes off if the commit raises. */
    method Write(frame: Frame, fault: Fault) returns (outcome: Outcome)
      requires Valid() && frame.seqNo == Value().known
      modifies this`file, this`rows, this`pending, this`chunks, this`offset, this`last
      ensures Valid() && (Value(), outcome) == Put(old(Value()), frame.pcm, fault)
    {
      hide Concat, IndexOf, Upto, Beyond, Indexed;
      var text := pending + frame.pcm;
      if fault.WriteRaises? {
        file, pending := file + Upto(text, fault.k), if fault.kept then Beyond(text, fault.k) else [];
        return WriteFailed;
      }
      if fault.DiesBeforeCommit? {
        file, pending := file + Upto(text, fault.k), [];
        return Died;
      }
      file, pending := file + text, [];
      outcome := Commit(frame, fault);
    }

    /** The row, cutting the bytes off if the commit raises. The index takes no second row with the
        same number. */
    method Commit(frame: Frame, fault: Fault) returns (outcome: Outcome)
      requires Valid() && frame.seqNo == Value().known && Offset(Value()) + |frame.pcm| <= |file|
      modifies this`file, this`rows, this`chunks, this`offset, this`last
      ensures Valid() && (Value(), outcome) == Indexed(old(Value()), frame.pcm, fault)
    {
      hide Concat, IndexOf, DiskOk, Offset;
      OffsetsAfter(Value(), frame.pcm, file);
      OffsetsAfter(Value(), frame.pcm, file[..offset]);
      var clash := exists r :: r in rows && r.seqNo == frame.seqNo;
      RowExists(rows, chunks, frame.seqNo);
      if !clash && (fault.CommitRaises? ==> fault.taken) {
        AddRow(frame.seqNo, frame.pcm);
      }
      if clash || fault.CommitRaises? {
        if fault.CommitRaises? ==> fault.undone {
          file := file[..offset];
        }
        return CommitFailed;
      }
      offset := offset + |frame.pcm|;
      last := Some(frame.seqNo);
      outcome := if fault == SyncRaises then SyncFailed else if fault == DiesAfterCommit then Died else Stored;
    }

    /** After the fsync and the close of the file every later frame is refused. */
    method Close()
      requires Valid()
      modifies this`closed, this`file, this`pending
      ensures Valid() && closed && Value() == Flushed(old(Value()))
    {
      closed := true;
      file, pending := file + pending, [];
    }

    method AddRow(seqNo: int, pcm: seq<byte>)
      requires IndexOf(rows, chunks) && seqNo == |chunks| && offset == |Concat(chunks)|
      modifies this`rows, this`chunks
      ensures IndexOf(rows, chunks) && chunks == old(chunks) + [pcm] && |Concat(chunks)| == offset + |pcm|
    {
      IndexAppend(rows, chunks, pcm);
      ConcatNext(chunks, pcm);
      rows := rows + [Row(seqNo, offset, |pcm|)];
      chunks := chunks + [pcm];
    }
  }

  lemma RowExists(rows: seq<Row>, chunks: seq<seq<byte>>, seqNo: int)
    requires IndexOf(rows, chunks)
    ensures (exists r :: r in rows && r.seqNo == seqNo) <==> 0 <= seqNo < |chunks|
  {
    if 0 <= seqNo < |rows| {
      assert rows[seqNo] in rows;
    }
  }
}
