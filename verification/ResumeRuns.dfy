/** Whole runs: a recording sent over any connections, what the server ends up with, and what that
    says of the file on its disk. */
module ResumeRuns {
  import opened Options
  import opened Bytes
  import opened Frames
  import opened AudioStore
  import opened Resume
  import opened ResumeSafety

  lemma StartInv(rec: Recording)
    ensures SysInv(rec, START)
  {
  }

  /** Resume leaves no gap. Over any interleaving of connections that open with any client belief,
      break anywhere, and meet any fault of the store, the index is a prefix of the recording's
      frames, with no frame twice or missing, and never loses one. */
  lemma {:induction false} NoGap(rec: Recording, s: Sys, labels: seq<Label>)
    requires SysInv(rec, s) && Legal(rec, s, labels)
    ensures SysInv(rec, Run(rec, s, labels)) && s.disk.chunks <= Run(rec, s, labels).disk.chunks
    decreases |labels|
  {
    hide SysInv;
    if labels == [] {
    } else {
      StepInv(rec, s, labels[0]);
      NoGap(rec, Apply(rec, s, labels[0]), labels[1..]);
    }
  }

  /** The faults through which the row takes effect. */
  predicate Commits(fault: Fault) {
    fault.NoFault? || fault.SyncRaises? || fault.DiesAfterCommit? || (fault.CommitRaises? && fault.taken)
  }

  /** The recording's last frame comes off a wire while the session is open, and its row takes effect
      if it needs one. */
  predicate LastComesIn(rec: Recording, s: Sys, l: Label)
    requires rec.frames != []
  {
    l.Arrive? && l.c in s.conns && s.conns[l.c].wire != [] && !s.ended && Commits(l.fault) &&
    var last := Message(rec, |rec.frames| - 1);
    last.Ok? && s.conns[l.c].wire[0] == Audio(last.value)
  }

  predicate LastCameIn(rec: Recording, s: Sys, labels: seq<Label>)
    requires rec.frames != []
    decreases |labels|
  {
    labels != [] && (LastComesIn(rec, s, labels[0]) || LastCameIn(rec, Apply(rec, s, labels[0]), labels[1..]))
  }

  lemma RowTakesEffect(d: Disk, ended: bool, bytes: seq<byte>, fault: Fault)
    requires DiskOk(d) && DecodeFrame(bytes).Ok? && d.known == |d.chunks| && DecodeFrame(bytes).value.seqNo == |d.chunks|
    ensures |Handled(d, ended, bytes, fault).0.chunks| > |d.chunks| <==> !ended && Commits(fault)
  {
    hide DecodeFrame, DiskOk, Offset, Upto, Beyond;
  }

  lemma StepCompletes(rec: Recording, s: Sys, l: Label)
    requires SysInv(rec, s) && Can(rec, s, l) && s.disk.chunks != rec.frames
    ensures Apply(rec, s, l).disk.chunks == rec.frames <==> LastComesIn(rec, s, l)
  {
    match l
    case Connect(c, resumeFrom) => ConnectInv(rec, s, c, resumeFrom);
    case Push(c) => PushInv(rec, s, c);
    case Arrive(c, fault) =>
      if s.conns[c].wire[0].End? {
        EndInv(rec, s, c, fault);
      } else {
        AudioCompletes(rec, s, c, fault);
      }
    case Crash => DownInv(rec, s);
    case Restart => RestartInv(rec, s);
    case _ => QuietInv(rec, s, l);
  }

  lemma FrameCompletes(rec: Recording, d: Disk, ended: bool, i: nat, fault: Fault)
    requires DiskOk(d) && d.chunks <= rec.frames && d.chunks != rec.frames
    requires i < |rec.frames| && i <= d.known && Message(rec, i).Ok?
    ensures Handled(d, ended, Message(rec, i).value, fault).0.chunks == rec.frames <==>
      i == |rec.frames| - 1 && !ended && Commits(fault)
  {
    HandledFrame(rec, d, ended, i, fault);
    Numbered(rec, i);
    KnownIsIndexed(d);
    hide Handled, DiskOk, Message, DecodeFrame, Commits;
    if i == |rec.frames| - 1 {
      RowTakesEffect(d, ended, Message(rec, i).value, fault);
    }
  }

  lemma AudioCompletes(rec: Recording, s: Sys, c: nat, fault: Fault)
    requires SysInv(rec, s) && Can(rec, s, Arrive(c, fault)) && s.conns[c].wire[0].Audio? && s.disk.chunks != rec.frames
    ensures Apply(rec, s, Arrive(c, fault)).disk.chunks == rec.frames <==> LastComesIn(rec, s, Arrive(c, fault))
  {
    hide SysInv, Handled, DiskOk, Message, After, DecodeFrame, Commits;
    HeadFrame(rec, s, c);
    var i := s.conns[c].pos;
    FrameCompletes(rec, s.disk, s.ended, i, fault);
    Numbered(rec, i);
    Numbered(rec, |rec.frames| - 1);
  }

  lemma Numbered(rec: Recording, i: nat)
    requires i < |rec.frames|
    ensures var m := Message(rec, i); m.Ok? ==> DecodeFrame(m.value).Ok? && DecodeFrame(m.value).value.seqNo == i
  {
    hide EncodeFrame, DecodeFrame;
    if Message(rec, i).Ok? {
      DecodeInvertsEncode(rec.channel, i, i * rec.frameMs, rec.frames[i]);
    }
  }

  lemma {:induction false} CompletesFrom(rec: Recording, s: Sys, labels: seq<Label>)
    requires SysInv(rec, s) && Legal(rec, s, labels) && rec.frames != []
    ensures Run(rec, s, labels).disk.chunks == rec.frames <==>
      s.disk.chunks == rec.frames || LastCameIn(rec, s, labels)
    decreases |labels|
  {
    hide SysInv, LastComesIn, Apply, Can;
    NoGap(rec, s, labels);
    PrefixOfFrames(rec, Run(rec, s, labels));
    if labels != [] && s.disk.chunks != rec.frames {
      StepInv(rec, s, labels[0]);
      StepCompletes(rec, s, labels[0]);
      CompletesFrom(rec, Apply(rec, s, labels[0]), labels[1..]);
    }
  }

  lemma PrefixOfFrames(rec: Recording, s: Sys)
    requires SysInv(rec, s)
    ensures s.disk.chunks <= rec.frames
  {
  }

  /** When is everything stored? Exactly once the last frame came in, over any connection, while the
      session was open, and no fault kept its row from taking effect. It has when the server handled
      a connection's end, and when a producer has read the ack of the last frame. */
  lemma CompleteExactly(rec: Recording, labels: seq<Label>)
    requires Legal(rec, START, labels)
    ensures var t := Run(rec, START, labels);
      && (t.disk.chunks == rec.frames <==> rec.frames == [] || LastCameIn(rec, START, labels))
      && (forall c :: c in t.conns && t.conns[c].endHandled ==> t.disk.chunks == rec.frames)
      && (forall c :: c in t.conns && t.conns[c].acked.Some? && t.conns[c].acked.value == |rec.frames| - 1 ==>
           t.disk.chunks == rec.frames)
  {
    StartInv(rec);
    NoGap(rec, START, labels);
    if rec.frames != [] {
      CompletesFrom(rec, START, labels);
    }
    var t := Run(rec, START, labels);
    hide Legal, Run, Linked, DiskOk, LastCameIn;
    forall c | c in t.conns ensures ConnOk(rec, t, t.conns[c]) {
    }
  }

  // ---- what the client's belief is for ---------------------------------------------------

  /** The step writes frame `j` of connection `c`, onto its wire if it holds. */
  predicate Writes(rec: Recording, s: Sys, l: Label, c: nat, j: nat) {
    l == Push(c) && c in s.conns && s.conns[c].next == j < |rec.frames| && Message(rec, j).Ok? &&
    (s.conns[c].up ==> Apply(rec, s, l).conns[c].wire == s.conns[c].wire + [Audio(Message(rec, j).value)])
  }

  predicate Written(rec: Recording, s: Sys, labels: seq<Label>, c: nat, j: nat)
    decreases |labels|
  {
    labels != [] && (Writes(rec, s, labels[0], c, j) || Written(rec, Apply(rec, s, labels[0]), labels[1..], c, j))
  }

  lemma NextStep(rec: Recording, s: Sys, l: Label, c: nat)
    requires Can(rec, s, l) && c in s.conns && s.conns[c].next <= |rec.frames|
    ensures c in Apply(rec, s, l).conns && s.conns[c].next <= Apply(rec, s, l).conns[c].next <= |rec.frames|
    ensures forall j: nat :: s.conns[c].next <= j < Apply(rec, s, l).conns[c].next ==> Writes(rec, s, l, c, j)
  {
    hide Handled, Message, DiskOk, Reloaded;
  }

  lemma {:induction false} WrittenFrom(rec: Recording, s: Sys, labels: seq<Label>, c: nat, j: nat)
    requires Legal(rec, s, labels) && c in s.conns && s.conns[c].next <= |rec.frames|
    ensures c in Run(rec, s, labels).conns
    ensures s.conns[c].next <= j < Run(rec, s, labels).conns[c].next ==> Written(rec, s, labels, c, j)
    decreases |labels|
  {
    hide Can, Apply, Writes;
    if labels == [] {
    } else {
      NextStep(rec, s, labels[0], c);
      WrittenFrom(rec, Apply(rec, s, labels[0]), labels[1..], c, j);
    }
  }

  lemma {:induction false} RunAppend(rec: Recording, s: Sys, a: seq<Label>, b: seq<Label>)
    requires Legal(rec, s, a + b)
    ensures Legal(rec, s, a) && Legal(rec, Run(rec, s, a), b) && Run(rec, s, a + b) == Run(rec, Run(rec, s, a), b)
    decreases |a|
  {
    hide Can, Apply;
    if a == [] {
      assert a + b == b;
    } else {
      assert (a + b)[1..] == a[1..] + b;
      RunAppend(rec, Apply(rec, s, a[0]), a[1..], b);
    }
  }

  /** A connection starts where both sides are, and from there on nothing is skipped: each frame after
      the client's last ack, up to where its sending got, was written on that very connection, whether
      the server had it stored or not. */
  lemma BelievedIsResent(rec: Recording, before: seq<Label>, c: nat, resumeFrom: Option<nat>, rest: seq<Label>)
    requires Legal(rec, START, before + [Connect(c, resumeFrom)] + rest)
    ensures var s := Run(rec, START, before);
      var linked := Apply(rec, s, Connect(c, resumeFrom));
      var t := Run(rec, START, before + [Connect(c, resumeFrom)] + rest);
      && Resumes(resumeFrom, if s.disk.known == 0 then None else Some(s.disk.known - 1), linked.conns[c].next)
      && c in t.conns
      && forall j: nat :: (resumeFrom.Some? ==> resumeFrom.value < j) && j < t.conns[c].next ==>
           Written(rec, linked, rest, c, j)
  {
    var s, l := Run(rec, START, before), Connect(c, resumeFrom);
    var linked := Apply(rec, s, l);
    assert before + [l] + rest == before + ([l] + rest);
    RunAppend(rec, START, before, [l] + rest);
    assert ([l] + rest)[1..] == rest;
    StartInv(rec);
    NoGap(rec, START, before);
    ConnectInv(rec, s, c, resumeFrom);
    ConnectStart(rec, s, c, resumeFrom);
    hide Legal, Run, Apply, Written, SysInv;
    WrittenFrom(rec, linked, rest, c, 0);
    forall j: nat | (resumeFrom.Some? ==> resumeFrom.value < j) && j < Run(rec, linked, rest).conns[c].next
      ensures Written(rec, linked, rest, c, j)
    {
      WrittenFrom(rec, linked, rest, c, j);
    }
  }

  lemma ConnectStart(rec: Recording, s: Sys, c: nat, resumeFrom: Option<nat>)
    requires SysInv(rec, s)
    ensures var k := Apply(rec, s, Connect(c, resumeFrom)).conns[c];
      && Resumes(resumeFrom, if s.disk.known == 0 then None else Some(s.disk.known - 1), k.next)
      && k.next <= |rec.frames| && (resumeFrom.Some? ==> k.next <= resumeFrom.value + 1) && (resumeFrom.None? ==> k.next == 0)
  {
    KnownIsIndexed(s.disk);
    hide DiskOk;
  }

  // ---- a run that returns and has lost frames ---------------------------------------------

  ghost predicate Reaches(rec: Recording, s: Sys) {
    exists u :: Legal(rec, START, u) && Run(rec, START, u) == s
  }

  lemma {:induction false} RunSnoc(rec: Recording, s: Sys, labels: seq<Label>, l: Label)
    requires Legal(rec, s, labels) && Can(rec, Run(rec, s, labels), l)
    ensures Legal(rec, s, labels + [l]) && Run(rec, s, labels + [l]) == Apply(rec, Run(rec, s, labels), l)
    decreases |labels|
  {
    hide Can, Apply;
    if labels == [] {
      assert labels + [l] == [l] && [l][1..] == [];
    } else {
      assert (labels + [l])[1..] == labels[1..] + [l];
      RunSnoc(rec, Apply(rec, s, labels[0]), labels[1..], l);
    }
  }

  lemma Next(rec: Recording, s: Sys, l: Label)
    requires Reaches(rec, s) && Can(rec, s, l)
    ensures Reaches(rec, Apply(rec, s, l))
  {
    hide Can, Apply;
    var u :| Legal(rec, START, u) && Run(rec, START, u) == s;
    RunSnoc(rec, START, u, l);
  }

  /** The connection went down before anything arrived, and the producer has written `n` frames. */
  function Unheard(n: nat, endSent: bool, phase: Phase): Sys {
    START.(conns := map[0 := Conn(n, endSent, None, phase, [], false, 0, false)])
  }

  lemma {:induction false} WritesOn(rec: Recording, n: nat)
    requires n <= |rec.frames| && Encodable(rec, 0, |rec.frames|)
    ensures Reaches(rec, Unheard(n, false, Running))
  {
    hide Reaches, Message;
    if n == 0 {
      StartReached(rec);
      Next(rec, START, Connect(0, None));
      Next(rec, Apply(rec, START, Connect(0, None)), Lose(0));
      assert Apply(rec, Apply(rec, START, Connect(0, None)), Lose(0)).conns == Unheard(0, false, Running).conns;
    } else {
      WritesOn(rec, n - 1);
      Next(rec, Unheard(n - 1, false, Running), Push(0));
      assert Apply(rec, Unheard(n - 1, false, Running), Push(0)).conns == Unheard(n, false, Running).conns;
    }
  }

  lemma StartReached(rec: Recording)
    ensures Reaches(rec, START)
  {
    assert Legal(rec, START, []) && Run(rec, START, []) == START;
  }

  /** `run` can return, its last message sent and no error raised, with not one frame stored: a
      connection that is lost under it closes the reader just as the server's own close does. That
      takes a recording short enough to be sent before the library notices the loss, by a keepalive
      or a full buffer: from then on a send raises, which is `Raise`. */
  lemma ReturnsWithNothingStored(rec: Recording) returns (t: Sys)
    requires Encodable(rec, 0, |rec.frames|)
    ensures Reaches(rec, t) && t.conns.Keys == {0} && t.conns[0].phase == Returned && AllSent(rec, t.conns[0])
    ensures t.disk.chunks == []
  {
    hide Reaches, Message;
    var n := |rec.frames|;
    WritesOn(rec, n);
    if rec.end {
      Next(rec, Unheard(n, false, Running), Push(0));
      assert Apply(rec, Unheard(n, false, Running), Push(0)).conns == Unheard(n, true, Running).conns;
    }
    Next(rec, Unheard(n, rec.end, Running), Return(0));
    t := Unheard(n, rec.end, Returned);
    assert t == Apply(rec, Unheard(n, rec.end, Running), Return(0));
  }

  // ---- the file --------------------------------------------------------------------------

  /** Index and file are in step; while the server is down, as far as the next `load` needs. */
  predicate Sound(s: Sys) {
    if s.live then Clean(s.disk)
    else Agree(s.disk) && Reloaded(s.disk).Some? && Clean(Reloaded(s.disk).value)
  }

  /** A frame about to be stored meets a fault that leaves file and index out of step. */
  predicate Hits(d: Disk, ended: bool, bytes: seq<byte>, fault: Fault) {
    !ended && Dirties(fault) && DecodeFrame(bytes).Ok? && Accept(d.known, DecodeFrame(bytes).value.seqNo) == Stored
  }

  predicate Hurts(s: Sys, l: Label) {
    l.Arrive? && l.c in s.conns && s.conns[l.c].wire != [] && s.conns[l.c].wire[0].Audio? &&
    Hits(s.disk, s.ended, s.conns[l.c].wire[0].bytes, l.fault)
  }

  lemma StepSound(rec: Recording, s: Sys, l: Label)
    requires SysInv(rec, s) && Can(rec, s, l) && Sound(s)
    ensures Sound(Apply(rec, s, l)) <==> !Hurts(s, l)
  {
    match l
    case Arrive(c, fault) =>
      assert ConnOk(rec, s, s.conns[c]) && s.live;
      if s.conns[c].wire[0].Audio? {
        AudioSound(s, c, fault, rec);
      }
    case Crash =>
      CleanReloads(s.disk);
      assert s.disk.(pending := []) == s.disk;
    case _ =>
      hide Reloaded, Clean, Agree;
  }

  lemma CleanReloads(d: Disk)
    requires Clean(d)
    ensures Agree(d) && Reloaded(d) == Some(d)
  {
    assert d.file[..|d.file|] == d.file;
  }

  lemma AudioSound(s: Sys, c: nat, fault: Fault, rec: Recording)
    requires s.live && Clean(s.disk) && DiskOk(s.disk) && c in s.conns && s.conns[c].wire != [] && s.conns[c].wire[0].Audio?
    ensures Sound(Apply(rec, s, Arrive(c, fault))) <==> !Hurts(s, Arrive(c, fault))
  {
    hide Handled, Hits, After, Cut, Clean, Agree, Reloaded, DiskOk;
    FrameSound(s.disk, s.ended, s.conns[c].wire[0].bytes, fault);
  }

  lemma FrameSound(d: Disk, ended: bool, bytes: seq<byte>, fault: Fault)
    requires Clean(d) && DiskOk(d)
    ensures var (e, o) := Handled(d, ended, bytes, fault);
      && (o != Some(Died) ==> (Clean(e) <==> !Hits(d, ended, bytes, fault)))
      && (o == Some(Died) ==>
           && e.(pending := []) == e && !Hits(d, ended, bytes, fault)
           && Agree(e) && Reloaded(e).Some? && Clean(Reloaded(e).value))
  {
    var f := DecodeFrame(bytes);
    PayloadNotEmpty(bytes);
    hide DecodeFrame, Clean, Agree, Reloaded, Dirties, DiskOk, Put;
    if f.Ok? && !ended && Accept(d.known, f.value.seqNo) == Stored {
      PutClean(d, f.value.pcm, fault);
      DeadHasNothingPending(d, f.value.pcm, fault);
    }
  }

  lemma PayloadNotEmpty(bytes: seq<byte>)
    ensures DecodeFrame(bytes).Ok? ==> DecodeFrame(bytes).value.pcm != []
  {
  }

  /** A process that dies takes its buffer along, so the disk is as `Put` leaves it. */
  lemma DeadHasNothingPending(d: Disk, pcm: seq<byte>, fault: Fault)
    requires DiskOk(d)
    ensures var (e, o) := Put(d, pcm, fault);
      && (o == Died ==> e.(pending := []) == e) && (Dirties(fault) ==> o != Died)
  {
    hide DiskOk;
  }

  /** At every moment of the run. */
  predicate AlwaysSound(rec: Recording, s: Sys, labels: seq<Label>)
    decreases |labels|
  {
    Sound(s) && (labels == [] || AlwaysSound(rec, Apply(rec, s, labels[0]), labels[1..]))
  }

  predicate NeverHurt(rec: Recording, s: Sys, labels: seq<Label>)
    decreases |labels|
  {
    labels == [] || (!Hurts(s, labels[0]) && NeverHurt(rec, Apply(rec, s, labels[0]), labels[1..]))
  }

  /** File and index stay in step through a run exactly if no frame being stored meets a write that
      raises part way, a commit that takes effect and raises, or an undo that raises. */
  lemma {:induction false} SoundExactly(rec: Recording, s: Sys, labels: seq<Label>)
    requires SysInv(rec, s) && Legal(rec, s, labels) && Sound(s)
    ensures AlwaysSound(rec, s, labels) <==> NeverHurt(rec, s, labels)
    ensures NeverHurt(rec, s, labels) ==> Sound(Run(rec, s, labels))
    decreases |labels|
  {
    hide SysInv, Sound, Hurts, Apply;
    if labels == [] {
    } else {
      StepSound(rec, s, labels[0]);
      StepInv(rec, s, labels[0]);
      NotAlways(rec, Apply(rec, s, labels[0]), labels[1..]);
      if Sound(Apply(rec, s, labels[0])) {
        SoundExactly(rec, Apply(rec, s, labels[0]), labels[1..]);
      }
    }
  }

  lemma NotAlways(rec: Recording, s: Sys, labels: seq<Label>)
    ensures AlwaysSound(rec, s, labels) ==> Sound(s)
  {
  }

  /** In bytes: through such a run the file begins with the indexed audio and, while the server is up,
      is just that; and that is a beginning of the recording with its closing zeros, and all of it once
      an end was handled. */
  lemma FileIsTheRecording(pcm: seq<byte>, frameMs: nat, channel: int, end: bool, labels: seq<Label>) returns (pad: nat)
    requires frameMs > 0
    requires var rec := Recording(Split(pcm, frameMs), channel, frameMs, end);
      Legal(rec, START, labels) && NeverHurt(rec, START, labels)
    ensures pad < MIN_PAYLOAD
    ensures var t := Run(Recording(Split(pcm, frameMs), channel, frameMs, end), START, labels);
      && Concat(t.disk.chunks) <= t.disk.file && (t.live ==> t.disk.file == Concat(t.disk.chunks))
      && Concat(t.disk.chunks) <= pcm + Zeros(pad)
      && forall c :: c in t.conns && t.conns[c].endHandled ==> Concat(t.disk.chunks) == pcm + Zeros(pad)
  {
    var rec := Recording(Split(pcm, frameMs), channel, frameMs, end);
    StartInv(rec);
    NoGap(rec, START, labels);
    SoundExactly(rec, START, labels);
    CompleteExactly(rec, labels);
    var t := Run(rec, START, labels);
    pad := SplitKeepsAudio(pcm, frameMs);
    hide Legal, Run, NeverHurt, AlwaysSound, Split, Concat;
    assert t.disk.chunks == rec.frames[..|t.disk.chunks|];
    ConcatPrefix(rec.frames, |t.disk.chunks|);
  }
}
