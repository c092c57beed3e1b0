/** What holds over every run of producers and server: no gap, nothing missing once an end was
    handled, and exactly when a run that returned has left everything stored. */
module ResumeSafety {
  import opened Options
  import opened Bytes
  import opened Frames
  import opened AudioStore
  import opened Resume

  /** The messages from frame `from` up to frame `to`, and the end behind them. */
  function Wire(rec: Recording, from: nat, to: nat, end: bool): seq<Msg>
    requires from <= to <= |rec.frames|
    decreases |rec.frames| - from
  {
    if from == to then if end then [End] else []
    else [Audio(if Message(rec, from).Ok? then Message(rec, from).value else [])] + Wire(rec, from + 1, to, end)
  }

  ghost predicate Encodable(rec: Recording, from: nat, to: nat) {
    forall i :: from <= i < to <= |rec.frames| ==> Message(rec, i).Ok?
  }

  /** A connection that holds: the server knows everything before what is on the wire, and there, in
      order, is all the rest that was sent. */
  ghost predicate Linked(rec: Recording, d: Disk, k: Conn) {
    && k.pos <= d.known && k.pos <= k.next <= |rec.frames| && (k.endSent ==> k.next == |rec.frames|)
    && Encodable(rec, k.pos, k.next) && k.wire == Wire(rec, k.pos, k.next, k.endSent)
  }

  ghost predicate ConnOk(rec: Recording, s: Sys, k: Conn) {
    && k.pos <= |s.disk.chunks|
    && (if k.up then s.live && Linked(rec, s.disk, k) else k.wire == [])
    && (k.endHandled ==> s.disk.chunks == rec.frames)
    && (k.acked.Some? ==> k.acked.value < |s.disk.chunks|)
  }

  /** Some connection has got as far as the index goes. */
  ghost predicate Reached(s: Sys) {
    s.disk.chunks == [] || exists c :: c in s.conns && s.conns[c].pos == |s.disk.chunks|
  }

  ghost predicate SysInv(rec: Recording, s: Sys) {
    && DiskOk(s.disk) && s.disk.chunks <= rec.frames && Reached(s)
    && forall c :: c in s.conns ==> ConnOk(rec, s, s.conns[c])
  }

  lemma {:induction false} WirePush(rec: Recording, from: nat, to: nat)
    requires from <= to < |rec.frames| && Message(rec, to).Ok?
    ensures Wire(rec, from, to + 1, false) == Wire(rec, from, to, false) + [Audio(Message(rec, to).value)]
    decreases |rec.frames| - from
  {
    hide Message;
    if from < to {
      WirePush(rec, from + 1, to);
    } else {
      assert Wire(rec, to + 1, to + 1, false) == [];
    }
  }

  lemma {:induction false} WireEnd(rec: Recording, from: nat, to: nat)
    requires from <= to <= |rec.frames|
    ensures Wire(rec, from, to, true) == Wire(rec, from, to, false) + [End]
    decreases |rec.frames| - from
  {
    hide Message;
    if from == to {
    } else {
      WireEnd(rec, from + 1, to);
    }
  }

  /** What is at the front of a wire: the frame the server expects, or, once there is none, the end. */
  lemma WireHead(rec: Recording, k: Conn)
    requires k.pos <= k.next <= |rec.frames| && k.wire == Wire(rec, k.pos, k.next, k.endSent) && k.wire != []
    requires Encodable(rec, k.pos, k.next)
    ensures k.wire[0].End? <==> k.pos == k.next
    ensures k.pos < k.next ==>
      k.wire[0] == Audio(Message(rec, k.pos).value) && Message(rec, k.pos).Ok? &&
      k.wire[1..] == Wire(rec, k.pos + 1, k.next, k.endSent)
  {
    hide Message;
  }

  /** A message off the wire, as the store takes it: nothing that arrives is a gap, and only the next
      frame of the recording is ever indexed. */
  lemma HandledFrame(rec: Recording, d: Disk, ended: bool, i: nat, fault: Fault)
    requires DiskOk(d) && d.chunks <= rec.frames && i < |rec.frames| && i <= d.known && Message(rec, i).Ok?
    ensures var (e, o) := Handled(d, ended, Message(rec, i).value, fault);
      && DiskOk(e) && d.chunks <= e.chunks <= rec.frames && d.known <= e.known && o.Some? && !o.value.SeqGap?
      && (o == Some(Stored) || |e.chunks| > |d.chunks| ==> i == |d.chunks| && |e.chunks| == i + 1)
      && (o == Some(Stored) ==> e.known == i + 1)
      && (o == Some(Duplicate) ==> i < d.known && e == d)
  {
    hide DecodeFrame, EncodeFrame, DiskOk, Put;
    DecodeInvertsEncode(rec.channel, i, i * rec.frameMs, rec.frames[i]);
    if !ended && i == d.known {
      PutIndexes(d, rec.frames[i], fault);
      NextFrame(d, rec.frames, i);
    }
  }

  /** Only a frame stored next can grow the index. */
  lemma PutIndexes(d: Disk, pcm: seq<byte>, fault: Fault)
    requires DiskOk(d)
    ensures var (e, o) := Put(d, pcm, fault);
      && DiskOk(e) && d.known <= e.known && (e.chunks == d.chunks || e.chunks == d.chunks + [pcm])
      && (o == Stored || |e.chunks| > |d.chunks| ==> d.known == |d.chunks| && e.chunks == d.chunks + [pcm])
      && (o == Stored ==> e.known == d.known + 1) && !o.SeqGap? && !o.Duplicate?
  {
    PutOk(d, pcm, fault);
    hide Offset, Upto, Beyond;
  }

  lemma NextFrame(d: Disk, frames: seq<seq<byte>>, i: nat)
    requires d.chunks <= frames && i < |frames|
    ensures i == |d.chunks| ==> d.chunks + [frames[i]] <= frames
  {
  }

  // ---- every step ------------------------------------------------------------------------

  /** All but the connections at `c` are fine, after the index grew at most. */
  lemma OthersOk(rec: Recording, s: Sys, t: Sys, c: nat)
    requires SysInv(rec, s) && DiskOk(t.disk)
    requires s.disk.chunks <= t.disk.chunks <= rec.frames && s.disk.known <= t.disk.known && (s.live ==> t.live)
    requires t.conns.Keys == s.conns.Keys + {c} && forall x :: x in s.conns && x != c ==> t.conns[x] == s.conns[x]
    requires ConnOk(rec, t, t.conns[c])
    requires |t.disk.chunks| > |s.disk.chunks| ==> t.conns[c].pos == |t.disk.chunks|
    requires c in s.conns ==> t.conns[c].pos >= s.conns[c].pos
    ensures SysInv(rec, t) && s.disk.chunks <= t.disk.chunks
  {
    hide DiskOk, Linked;
    forall x | x in t.conns ensures ConnOk(rec, t, t.conns[x]) {
      if x != c {
        assert ConnOk(rec, s, s.conns[x]);
        StillLinked(rec, s.disk, t.disk, s.conns[x]);
      }
    }
    if |t.disk.chunks| > |s.disk.chunks| {
      assert t.conns[c].pos == |t.disk.chunks|;
    } else if t.disk.chunks != [] {
      assert t.disk.chunks == s.disk.chunks;
      var x :| x in s.conns && s.conns[x].pos == |s.disk.chunks|;
      assert t.conns[x].pos == |t.disk.chunks|;
    }
  }

  lemma StillLinked(rec: Recording, d: Disk, e: Disk, k: Conn)
    requires d.known <= e.known
    ensures Linked(rec, d, k) ==> Linked(rec, e, k)
  {
  }

  lemma ArriveInv(rec: Recording, s: Sys, c: nat, fault: Fault)
    requires SysInv(rec, s) && Can(rec, s, Arrive(c, fault)) && s.conns[c].wire[0].Audio?
    ensures var t := Apply(rec, s, Arrive(c, fault)); SysInv(rec, t) && s.disk.chunks <= t.disk.chunks
  {
    hide Handled, DiskOk, Message, Encodable, Wire, After, Linked;
    var k := s.conns[c];
    HeadFrame(rec, s, c);
    HandledFrame(rec, s.disk, s.ended, k.pos, fault);
    hide ConnOk;
    var r := Handled(s.disk, s.ended, k.wire[0].bytes, fault);
    var t := s.(disk := r.0, conns := s.conns[c := After(k, |r.0.chunks| > |s.disk.chunks|, r.1)]);
    HandledConn(rec, s, r.0, k, r.1);
    OthersOk(rec, s, t, c);
    if r.1 == Some(Died) {
      DownInv(rec, t);
    }
  }

  lemma HeadFrame(rec: Recording, s: Sys, c: nat)
    requires SysInv(rec, s) && c in s.conns && s.conns[c].up && s.conns[c].wire != [] && s.conns[c].wire[0].Audio?
    ensures DiskOk(s.disk) && s.disk.chunks <= rec.frames && ConnOk(rec, s, s.conns[c]) && s.live
    ensures var k := s.conns[c];
      && k.pos < k.next <= |rec.frames| && k.pos <= s.disk.known && Message(rec, k.pos).Ok?
      && k.wire[0] == Audio(Message(rec, k.pos).value) && k.wire[1..] == Wire(rec, k.pos + 1, k.next, k.endSent)
  {
    hide DiskOk, Message, Wire;
    assert ConnOk(rec, s, s.conns[c]) && Linked(rec, s.disk, s.conns[c]);
    WireHead(rec, s.conns[c]);
  }

  /** The connection a frame came over is fine afterwards, however the frame was handled. */
  lemma HandledConn(rec: Recording, s: Sys, e: Disk, k: Conn, o: Option<Outcome>)
    requires ConnOk(rec, s, k) && k.up && k.pos < k.next && k.wire != [] && k.wire[1..] == Wire(rec, k.pos + 1, k.next, k.endSent)
    requires DiskOk(e) && s.disk.chunks <= e.chunks <= rec.frames && s.disk.known <= e.known
    requires o == Some(Stored) || |e.chunks| > |s.disk.chunks| ==> k.pos == |s.disk.chunks| && |e.chunks| == k.pos + 1
    requires o == Some(Stored) ==> e.known == k.pos + 1
    requires o == Some(Duplicate) ==> k.pos < s.disk.known && e == s.disk
    ensures var j := After(k, |e.chunks| > |s.disk.chunks|, o);
      ConnOk(rec, s.(disk := e), j) && j.pos >= k.pos && (|e.chunks| > |s.disk.chunks| ==> j.pos == |e.chunks|)
  {
    hide Linked, DiskOk;
    assert k.endHandled ==> e.chunks == rec.frames;
    if o == Some(Stored) || o == Some(Duplicate) {
      KeptConn(rec, s.disk, e, k, |e.chunks| > |s.disk.chunks|, o);
    }
  }

  lemma KeptConn(rec: Recording, d: Disk, e: Disk, k: Conn, grown: bool, o: Option<Outcome>)
    requires Linked(rec, d, k) && k.pos < k.next && k.wire != [] && k.wire[1..] == Wire(rec, k.pos + 1, k.next, k.endSent)
    requires k.pos < e.known && DiskOk(e) && (o == Some(Duplicate) || (grown && o == Some(Stored)))
    ensures Linked(rec, e, After(k, grown, o)) && k.pos < |e.chunks|
  {
    EncodableFrom(rec, k.pos, k.next);
    hide Encodable, Wire, Message;
    KnownIsIndexed(e);
  }

  lemma EncodableFrom(rec: Recording, from: nat, to: nat)
    requires Encodable(rec, from, to)
    ensures Encodable(rec, from + 1, to)
  {
  }

  lemma DownInv(rec: Recording, s: Sys)
    requires SysInv(rec, s)
    ensures SysInv(rec, Down(s)) && Down(s).disk.chunks == s.disk.chunks
  {
    var t := Down(s);
    hide Linked;
    forall c | c in t.conns ensures ConnOk(rec, t, t.conns[c]) {
      assert ConnOk(rec, s, s.conns[c]);
    }
    if s.disk.chunks != [] {
      var c :| c in s.conns && s.conns[c].pos == |s.disk.chunks|;
      assert t.conns[c].pos == |t.disk.chunks|;
    }
  }

  /** When the server handles a connection's end, everything is stored. */
  lemma EndInv(rec: Recording, s: Sys, c: nat, fault: Fault)
    requires SysInv(rec, s) && Can(rec, s, Arrive(c, fault)) && s.conns[c].wire[0].End?
    ensures var t := Apply(rec, s, Arrive(c, fault)); SysInv(rec, t) && t.disk.chunks == s.disk.chunks == rec.frames
  {
    var k := s.conns[c];
    assert ConnOk(rec, s, k) && Linked(rec, s.disk, k);
    WireHead(rec, k);
    EndOnWire(rec, k.pos, k.next, k.endSent);
    var t := Apply(rec, s, Arrive(c, fault));
    assert s.disk.chunks == rec.frames;
    FlushedOk(s.disk);
    hide DiskOk, Linked, Encodable, Flushed;
    OthersOk(rec, s, t, c);
  }

  lemma {:induction false} EndOnWire(rec: Recording, from: nat, to: nat, end: bool)
    requires from <= to <= |rec.frames| && from == to && Wire(rec, from, to, end) != []
    ensures end
  {
  }

  lemma PushInv(rec: Recording, s: Sys, c: nat)
    requires SysInv(rec, s) && Can(rec, s, Push(c))
    ensures var t := Apply(rec, s, Push(c)); SysInv(rec, t) && t.disk == s.disk
  {
    var k := s.conns[c];
    assert ConnOk(rec, s, k);
    hide DiskOk, Message;
    if k.up {
      PushLinked(rec, s.disk, k);
    }
    hide Linked;
    OthersOk(rec, s, Apply(rec, s, Push(c)), c);
  }

  lemma PushLinked(rec: Recording, d: Disk, k: Conn)
    requires k.up && Linked(rec, d, k) && !AllSent(rec, k) && (k.next < |rec.frames| ==> Message(rec, k.next).Ok?)
    ensures Linked(rec, d, Pushed(rec, k))
  {
    hide Message, Wire;
    if k.next < |rec.frames| {
      WirePush(rec, k.pos, k.next);
    } else {
      WireEnd(rec, k.pos, k.next);
    }
  }

  lemma RestartInv(rec: Recording, s: Sys)
    requires SysInv(rec, s) && Can(rec, s, Restart)
    ensures var t := Apply(rec, s, Restart); SysInv(rec, t) && t.disk.chunks == s.disk.chunks
  {
    ReloadedOk(s.disk);
    var t := Apply(rec, s, Restart);
    hide DiskOk, Linked;
    forall c | c in t.conns ensures ConnOk(rec, t, t.conns[c]) {
      assert ConnOk(rec, s, s.conns[c]);
    }
    if s.disk.chunks != [] {
      var c :| c in s.conns && s.conns[c].pos == |s.disk.chunks|;
      assert t.conns[c].pos == |t.disk.chunks|;
    }
  }

  lemma ConnectInv(rec: Recording, s: Sys, c: nat, resumeFrom: Option<nat>)
    requires SysInv(rec, s) && Can(rec, s, Connect(c, resumeFrom))
    ensures var t := Apply(rec, s, Connect(c, resumeFrom)); SysInv(rec, t) && t.disk == s.disk
  {
    var t := Apply(rec, s, Connect(c, resumeFrom));
    assert Linked(rec, t.disk, t.conns[c]) by {
      assert Wire(rec, t.conns[c].pos, t.conns[c].next, false) == [];
    }
    hide Linked;
    assert ConnOk(rec, t, t.conns[c]);
    OthersOk(rec, s, t, c);
  }

  /** No step breaks it, and nothing stored is lost again. */
  lemma StepInv(rec: Recording, s: Sys, l: Label)
    requires SysInv(rec, s) && Can(rec, s, l)
    ensures SysInv(rec, Apply(rec, s, l)) && s.disk.chunks <= Apply(rec, s, l).disk.chunks
  {
    match l
    case Connect(c, resumeFrom) => ConnectInv(rec, s, c, resumeFrom);
    case Push(c) => PushInv(rec, s, c);
    case Arrive(c, fault) =>
      if s.conns[c].wire[0].End? {
        EndInv(rec, s, c, fault);
      } else {
        ArriveInv(rec, s, c, fault);
      }
    case Crash => DownInv(rec, s);
    case Restart => RestartInv(rec, s);
    case _ => QuietInv(rec, s, l);
  }

  lemma QuietInv(rec: Recording, s: Sys, l: Label)
    requires SysInv(rec, s) && Can(rec, s, l) && (l.Ack? || l.Lose? || l.Raise? || l.Return? || l.Stop?)
    ensures SysInv(rec, Apply(rec, s, l)) && Apply(rec, s, l).disk.chunks == s.disk.chunks
  {
    hide DiskOk, Linked;
    var t := Apply(rec, s, l);
    if l.Stop? {
      StopInv(rec, s);
    } else {
      assert ConnOk(rec, s, s.conns[l.c]);
      KnownIsIndexed(s.disk);
      StillLinked(rec, s.disk, t.disk, s.conns[l.c]);
      if t.conns[l.c].up {
        SameLinked(rec, s.disk, s.conns[l.c], t.conns[l.c]);
      }
      OthersOk(rec, s, t, l.c);
    }
  }

  lemma StopInv(rec: Recording, s: Sys)
    requires SysInv(rec, s)
    ensures SysInv(rec, Apply(rec, s, Stop))
  {
    FlushedOk(s.disk);
    hide DiskOk, Linked, Flushed;
    var t := Apply(rec, s, Stop);
    forall c | c in t.conns ensures ConnOk(rec, t, t.conns[c]) {
      assert ConnOk(rec, s, s.conns[c]);
      StillLinked(rec, s.disk, t.disk, s.conns[c]);
    }
    if s.disk.chunks != [] {
      var c :| c in s.conns && s.conns[c].pos == |s.disk.chunks|;
      assert t.conns[c].pos == |t.disk.chunks|;
    }
  }

  lemma KnownIsIndexed(d: Disk)
    requires DiskOk(d)
    ensures d.known <= |d.chunks|
  {
  }

  lemma SameLinked(rec: Recording, d: Disk, k: Conn, e: Conn)
    requires e.next == k.next && e.endSent == k.endSent && e.wire == k.wire && e.pos == k.pos
    ensures Linked(rec, d, k) ==> Linked(rec, d, e)
  {
  }
}
