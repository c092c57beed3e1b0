/** Sending a recording over connections that break (server/src/jarvis_live/replay.py) to a server
    whose store may itself fail (server/src/jarvis_live/ingest/store.py). What is sent and what has
    arrived are two things: between them lies each connection's wire. */
module Resume {
  import opened Options
  import opened Bytes
  import opened Frames
  import opened AudioStore

  /** What a producer sends: the frames, and whether it ends the session with them. */
  datatype Recording = Recording(frames: seq<seq<byte>>, channel: int, frameMs: nat, end: bool)

  /** Where a connection starts sending: one past the smaller of the two acks, or from scratch. */
  function FirstSeq(resumeFrom: Option<nat>, serverAcked: Option<nat>): nat {
    if resumeFrom.None? || serverAcked.None? then 0
    else if resumeFrom.value < serverAcked.value then resumeFrom.value + 1
    else serverAcked.value + 1
  }

  /** Both sides have everything before frame `first` acked, and one of them no more; where a side has
      nothing, that is the start. */
  predicate Resumes(resumeFrom: Option<nat>, serverAcked: Option<nat>, first: nat) {
    if resumeFrom.None? || serverAcked.None? then first == 0
    else
      && first <= resumeFrom.value + 1 && first <= serverAcked.value + 1
      && (first > resumeFrom.value || first > serverAcked.value)
  }

  function Message(rec: Recording, i: nat): Result<seq<byte>>
    requires i < |rec.frames|
  {
    EncodeFrame(rec.channel, i, i * rec.frameMs, rec.frames[i])
  }

  datatype SendEnd = Finished | Aborted | Unencodable

  /** The send loop of `ReplayProducer.run`. It writes consecutive frames from where both sides are, and
      stops early only where told to or at a frame that cannot be encoded. */
  method Send(rec: Recording, resumeFrom: Option<nat>, serverAcked: Option<nat>, abortAfter: Option<nat>)
    returns (start: nat, wire: seq<seq<byte>>, end: SendEnd)
    ensures Resumes(resumeFrom, serverAcked, start)
    ensures
      && (wire != [] ==> start + |wire| <= |rec.frames|)
      && (forall i :: 0 <= i < |wire| ==> Message(rec, start + i) == Ok(wire[i]))
      && (end == Finished ==> start + |wire| >= |rec.frames|)
      && (end == Aborted ==> abortAfter == Some(|wire|) && start + |wire| < |rec.frames|)
      && (end == Unencodable ==> start + |wire| < |rec.frames| && Message(rec, start + |wire|).Err?)
  {
    start := FirstSeq(resumeFrom, serverAcked);
    wire, end := [], Finished;
    var sent, seqNo := 0, start;
    while seqNo < |rec.frames|
      invariant sent == |wire| && seqNo == start + |wire| && (wire != [] ==> seqNo <= |rec.frames|)
      invariant forall i :: 0 <= i < |wire| ==> Message(rec, start + i) == Ok(wire[i])
      invariant abortAfter.Some? ==> sent <= abortAfter.value
    {
      if abortAfter.Some? && sent >= abortAfter.value {
        return start, wire, Aborted;
      }
      var message := EncodeFrame(rec.channel, seqNo, seqNo * rec.frameMs, rec.frames[seqNo]);
      if message.Err? {
        return start, wire, Unencodable;
      }
      wire := wire + [message.value];
      sent, seqNo := sent + 1, seqNo + 1;
    }
  }

  // ---- the system ------------------------------------------------------------------------

  datatype Msg = Audio(bytes: seq<byte>) | End
  datatype Phase = Running | Returned | Raised

  /** One run of a producer. On its side: the frame it sends next, whether it has sent the end, the
      last ack it read, and how the run came out. Between: what is on the wire, and whether the
      connection holds. On the server's side: how many frames are known to be stored from what came
      over it, and whether its end was handled. */
  datatype Conn = Conn(next: nat, endSent: bool, acked: Option<nat>, phase: Phase, wire: seq<Msg>, up: bool,
    pos: nat, endHandled: bool)

  datatype Sys = Sys(disk: Disk, live: bool, ended: bool, conns: map<nat, Conn>)

  const START := Sys(EMPTY, true, false, map[])

  datatype Label =
    | Connect(c: nat, resumeFrom: Option<nat>)
    | Push(c: nat)                   // the producer writes its next message, or into a dead socket
    | Arrive(c: nat, fault: Fault)   // the server takes the next message off the wire
    | Ack(c: nat, n: nat)            // the producer reads an ack
    | Lose(c: nat)                   // the connection is lost, with what is on the wire
    | Raise(c: nat)                  // the run is aborted, or a send raises
    | Return(c: nat)                 // the reader is done: the socket is closed, by whom ever
    | Stop                           // the session is ended from elsewhere
    | Crash
    | Restart

  function Cursor(d: Disk): Option<nat> { if d.known == 0 then None else Some(d.known - 1) }

  /** `run` has nothing more to send. */
  predicate AllSent(rec: Recording, k: Conn) { k.next >= |rec.frames| && (rec.end ==> k.endSent) }

  predicate Can(rec: Recording, s: Sys, l: Label) {
    match l
    case Connect(c, _) => c !in s.conns && s.live && !s.ended
    case Push(c) =>
      && c in s.conns && s.conns[c].phase == Running && !AllSent(rec, s.conns[c])
      && (s.conns[c].next < |rec.frames| ==> Message(rec, s.conns[c].next).Ok?)
    case Arrive(c, _) => c in s.conns && s.conns[c].up && s.conns[c].wire != []
    case Ack(c, n) => c in s.conns && s.conns[c].phase == Running && n < s.disk.known
    case Lose(c) => c in s.conns && s.conns[c].up
    case Raise(c) => c in s.conns && s.conns[c].phase == Running
    case Return(c) => c in s.conns && s.conns[c].phase == Running && AllSent(rec, s.conns[c]) && !s.conns[c].up
    case Stop => true
    case Crash => s.live
    case Restart => !s.live && Reloaded(s.disk).Some?
  }

  function Cut(k: Conn): Conn { k.(wire := [], up := false) }

  function Pushed(rec: Recording, k: Conn): Conn {
    if k.next < |rec.frames| then
      var m := Message(rec, k.next);
      k.(next := k.next + 1, wire := if k.up && m.Ok? then k.wire + [Audio(m.value)] else k.wire)
    else k.(endSent := true, wire := if k.up then k.wire + [End] else k.wire)
  }

  /** The server's handling of one audio message: the new disk, and the outcome, or None for bytes
      that are no frame. */
  function Handled(d: Disk, ended: bool, bytes: seq<byte>, fault: Fault): (Disk, Option<Outcome>)
    requires DiskOk(d)
  {
    var f := DecodeFrame(bytes);
    if f.Err? then (d, None)
    else if ended then (d, Some(StoreClosed))
    else if Accept(d.known, f.value.seqNo) != Stored then (d, Some(Accept(d.known, f.value.seqNo)))
    else var (e, o) := Put(d, f.value.pcm, fault); (e, Some(o))
  }

  /** How a connection goes on after a message was handled so: a duplicate and a stored frame keep it,
      anything else ends it; a frame that was indexed counts either way. */
  function After(k: Conn, grown: bool, outcome: Option<Outcome>): Conn {
    var counted := k.(pos := if grown || outcome == Some(Duplicate) then k.pos + 1 else k.pos);
    if outcome == Some(Stored) || outcome == Some(Duplicate) then counted.(wire := k.wire[if k.wire == [] then 0 else 1..])
    else Cut(counted)
  }

  function Down(s: Sys): Sys {
    s.(live := false, disk := s.disk.(pending := []), conns := map c | c in s.conns :: Cut(s.conns[c]))
  }

  function Apply(rec: Recording, s: Sys, l: Label): Sys {
    match l
    case Connect(c, resumeFrom) =>
      var first := FirstSeq(resumeFrom, Cursor(s.disk));
      s.(conns := s.conns[c := Conn(first, false, None, Running, [], true, first, false)])
    case Push(c) => if c in s.conns then s.(conns := s.conns[c := Pushed(rec, s.conns[c])]) else s
    case Arrive(c, fault) =>
      if c !in s.conns || s.conns[c].wire == [] || !DiskOk(s.disk) then s
      else if s.conns[c].wire[0].End? then
        s.(ended := true, disk := Flushed(s.disk), conns := s.conns[c := Cut(s.conns[c]).(endHandled := true)])
      else
        var r := Handled(s.disk, s.ended, s.conns[c].wire[0].bytes, fault);
        var t := s.(disk := r.0, conns := s.conns[c := After(s.conns[c], |r.0.chunks| > |s.disk.chunks|, r.1)]);
        if r.1 == Some(Died) then Down(t) else t
    case Ack(c, n) => if c in s.conns then s.(conns := s.conns[c := s.conns[c].(acked := Some(n))]) else s
    case Lose(c) => if c in s.conns then s.(conns := s.conns[c := Cut(s.conns[c])]) else s
    case Raise(c) => if c in s.conns then s.(conns := s.conns[c := Cut(s.conns[c]).(phase := Raised)]) else s
    case Return(c) => if c in s.conns then s.(conns := s.conns[c := s.conns[c].(phase := Returned)]) else s
    case Stop => s.(ended := true, disk := Flushed(s.disk))
    case Crash => Down(s)
    case Restart => if Reloaded(s.disk).Some? then s.(disk := Reloaded(s.disk).value, live := true) else s
  }

  predicate Legal(rec: Recording, s: Sys, labels: seq<Label>)
    decreases |labels|
  {
    labels == [] || (Can(rec, s, labels[0]) && Legal(rec, Apply(rec, s, labels[0]), labels[1..]))
  }

  function Run(rec: Recording, s: Sys, labels: seq<Label>): Sys
    decreases |labels|
  {
    if labels == [] then s else Run(rec, Apply(rec, s, labels[0]), labels[1..])
  }

  /** The server's handling of one message over the real store: it does what `Handled` says. */
  method Arrives(store: AudioStore, message: seq<byte>, fault: Fault) returns (outcome: Option<Outcome>)
    requires store.Valid()
    modifies store
    ensures store.Valid() && (store.Value(), outcome) == Handled(old(store.Value()), store.closed, message, fault)
    ensures store.closed == old(store.closed)
  {
    hide DecodeFrame, Put, DiskOk;
    var frame := DecodeFrame(message);
    if frame.Err? {
      return None;
    }
    var o := store.Append(frame.value, fault);
    outcome := Some(o);
  }
}
