# Jarvis Live: a verified model

Jarvis Live records a meeting, transcribes it while it runs and shows the transcript, findings and
speakers on a live dashboard. This project models the parts of it whose correctness is about whole
runs, about two programs agreeing, or about bytes that must be read back exactly, and proves what
those parts promise. `dafny verify dfyconfig.toml` checks all of it.

The clusters, and what is proved of each:

- **The live view** (`Reducer`, `ReducerInvariant`, `Convergence`, `Viewer`, `ViewerSafety`,
  `ViewerConvergence`, `Feed`, `FeedOrder`, `FeedPlacement`, `FeedMarks`). The dashboard folds a lossy,
  reordered event stream and overlapping REST snapshots into one state. The state it shows is projected
  onto a join-semilattice; every event, snapshots included, joins a fixed contribution into it, so neither
  order nor repetition matters. On top of that stands a protocol of persist, publish, subscribe,
  deliver, drop, read and show steps in any interleaving, with an invariant for every reachable
  state: nothing shown is not stored, and once a snapshot read after the socket opened has been shown
  and the queue has drained, everything stored is shown. For a viewer that was there from the first
  record and missed none, that holds of every assignment too. The timeline built from it puts a final
  line into its earliest draft's row, stands in an order known entry by entry, and never inserts a
  finding above a line that was final before it.
- **The event bus** (`Bus`). Bounded queues, a feature filter and a sentinel that closes.
- **Audio extraction** (`Boxes`, `TopLevel`, `SampleTable`, `Adts`, `Extract`, `Fragments`,
  `FragmentBytes`, `FragmentRuns`). Box walkers and a writer that invert each other, a reader that
  joins chunks into large runs and refines the sample tables, ADTS framing that a decoder written from
  the standard undoes, and the whole path from a regular MP4's tables to a stream whose frames are
  exactly the samples the tables point at. For fragmented files, a reader of nested boxes, flag words
  and optional fields that undoes the standard's layout, and where its placement rule departs from
  the standard's.
- **The wire and the store** (`Frames`, `AudioStore`, `Resume`, `ResumeSafety`, `ResumeRuns`). A frame
  codec that is a bijection; the audio file with its index, an append whose write, commit, undo or fsync
  fails or in which the process dies, and exactly which of these leave the two out of step; and a
  resume rule under which any connections, breaking anywhere with messages on the wire, leave the stored
  audio a prefix of the recording, with the exact condition under which it is all of it.
- **Backup retention** (`Retention`, `BackupDir`). Pruning after every backup is pruning the whole
  history once, even when prunes break off half way; and over runs of the job that raise, die or
  cannot unlink a file, exactly when nothing to be kept is lost.
- **Trigger keys** (`Trigger`). Two hold-or-tap keys that exclude each other over every input
  sequence, and for each action an exact definition, by what happened, of when it comes.
- **Service levels** (`SloWindow`, `Slo`, `SloRuns`, `SloAlerts`). A bounded deque that refines the
  full history, each objective by its own limit and share, and over every run exactly which judgements
  alert.
- **The diarization benchmark** (`Threshold`). A threshold search that is optimal over all reals.

`Options`, `Bytes` and `Sorting` hold what several of them share; `Sorting` characterises the stable
sort as the only sorted arrangement that keeps equal keys in order.

Code that works on local copies or fields in the source is a method or a class here, tied by its
`ensures` to a function on values; the lemmas are about those functions.

## What the proofs found

- **A dropped un-assignment does not come back.** `web/src/ws.ts:45-46` says nothing is lost, and a
  polled snapshot does bring back segments, markers, the copilot and every assignment that names a
  speaker. But `web/src/reducer.ts:215` leaves segments without a speaker out of a snapshot's
  assignments. When a `speaker_update` that takes a speaker off a line is dropped by a full queue,
  or published while the viewer has no connection, the screen goes on naming the old speaker after any number of complete snapshots.
  `ViewerConvergence.DroppedUnassignmentStays` is such a run for a queue of any size, and
  `ViewerConvergence.PollConverges` gives the exact condition under which a poll puts a line right.
- **Thinning backups needs no clock that moves forward.** `prune` gives the same result whether or not
  earlier prunes ran, for stamps that arrive in any order, and also when earlier prunes stopped at a
  file they could not delete.
- **A failing backup can delete another one.** Its cleanup unlinks the dump and manifest of its stamp
  (`server/src/jarvis_live/backup.py:240-244`), and stamps are whole seconds: a second run in the same
  second that fails takes the first one's backup along, even if it is the only one
  (`BackupDir.SecondRunTakesFirst`). `BackupDir.KeptExactly` shows that nothing else loses what is to be
  kept. And a dump can be left without its manifest not only by a process that dies between the two but
  also by a cleanup that itself raises (`BackupDir.HalfExactly`).
- **`children` throws where `topLevel` stops.** A header that announces a 64-bit size with fewer than
  16 bytes to go ends the file's outermost list like any other trailing bytes
  (`web/src/extractAudio.ts:229`), but inside a parent the size is read without that check
  (`web/src/extractAudio.ts:254`), so a damaged file raises a RangeError instead of being passed over.
  `Boxes.RangeErrorExactly` says when, `Boxes.ShortBoxThrows` is the shortest such input, and
  `TopLevel.StopsAtCutOff` compares the two.
- **A run can exceed the batch size.** `web/src/extractAudio.ts:122-123` says each run is at most
  `READ_BATCH`. A single larger chunk is not split: the runs over the limit are exactly the table's
  chunks over it (`SampleTable.LargeRuns`), and `SampleTable.LargeChunk` is a track with one.
- **Fragments of other tracks are not counted as data.** Section 8.8.7 of ISO/IEC 14496-12 starts a
  track fragment that names no base where the fragment before it ended, whichever track that one is
  of. `web/src/extractAudio.ts:156` passes over fragments of other tracks before line 188 notes where
  their data ends, so such an audio fragment behind a video one is placed at the movie fragment
  instead. `Fragments.ForeignDataFirst` is such a file. `Fragments.AgreesExactly` says when every
  sample is placed as the standard says: exactly if, before each fragment of the track that has
  samples and names no base, the track's own data last ended where the last fragment of any track did.
  `Fragments.MeetBehind` reads that off the fragment directly before: one of the track itself, or one
  that ends at the same byte.
- **A line can leave its row.** A row taken over from a draft is kept for good, but a line in a row of
  its own moves when its segment is delivered again while a late draft lies at its spot and anything
  delivered with it is new: the segment itself, changed, or another of the same poll
  (`web/src/reducer.ts:124-131`). `FeedPlacement.RowMovesExactly` says exactly when, and
  `FeedPlacement.UnchangedLineMoves` is a run in which the line's own segment never changed.
- **A put after a close reopens a subscription** (`server/src/jarvis_live/bus.py:33-51`). As long as no
  put finds room, a closed subscription gives what was left and then None for good, whatever is
  published and however often it is closed again (`Bus.DrainsThenNone`, `Bus.StaysClosed`). One that
  finds room comes out again behind the None, whatever is queued at that moment (`Bus.PutReopens`;
  `Bus.ReadsAfterNone` is such a run).
- **The file and the index of an audio channel can come apart.** `append` writes and flushes before its
  `try`, so nothing takes back a write that raises part way (`server/src/jarvis_live/ingest/store.py:107-108`):
  the frame sent again is indexed where the leftover bytes lie (`AudioStore.ResendBehindLeftover`), or,
  where the buffer kept the rest, the frame after it is (`AudioStore.NextBehindLeftover`). A commit that
  takes effect and still raises, as one that is cancelled can, has its bytes cut off
  (`server/src/jarvis_live/ingest/store.py:122-125`): the audio is lost, nothing more is stored, and the
  next start refuses to load (`AudioStore.CommitTakenBackLoses`); where the undo raises too, the audio is
  still there until the frame is sent again, which cuts it off (`AudioStore.ResendCutsOff`).
  `AudioStore.PutClean` shows which faults of write, commit and undo do so, and that no other modelled
  one does; `ResumeRuns.SoundExactly` says it of whole runs.
- **A replay can return without having delivered anything.** `_read` ends quietly on a lost connection
  (`server/src/jarvis_live/replay.py:159-169`), so a run whose last message went into a dead socket
  returns as one that succeeded does: `ResumeRuns.ReturnsWithNothingStored`, for what can be sent before
  the library notices the loss and a send raises. Everything is stored exactly once the last frame came
  in while the session was open and its row took effect (`ResumeRuns.CompleteExactly`); a caller can
  tell by the ack of the last frame.
- **An effect that turns bad beside its cause is never pushed**, not even when it outlasts the cause:
  it is pushed only if it clears and turns bad again (`SloAlerts.PushExactlyAtOnset`).
- **The threshold search needs a same-speaker score.** Without one, rejecting everybody beats every
  candidate (`Threshold.WithoutSameScores`); the guard in `suggest` rules that out.

## Assumptions

- The parts of a record fixed by its identity are fixed: a segment's text, times and channel by its
  id, a copilot's findings by its version, an assignment's speaker and mixed flag by segment and
  revision. In `Convergence` these are the functions of a `World`, and events that agree with it are
  `Genuine`. Assignments are stored only for stored segments.
- The server has subscribed the viewer before the socket reads as open, and a snapshot shows the
  records committed at one moment.
- A segment does not end before it starts; only where findings stay below lines is that needed
  (`Lasting` in `FeedPlacement`).
- Of the rows of one audio channel no two have the same number: the table's unique constraint
  (`server/src/jarvis_live/db/models.py:205-207`).
- Times are whole milliseconds and scores are reals: rounding is not modelled. The `0.2 - 0.01` of
  the trigger is 190 ms. Feed times are doubled so that the half millisecond a finding is placed
  after its line is one.
- Python's `ceil(0.95 * n)` is taken as exact.

## Model

| member | source | states |
|---|---|---|
| Sorting.StableSortUnique | web/src/reducer.ts:94-104 | the sort that keeps segments in order is determined by being sorted and keeping equal start times in arrival order |
| Reducer.MergeSegments | web/src/reducer.ts:121-137 | the three loops over local copies compute `Merged`: upsert each, record the draft each takes over, advance the stream clock, drop replaced drafts, or return the state itself when nothing changed |
| Reducer.ApplySpeakers | web/src/reducer.ts:157-167 | the loops compute `WithSpeakers`: last speaker info by id, an assignment only at a higher rev |
| ReducerInvariant.UpsertKeeps | web/src/reducer.ts:94-104 | upserting keeps the list sorted with unique ids, puts exactly the new segment in, and touches no other |
| Reducer.FillSlots | web/src/reducer.ts:126-131 | the pass over the incoming segments computes `AddSlots`: a slot once there is kept, and a new one is that of the first draft at the spot |
| ReducerInvariant.DraftsHandOver | web/src/reducer.ts:125-136 | when something new comes in, exactly the drafts at the spot of an incoming segment go, and each such segment has a slot: its own, or that of the first draft at the spot of the first segment of its id that has one |
| ReducerInvariant.FirstIsEarliest | web/src/reducer.ts:106-131 | as drafts are in order, that draft is the earliest one there |
| ReducerInvariant.SpotMeans | web/src/reducer.ts:124-136 | a segment and a draft are at one spot exactly if they are of one channel and some moment lies in both |
| ReducerInvariant.ClashMeans | web/src/reducer.ts:106-109 | likewise two drafts |
| ReducerInvariant.NothingNewChangesNothing | web/src/reducer.ts:121-124 | segments delivered again change nothing, so a late draft survives them |
| ReducerInvariant.DraftKeeps | web/src/reducer.ts:106-117 | a draft supersedes exactly the drafts of its channel it overlaps, and the list stays sorted and apart |
| ReducerInvariant.StepKeeps | web/src/reducer.ts:169-235 | every event keeps the invariant (sorted unique segments, same-channel drafts apart, sorted unique markers, stream clock past every end, slots only of known segments) and takes nothing back |
| ReducerInvariant.ReachableInv | web/src/reducer.ts:169-235 | every state folded from the initial one satisfies the invariant |
| ReducerInvariant.HistoryGrows | web/src/reducer.ts:94-167 | over any further events segments and markers stay, a slot once given never changes, and versions, revs and the clock never go down |
| ReducerInvariant.OldChangesNothing | web/src/reducer.ts:139-167 | assignments at the rev shown or below, a copilot at the version shown or below and a marker already there leave the whole state as it is |
| ReducerInvariant.NewestAssigned | web/src/reducer.ts:157-167 | of several assignments to one segment the first with the highest rev counts, if that is above the one shown |
| ReducerInvariant.RowAssigns | web/src/reducer.ts:208-224 | a snapshot's row that names a speaker without a rev counts as rev 0, and one that names nobody as no assignment |
| ReducerInvariant.LastHeard | web/src/reducer.ts:157-167 | of several infos about one speaker the last counts, and those not named keep theirs |
| ReducerInvariant.SnapshotIdempotent | web/src/reducer.ts:208-231 | folding the same snapshot twice is folding it once, in the whole state |
| Convergence.StepJoins | web/src/reducer.ts:169-235 | what is shown after an event is the join of what was shown with the event's own contribution, for snapshots too |
| Convergence.FoldJoins | web/src/reducer.ts:169-235 | what is shown after any events is the join of all their contributions |
| Convergence.OrderIndependent | web/src/reducer.ts:94-167 | two event lists with the same members, in any order and any number of times, show the same segments, markers, copilot, assignments and stream clock |
| Convergence.OrderIndependentSequence | web/src/reducer.ts:94-104 | and with distinct start times the same segments in the same sequence |
| Viewer.SnapshotContributes | web/src/reducer.ts:208-231 | a snapshot contributes exactly the stored truth it was read from, except assignments that name nobody |
| ViewerSafety.StepInv | web/src/ws.ts:48-133 | every protocol step keeps: nothing shown that is not stored, and everything stored is shown, queued, still to be published, or owed by a snapshot |
| ViewerSafety.RunInv | web/src/ws.ts:48-133 | so does every legal run, in any interleaving |
| ViewerSafety.ReachedInv | web/src/ws.ts:48-133 | so it holds of every state a run from the start comes to |
| ViewerConvergence.Quiescent | web/src/ws.ts:45-46 | when no snapshot is owed and everything published is delivered, the screen agrees with the stored truth |
| ViewerConvergence.NoGap | web/src/ws.ts:72-105 | a snapshot read after the socket opened, shown whenever it arrives, leaves no gap: once the queue has drained all that is stored is shown |
| ViewerConvergence.PollConverges | web/src/ws.ts:84-95 | one poll answered from the whole log puts everything right at once, whatever was dropped; who spoke comes right for a line exactly if its newest assignment names someone or the screen named nobody |
| ViewerConvergence.DroppedUnassignmentStays | web/src/reducer.ts:214-215 | for a queue of any size a run, with the connection up, the queue drained and a complete snapshot shown, that still names a speaker the server has taken off the line; over a bounded queue one that never lost its connection |
| ViewerConvergence.NothingMissed | web/src/ws.ts:45-46 | for a viewer connected before anything was stored and for whom nothing was dropped, once the queue has drained the screen is the stored truth, assignments that name nobody included |
| Feed.TranscriptLines | web/src/reducer.ts:257-299 | the loops compute the final lines under their slots and then the drafts, in stable order of their sort times |
| Feed.TrackArrivals | web/src/feed.ts:93-105 | the loop computes `Arrived`: a key's first arrival is recorded, a known one is kept |
| Feed.BuildFeed | web/src/feed.ts:116-139 | the loops compute the feed |
| Feed.FeedIsSortedPermutation | web/src/feed.ts:116-139 | the feed is sorted by place and holds exactly one entry for each line, marker and finding |
| FeedOrder.FindingStands | web/src/feed.ts:113-139 | a finding stands behind exactly the lines and markers no later than it was found or its source line began, whichever is later, and behind all of them if it has no record |
| FeedOrder.FindingsByMoment | web/src/feed.ts:126-136 | findings stand in the order in which they were found, or their source lines began; one without a record counts as found with the last line or marker |
| FeedOrder.TiesByKind | web/src/feed.ts:116-139 | entries with one sort time stand as lines, markers, actions, decisions, notes, related notes, work items |
| FeedOrder.LinesSay | web/src/reducer.ts:257-299 | there is one line for each segment and each draft and no other, in order, with its words, times and speaker, under the slot it took over if there is one |
| FeedPlacement.SlotsStayBelow | web/src/reducer.ts:126-131 | in every reachable state the slot a segment took from a draft lies below the segment's end |
| FeedPlacement.ArrivalsNeverMove | web/src/feed.ts:93-105 | once recorded, an arrival never changes |
| FeedPlacement.FindingStaysBelow | web/src/views/LiveSession.tsx:66-71 | a finding recorded at the settled time stays below every final line then in the feed, over any further events |
| FeedMarks.MarkNew | web/src/feed.ts:147-161 | the keys in the feed that are new, each counted once, and the topmost of them |
| FeedMarks.NewIsFirstSeenLate | web/src/feed.ts:93-161 | a finding is new exactly if it first appeared after the first load and after the reader last looked |
| FeedPlacement.FinalLandsInDraftRow | web/src/reducer.ts:126-131 | a new segment's line appears under the key and at the place of the earliest draft it replaces, which is gone |
| FeedPlacement.RowNeverMoves | web/src/reducer.ts:126-131 | a line that took over a row stays in it and at its place over any further events |
| FeedPlacement.RowMovesExactly | web/src/reducer.ts:121-131 | an event, snapshots included, gives a segment's line another row exactly if it has no slot, something delivered is new, and the segment is among what is delivered, with a draft at its spot |
| FeedPlacement.UnchangedLineMoves | web/src/reducer.ts:124-131 | a reachable state and a poll that brings a line's segment unchanged, beside a new one, and moves the line |
| FeedPlacement.LineStays | web/src/reducer.ts:257-299 | a final line once in the feed stays in it |
| Bus.Subscription.Enqueue | server/src/jarvis_live/bus.py:37-42 | an item is queued exactly if there is room, and the answer says so |
| Bus.Subscription.Get | server/src/jarvis_live/bus.py:44-51 | takes the oldest, or, at the sentinel, puts it back and returns None |
| Bus.Subscription.Close | server/src/jarvis_live/bus.py:53-60 | leaves the bus, and queues the sentinel after dropping the oldest as far as room needs |
| Bus.Bus.Subscribe | server/src/jarvis_live/bus.py:68-71 | a new empty subscription, added to its session only |
| Bus.Bus.Publish | server/src/jarvis_live/bus.py:73-82 | each subscriber of the session is offered the event, but a speaker update or a voice event only if it has that feature, and no other queue changes |
| Bus.Bus.Remove | server/src/jarvis_live/bus.py:87-92 | takes out exactly this subscription and keeps no empty set |
| Bus.Bus.SubscriberCount | server/src/jarvis_live/bus.py:84-85 | counts a session's subscribers, zero for an unknown one |
| Bus.ReadsInOrder | server/src/jarvis_live/bus.py:33-51 | what a subscriber reads is, in order, what it was offered less exactly what was offered while its queue was full |
| Bus.DrainsThenNone | server/src/jarvis_live/bus.py:44-60 | after a close, as long as no put finds room, gets return the finite rest in order and then None forever, whatever is published; each close, this one and any further one, costs at most the oldest item, and only where it finds no room |
| Bus.StaysClosed | server/src/jarvis_live/bus.py:44-60 | with only sentinels queued it stays closed through publishes, gets and further closes as long as no put finds room |
| Bus.PutReopens | server/src/jarvis_live/bus.py:33-51 | a put that finds room, whatever is queued ahead of it, comes out after as many gets as that, whatever is put or published meanwhile, if there is no further close; after a close one of those gets returns None |
| Bus.ReadsAfterNone | server/src/jarvis_live/bus.py:33-60 | a subscriber that reads an event, None, and then an event again |
| Bytes.FirstByteCountsMost | web/src/extractAudio.ts:251-254 | numbers in boxes have their first byte highest |
| Boxes.Children | web/src/extractAudio.ts:247-264 | the loop over offsets computes `Walk`, RangeError included |
| Boxes.WalkInvertsWriting | web/src/extractAudio.ts:247-264 | any boxes written with 32-bit, 64-bit or to-the-end sizes are read back exactly, wherever they stand and whatever follows |
| Boxes.PayloadsWritten | web/src/extractAudio.ts:247-264 | and each box read points at the payload written |
| Boxes.WalkIsWritten | web/src/extractAudio.ts:247-264 | on any bytes it terminates, and what it returns is a list of boxes as they would be written, contiguous, from the start, inside the parent; it stops early only at a header that does not fit |
| Boxes.RangeErrorExactly | web/src/extractAudio.ts:247-264 | for a parent inside the buffer the walk throws exactly if boxes as they would be written stand one behind the other and then the size field of a 64-bit box, with at least 8 bytes to the parent's end and fewer than 16 to the buffer's |
| Boxes.ShortBoxThrows | web/src/extractAudio.ts:252-254 | an eight-byte parent with such a size field in it makes it throw |
| TopLevel.StopsAtCutOff | web/src/extractAudio.ts:228-229 | at such a header the walk over the file stops, where the walk inside a parent throws |
| TopLevel.Walk | web/src/extractAudio.ts:220-241 | the loop over file offsets computes `TopLevel` |
| TopLevel.WrittenFile | web/src/extractAudio.ts:220-241 | a file of written boxes with printable names lists all of them, with anything after them that is no box, exactly if it starts with one of the known first boxes |
| TopLevel.FoundInOrder | web/src/extractAudio.ts:220-241 | on any bytes the boxes found are contiguous from the start, only the last may claim more than there is, and the walk stops only where no box header stands |
| SampleTable.SamplesInChunk | web/src/extractAudio.ts:193-200 | the loop with its early exit computes `CountIn` |
| SampleTable.CountInOrder | web/src/extractAudio.ts:193-200 | in an ordered table a chunk has the count of the entry it falls under |
| SampleTable.TableRuns | web/src/extractAudio.ts:124-142 | the generator's loop yields `Runs` |
| SampleTable.RunsRefineTables | web/src/extractAudio.ts:122-142 | flattening the runs gives, sample by sample, the place each sample has by the tables taken one chunk at a time, and their number |
| SampleTable.RunsAreLargest | web/src/extractAudio.ts:122-142 | a run is at most READ_BATCH or exactly one chunk, and two neighbours are either not adjacent in the file or over eight megabytes together |
| SampleTable.LargeRuns | web/src/extractAudio.ts:122-142 | the runs over READ_BATCH are exactly the chunks over it, so every run keeps the limit exactly if every chunk does |
| SampleTable.LargeChunk | web/src/extractAudio.ts:122-123 | a track whose one run is over READ_BATCH |
| Adts.ParamsAccepted | web/src/extractAudio.ts:396-405 | exactly the configurations an ADTS header can carry are accepted |
| Adts.ParamsReadBack | web/src/extractAudio.ts:396-405 | from a configuration written as section 1.6.2.1 of ISO/IEC 14496-3 lays it out, the fields written are read, HE-AAC as LC |
| Adts.Header | web/src/extractAudio.ts:202-214 | a seven-byte header exactly for samples of at most 8184 bytes |
| Adts.LongestSample | web/src/extractAudio.ts:202-205 | which is what the 13 bits of the frame length leave beside the header |
| Adts.FieldsDoNotOverlap | web/src/extractAudio.ts:202-214 | the bit fields the source joins by or do not overlap, so adding them is the same |
| Adts.HeadersRead | web/src/extractAudio.ts:202-214 | read field by field as section 6.2 of ISO/IEC 13818-7 lays it out, every header carries the syncword, the parameters and the frame length it was made for |
| Adts.DecodeInvertsFraming | web/src/extractAudio.ts:95-110 | a decoder that reads such headers gives any framed samples back, each with the parameters, and nothing else |
| Extract.FrameRun | web/src/extractAudio.ts:96-110 | the buffer is filled with each sample behind its header, in place, or the call fails exactly if a sample is too long |
| Extract.ExtractAudio | web/src/extractAudio.ts:79-86 | the reading loop succeeds exactly if there are runs, each lies in the file and each sample fits, and then returns the samples the tables point at, framed |
| Extract.ExtractedDecodes | web/src/extractAudio.ts:63-110 | decoding the extracted AAC stream gives exactly the samples the tables point at, each to its full size, with the track's parameters |
| Extract.ExtractedMp3 | web/src/extractAudio.ts:63-110 | for an MP3 track the extracted bytes are those samples one after the other: as many as chunks and sizes give, each the bytes of the file where the tables put it |
| Fragments.TrunsAsStandard | web/src/extractAudio.ts:168-187 | within a track fragment every run lies where section 8.8.8 of ISO/IEC 14496-12 puts it: at its data offset from the base, or behind the run before it, or at the base, with each sample's own or the default size |
| Fragments.AgreesExactly | web/src/extractAudio.ts:146-191 | the source places every sample of a fragment where the standard does exactly if, before each part of the track that has samples and names no base, its own data last ended (or, if nowhere or at zero, the fragment starts) where data of any track last ended |
| Fragments.MeetBehind | web/src/extractAudio.ts:150-159 | what the part directly before says of that: behind one of the track itself that names its base, or before which it held, it holds unless that one ends at byte zero (and the fragment does not start there), behind one of another track exactly if that ends at the byte where the track's own data did |
| Fragments.MeetBehindOwn | web/src/extractAudio.ts:150-159 | it holds if every part of the track that names no base has another of its own directly before it that does not end at byte zero |
| Fragments.ForeignDataFirst | web/src/extractAudio.ts:156-158 | a video fragment and then an audio fragment without a base, which the source places elsewhere than the standard |
| FragmentBytes.ReadTrun | web/src/extractAudio.ts:170-183 | reading a track run, flag by flag and row by row, computes `TrunAt`, RangeError included |
| FragmentBytes.TrunReadsBack | web/src/extractAudio.ts:170-183 | a track run written with any of its optional fields is read back: its data offset, signed, and its sample sizes |
| FragmentBytes.ReadTfhd | web/src/extractAudio.ts:155-167 | reading a track fragment's header computes `TfhdAt` |
| FragmentBytes.TfhdReadsBack | web/src/extractAudio.ts:155-167 | a header written with any of its optional fields is read back: its base and its default size, or that it is another track's |
| FragmentRuns.ReadMoof | web/src/extractAudio.ts:146-191 | the loops over boxes within boxes compute `MoofAt` |
| FragmentRuns.FragmentReadsBack | web/src/extractAudio.ts:146-191 | any movie fragment written as the standard lays it out, each box with a 32-bit, a 64-bit or a to-the-end size and other boxes anywhere in between, yields exactly the runs its boxes describe |
| FragmentRuns.FragmentFollowsStandard | web/src/extractAudio.ts:144-191 | so what is read is what the standard says exactly under the condition of `AgreesExactly` |
| Frames.DecodeInvertsEncode | server/src/jarvis_live/protocol.py:298-321 | decoding an encoded frame returns channel, sequence number, time and payload |
| Frames.EncodeInvertsDecode | server/src/jarvis_live/protocol.py:298-321 | encoding a decoded frame returns its bytes |
| Frames.AcceptsExactlyEncodings | server/src/jarvis_live/protocol.py:308-321 | the decoder accepts exactly the byte strings the encoder can produce |
| Frames.FrameLayout | server/src/jarvis_live/protocol.py:298-305 | exactly even payloads of 640 to 6400 bytes on channel 0 or 1 with 32-bit number and time can be sent, and lie on the wire byte by byte as the protocol says |
| Frames.SplitFrames | server/src/jarvis_live/replay.py:27-34 | the loop and the in-place padding compute `Split` |
| Frames.SplitKeepsAudio | server/src/jarvis_live/replay.py:27-34 | the frames put together are the audio and fewer than 20 ms of zeros |
| Frames.SplitSizes | server/src/jarvis_live/replay.py:27-34 | every frame but the last is exactly of the length asked for, and the last at least 20 ms |
| Frames.SplitIsSendable | server/src/jarvis_live/replay.py:27-34 | every frame of even-length audio cut at 20 to 200 ms can be encoded |
| AudioStore.AudioStore.Load | server/src/jarvis_live/ingest/store.py:57-86 | after any crash the file is cut back to what the index holds, or the load fails exactly if audio is missing |
| AudioStore.AudioStore.Append | server/src/jarvis_live/ingest/store.py:91-130 | a stored frame is a duplicate, a later one than the next a gap, a closed store takes none, and the next one is `Put` |
| AudioStore.AudioStore.Write | server/src/jarvis_live/ingest/store.py:106-130 | bytes first, then the row, cutting the bytes off if the commit raises, computes `Put`, for a write that raises part way, a commit that raises with or without taking effect, an undo that raises, an fsync that raises and a process that dies |
| AudioStore.AudioStore.Commit | server/src/jarvis_live/ingest/store.py:109-128 | the row and what an insert or commit that raises leaves, also where the row is there already, computes `Indexed` |
| AudioStore.AudioStore.Close | server/src/jarvis_live/ingest/store.py:147-153 | refuses every later frame and flushes what the buffer held |
| AudioStore.PutClean | server/src/jarvis_live/ingest/store.py:106-128 | file and index stay in step through an append exactly if no write raised part way or left bytes in the buffer, no commit took effect and raised, and no undo raised; where the process dies the next load brings them in step |
| AudioStore.PutSays | server/src/jarvis_live/ingest/store.py:106-130 | a frame is said to be stored exactly if nothing failed, and then its row and its bytes are there; each fault is reported as what it is, and an fsync that raises leaves the frame stored |
| AudioStore.CommitTakenBackLoses | server/src/jarvis_live/ingest/store.py:109-125 | a commit that takes effect and raises leaves the index longer than the file, after which nothing is stored and the next load fails |
| AudioStore.ResendCutsOff | server/src/jarvis_live/ingest/store.py:106-125 | a commit that takes effect and raises and whose undo raises too leaves the audio where a restart finds it, but the frame sent again has it cut off, and then the load fails |
| AudioStore.StoredBehindJunk | server/src/jarvis_live/ingest/store.py:106-126 | with leftover bytes behind the indexed ones, the next frame is stored, and reads back right exactly if leftover and frame begin with that frame |
| AudioStore.ResendBehindLeftover | server/src/jarvis_live/ingest/store.py:107-108 | a frame whose write failed part way, sent again, is stored under an offset where other bytes lie |
| AudioStore.NextBehindLeftover | server/src/jarvis_live/ingest/store.py:107-108 | where the buffer kept the rest, the frame sent again reads back right and the one after it does not |
| Resume.Send | server/src/jarvis_live/replay.py:123-176 | the send loop starts one past the smaller of the two last acks, or from scratch where one is missing, writes consecutive frames from there, and stops only at the end, where told to, or at a frame that cannot be encoded |
| Resume.Arrives | server/src/jarvis_live/ingest/store.py:91-130 | the server's handling of one message over the real store is the step of the system model |
| ResumeSafety.StepInv | server/src/jarvis_live/replay.py:83-169 | no step breaks: what is stored is a prefix of the recording, and on every open connection lies, in order, all that was sent and is not yet known to be stored |
| ResumeSafety.HandledFrame | server/src/jarvis_live/ingest/store.py:91-130 | no frame that arrives is a gap, and only the recording's next frame is ever indexed |
| ResumeSafety.EndInv | server/src/jarvis_live/replay.py:151-153 | when the server handles a connection's end, every frame is stored |
| ResumeRuns.NoGap | server/src/jarvis_live/replay.py:83-178 | over any interleaving of connections with any client belief, broken anywhere, and any fault of the store, the index is a prefix of the frames without a gap or a repeat, and loses none |
| ResumeRuns.CompleteExactly | server/src/jarvis_live/replay.py:123-157 | all frames are stored exactly once the last one came in, over any connection, while the session was open and no fault kept its row from taking effect; so they are once an end was handled or the last frame's ack was read |
| ResumeRuns.BelievedIsResent | server/src/jarvis_live/replay.py:95-98 | over any run each frame past the client's last ack, as far as its sending got, was written on that very connection, whether the server had it or not |
| ResumeRuns.ReturnsWithNothingStored | server/src/jarvis_live/replay.py:151-169 | for any recording whose frames can be encoded, a run that returns normally with every message sent and not one frame stored; real for recordings short enough to be sent before the library notices that the connection is lost |
| ResumeRuns.SoundExactly | server/src/jarvis_live/ingest/store.py:91-130 | file and index stay in step at every moment of a run exactly if no frame being stored meets one of the faults of `PutClean` |
| ResumeRuns.FileIsTheRecording | server/src/jarvis_live/replay.py:27-34 | in bytes, through such a run: the file is the indexed audio, that is a beginning of the recording with its closing zeros, and all of it once an end was handled |
| Retention.RetainedSandwich | server/src/jarvis_live/backup.py:266-297 | deleting some of what a prune would delete and pruning later is pruning at once |
| Retention.PruneThenBackup | server/src/jarvis_live/backup.py:266-297 | pruning before a backup is made does not change what pruning after it leaves, whatever its stamp |
| Retention.EveryNight | server/src/jarvis_live/backup.py:253-263 | after any nights, in any order of stamps and with prunes broken off anywhere, all that one prune of the whole history would keep is there, and after a complete prune exactly that |
| Retention.NeverLost | server/src/jarvis_live/backup.py:266-297 | the newest backup of each of the last days and weeks ever backed up is always there |
| Retention.LastGroups | server/src/jarvis_live/backup.py:274-284 | a group has a stamp kept exactly if fewer than the limit of groups with a backup are later, and it is the group's newest |
| Retention.WeeksBeginOnMonday | server/src/jarvis_live/backup.py:284-285 | two stamps count as one week exactly if no Monday begins between them, and as one day exactly if no day does |
| BackupDir.AddNewestPer | server/src/jarvis_live/backup.py:274-284 | the loop over stamps, newest first, adds exactly the newest of each of the last groups |
| BackupDir.Directory.Prune | server/src/jarvis_live/backup.py:266-297 | leaves exactly the retained stamps, each deleted dump taking its manifest along; if a file cannot be deleted, nothing to be kept is gone |
| BackupDir.Directory.Backup | server/src/jarvis_live/backup.py:232-263 | for a run that completes, that raises before, between or after its two files and cleans up as far as it can, or that stops there, the new directory, in which a completed run is one night of the model and leaves no dump of its own without a manifest |
| BackupDir.HalfExactly | server/src/jarvis_live/backup.py:234-244 | a broken-off run leaves a new dump without its manifest exactly where it ends between the two and the process is gone or the cleanup raises at the dump or before it |
| BackupDir.CleanedUp | server/src/jarvis_live/backup.py:240-244 | a run that raises and can unlink its files leaves neither dump nor manifest of its stamp |
| BackupDir.KeptExactly | server/src/jarvis_live/backup.py:232-263 | over any runs all that one prune of every landed backup would keep is always there, exactly if none fails under the stamp of a backup then to be kept and cleans it up |
| BackupDir.SecondRunTakesFirst | server/src/jarvis_live/backup.py:240-244 | two runs with one stamp, of which the second fails and takes the first one's backup, the only one, along |
| Trigger.Keys.constructor | linux/src/jarvis_desktop/trigger.py:203-207 | one key cannot do both: the ask key is switched off |
| Trigger.Keys.Down | linux/src/jarvis_desktop/trigger.py:209-222 | the calls into both triggers amount to one step of the machine, action included |
| Trigger.Keys.Up | linux/src/jarvis_desktop/trigger.py:224-229 | so does a release |
| Trigger.Keys.Tick | linux/src/jarvis_desktop/trigger.py:231-232 | and a tick |
| Trigger.Keys.Escape | linux/src/jarvis_desktop/trigger.py:238-240 | and Esc, which always answers with a cancel |
| Trigger.DictationTrigger.Up | linux/src/jarvis_desktop/trigger.py:102-120 | the fields after a release and its result are those of the machine |
| Trigger.DictationTrigger.OtherInput | linux/src/jarvis_desktop/trigger.py:122-131 | likewise for other input |
| Trigger.ActionsMakeSense | linux/src/jarvis_desktop/trigger.py:198-240 | over every input sequence: never both begun, every commit closes an open begin, an ask's begin and end alternate, no cancel that ends a dictation is lost, and a listener's conclusion equals the triggers' state |
| Trigger.CommitIsRelease | linux/src/jarvis_desktop/trigger.py:102-110 | a dictation is committed exactly at the dictation key's release while one is under way |
| Trigger.CancelIsDisturbed | linux/src/jarvis_desktop/trigger.py:122-136 | a cancel comes exactly at Esc, or at another key or other input while a dictation is under way |
| Trigger.AskEndIsRelease | linux/src/jarvis_desktop/trigger.py:182-187 | an ask ends exactly at the ask key's release while one is under way |
| Trigger.BeginIsHold | linux/src/jarvis_desktop/trigger.py:89-100 | a dictation begins exactly at the first tick that finds a press undisturbed and held for the threshold less the slack |
| Trigger.AskBeginIsHold | linux/src/jarvis_desktop/trigger.py:171-180 | an ask begins exactly at the first tick that finds a press of its key undisturbed and held as long, in every mode |
| Trigger.TickHidesNothing | linux/src/jarvis_desktop/trigger.py:231-232 | when the ask's tick answers, dictation's would have done nothing |
| Trigger.OverlapComesToNothing | linux/src/jarvis_desktop/trigger.py:209-222 | once both keys were down together, up to the dictation key's release nothing comes but the answer to Esc and the end of an ask already begun |
| Trigger.ToggleIsLoneTap | linux/src/jarvis_desktop/trigger.py:102-131 | a toggle comes exactly for a press of at most 350 ms with no other input inside it and the ask key up |
| Trigger.DoubleTaps | linux/src/jarvis_desktop/trigger.py:102-131 | a double tap comes exactly for such a press that starts at most 400 ms after the release of one that reported a tap, with nothing else between; every other such press is a tap |
| SloWindow.PopOld | server/src/jarvis_live/slo.py:112-113 | the popping loop computes `DropOld` |
| SloWindow.DropKept | server/src/jarvis_live/slo.py:89-115 | what is left of the bounded deque is exactly the recent ones of the last 4096 ever appended |
| SloWindow.QuantileAbove | server/src/jarvis_live/slo.py:47-49 | the nearest-rank quantile is over the limit exactly if fewer values than its rank are within it |
| SloWindow.RankMeans | server/src/jarvis_live/slo.py:47-49 | the rank is the least whole number of values that is at least the given share of them |
| Slo.SloMonitor.Observe | server/src/jarvis_live/slo.py:94-97 | appends to the window, opening it if it is new, or does nothing when switched off |
| Slo.SloMonitor.Judge | server/src/jarvis_live/slo.py:109-125 | the new windows, states, pushes and log of one judgement |
| Slo.SloMonitor.Check | server/src/jarvis_live/slo.py:99-107 | the two loops judge every spec not skipped on every window of its signal, in order |
| SloRuns.CheckJudgesHistory | server/src/jarvis_live/slo.py:99-116 | every check comes to the verdicts the full history gives: the observations within the span among the last 4096, whatever earlier checks dropped |
| SloRuns.EachJudged | server/src/jarvis_live/slo.py:66-115 | by name: each check judges each of the five SLOs on each key ever observed for its signal, four of them only with a live session and a transcriber up, with its own limit, share, span and number of samples, and nothing else |
| SloRuns.OffDoesNothing | server/src/jarvis_live/slo.py:94-101 | switched off it observes, judges and sends nothing |
| SloRuns.OrderIsObserved | server/src/jarvis_live/slo.py:89-97 | the windows gone through are those of every key ever observed, once each |
| SloRuns.OrderIsFirstSeen | server/src/jarvis_live/slo.py:89-106 | and the keys are gone through in the order in which they were first observed |
| SloRuns.BadMeans | server/src/jarvis_live/slo.py:115-115 | bad means enough samples and fewer than ceil(q n) of them within the limit |
| SloAlerts.PushExactlyAtOnset | server/src/jarvis_live/slo.py:109-130 | over every run a push goes out exactly at a bad judgement before which neither its SLO nor, for any key, the one it defers to was breached; breached means judged bad and since then not good for the clear time |
| SloAlerts.BreachedMeans | server/src/jarvis_live/slo.py:117-124 | the breach state kept is exactly that: a last bad judgement, and no later one in a stretch of good ones of at least the clear time |
| SloAlerts.RunPushesApart | server/src/jarvis_live/slo.py:117-124 | between two pushes for one SLO and key lies a stretch of at least the clear time in which every judgement of it was good |
| SloAlerts.EffectsDefer | server/src/jarvis_live/slo.py:65-88 | no check pushes a slow transcript while a tier, or stale notes while a round trip, is breached for any key at its end |
| Threshold.FewestMistakes | scripts/diarize_bench.py:121-145 | the first candidate with the least sum of the two shares, different speakers accepted and the same one rejected, has the least of every real threshold |
| Threshold.WithoutSameScores | scripts/diarize_bench.py:100-100 | without a same-speaker score that is false of every candidate |
| Threshold.Windows | scripts/diarize_bench.py:153-163 | the loops compute the clips of each turn |
| Threshold.ClipsCoverTurn | scripts/diarize_bench.py:153-163 | a turn's clips are back to back from its start, full length but the last, and what is left over is shorter than the least |

## Left out

- Status, error, connection, session, summary, ack and final-note fields of the live state are one event, `Banner`, that changes nothing modelled.
- Segment equality by serialised text is equality of the record together with a `layout` number that stands for the order of its keys.
- The texts of drafts and the labels of speakers are last-write-wins and not claimed to converge; a late draft can survive its segment.
- Row keys are not claimed unique: two segments of one snapshot can take the same draft's key.
- `watchSession` appears as the steps of its protocol, not as its retry loop; tickets, back-off and the choice of poll times are any interleaving.
- `filterCounts`, `groupInsights`, `copilotInsights`, `workInsights` and the labels `who` puts on lines: one reading settles them.
- The order in which a publish goes through a session's subscribers, and waiting in `get`: queues do not affect each other, and a get that waits is a later get.
- `findAudioTrack` and the descriptor parsing around `adtsParams`: the tables and settings of a track are the input here; so is the choice among several movie boxes.
- The order of movie fragments, and the limit on their size: one fragment at a time is read.
- Sizes and offsets over 2^53 lose precision in the source; they lie past the end of any parent or file here and there.
- `Extract.ExtractAudio`: the choice of track, the fragmented case and the names of the output file are not part of it.
- HTTP, sockets, the database and its transactions, file systems and subprocesses appear only as the steps and faults named in the models; what a disk loses before an fsync is not modelled.
- `AudioStore.AudioStore.Append`: file and index of one channel; two channels are two stores.
- Manifests whose dump is gone: an interrupted prune can leave one, and later prunes look only at dumps.
- A notifier that is awaited lets observations arrive in the middle of a check; `Slo.SloMonitor.Check` is one step, and nothing else changes its fields.
- `Slo.SloMonitor.constructor`: asks for at least one sample, because with none the source raises on an empty window.
- Percentiles by interpolation, the separable branch of `suggest`, and the rounding of the reported threshold to three digits.
- `Threshold.Windows`: asks for positive lengths, because with others the source's loop can go on forever.
- `ReplayProducer.run` where the server refuses the hello, and the drafts it sends in between: the first sends nothing, the second are no frames.
- Texts of alerts, of log lines and of the benchmark's report.
