# bee-sync: resumable parallel transfer, verified

bee-sync cuts a file into chunks, sends them over several data connections, keeps every received
chunk in a `.part` file, remembers the hashes of the received chunks in a `.bee-meta` file, and joins the
parts at the end. This project models both ends, the wire and the disk in Dafny, and proves what
the system is for: a transfer that is interrupted anywhere goes on where it stopped, and what is
reported as delivered is delivered.

## How it is built

| file | what it holds |
|---|---|
| `Wire.dfy`, `Frames.dfy`, `Messages.dfy` | bytes, big-endian fields, frames, chunk messages, resume query, handshake and its response |
| `Chunks.dfy`, `Assignment.dfy` | chunk arithmetic of both sides, `--chunk-count`, round-robin split, workers and ports |
| `Disk.dfy`, `Paths.dfy` | the file system as one transfer sees it, in steps between which a crash may happen; the path strings, and two transfers on one file system |
| `Metadata.dfy` | the `.bee-meta` codec and `TransferMetadata` |
| `Receiver.dfy` | `FileReceiver`: chunk processing, resume validation, destructive assembly |
| `Client.dfy`, `Server.dfy` | both ends of a data connection as code, under interference; they take only steps of the state machine |
| `Transfer.dfy` | the state machine: disk, server, connections, workers, crashes, sessions |
| `Safety.dfy`, `SessionSteps.dfy`, `ConnSteps.dfy`, `Induction.dfy` | its invariant, and that every step keeps it |
| `Handling.dfy` | a chunk on the server, uninterrupted: its path of the state machine ends as the contract of the code says |
| `Guarantees.dfy`, `Outcome.dfy`, `Interruption.dfy` | what holds in every run; the exit code after failures; a run in which exit code 0 means nothing |
| `Recovery.dfy` | no crash is final: every reachable state can go on to a delivery |
| `Ports.dfy` | the port pool, first-fit binding, the registry, over many transfers |

The state machine interleaves, for any number of sessions, the steps of every worker, of every
connection handler, of the control handler and of the user. A part write is truncate-then-write
outside the receiver's lock; flag, in-memory hash and the tmp-then-rename save happen under the lock; a
crash may fall between any two steps, inside a write, between write and rename, and anywhere in the copy and
remove loop of assembly. Between sessions the source may change, and parts and the output may be
altered or lost. `Storage.ExecStep` is the only way the disk changes, for the
methods on `Disk` as well as for the state machine.

Hypotheses, where a theorem needs them and nowhere else:

- `CollisionFree(env)`: no two contents that can appear in the run have the same hash. The hash function
  itself is a parameter; global injectivity would contradict its 32-byte range.
- `Honest(env, p)`: the values fit their fields, `chunk_size` is positive and at most 16 MiB minus 48
  bytes, and there are at most 1,000,000 chunks. The file may be empty.

## Where the code is weaker than its documentation

The model follows the code. Each of these is proved, not assumed away:

- `--chunk-count N` is described as exactly N chunks (README.md:89-90). It gives at most N, and exactly N iff
  (N-1) * ceil(file_size/N) < file_size (`Chunks.ChunkCountExact`).
- A chunk that fails sets the shutdown flag (src/client/worker.rs:209-213), so the client exits with
  0 as if it had been interrupted (src/client/mod.rs:156-160). `Outcome.FailedChunkExitsZero` says exactly
  when; `Interruption.ExitZeroWithoutDelivery` is a concrete run.
- For an empty file the two sides disagree on the size of chunk 0. The server does not answer it, so in no
  run is it acknowledged, and no session of an empty file ends well unless the server had an empty
  output before (`Receiver.ChunkExpectedIff`, `Guarantees.EmptyFileNeverArrives`,
  `Recovery.EmptyDeliverableIff`).
- SECURITY.md:101-109 lists port exhaustion as fixed because `cleanup` releases the ports. It gives the
  permits back, but the detached accept loops keep their listeners bound (src/server/handler/control.rs:640).
  Such a port gets free only when its `accept` fails (src/server/handler/control.rs:522-525), which is the
  exact condition of `Ports.StuckIff`. `Ports.PortsRunOut` is a run after which all permits are back, no
  transfer is active, and no port can be bound.
- When `accept` fails on a port of an active transfer, another transfer can bind that port; the cleanup of
  the first one then removes the second one's registry entry (`Ports.CleanupCutsOff`).
- Permits are lost when binding fails (src/server/handler/control.rs:307-312) and when the response cannot be
  sent (src/server/handler/control.rs:197); the ledger counts them.
- The comment at src/server/handler/data.rs:35 gives the query byte as 0xFF; the constant is 0x01
  (src/protocol.rs:192).
- `process_chunk` indexes the header without a length check (src/server/handler/data.rs:180-184); the model
  answers `Panic` there.

## Model

| member | source | states |
|---|---|---|
| Guarantees.StoredMetadataIsTrue | src/server/file_receiver.rs:75-79 | over all runs, at every moment: metadata on the disk decodes, and each entry is the hash of that slice of the transfer it matches |
| Guarantees.RecordedPartsAreSlices | src/server/file_receiver.rs:75-162 | in every live session a chunk's flag is set iff its hash is in the in-memory metadata, and its part is then exactly the slice of the current source |
| Guarantees.RecordedPartsAreStable | src/server/handler/data.rs:278-297 | a recorded part is never truncated or rewritten while its session lasts |
| Guarantees.OneWriterPerPart | src/server/handler/control.rs:505-534 | two handlers are never busy with the same chunk, and no handler is busy writing a recorded one |
| Guarantees.ResumeInBounds | src/server/handler/control.rs:131-149 | what a resume finds never indexes beyond the flags, and every part it names is the right slice |
| Guarantees.AckOnlyAfterSave | src/server/handler/data.rs:278-302 | a handler is about to send ACK_OK only after part write, flag and save of that chunk have succeeded |
| Guarantees.AckKept | src/server/file_receiver.rs:85-162 | no step loses an acknowledged chunk, except the named releases: assembly removing parts, another transfer, corruption of that part |
| Guarantees.AcksAreDurable | src/server/handler/data.rs:289-302 | after any crashes and sessions without a release, the part is intact, the stored metadata lists it, and every receiver has it as received |
| Guarantees.AcksMatchRequests | src/client/worker.rs:69-115 | at most one request is unanswered per connection, and an acknowledgement is for the chunk sent last; a positive one means it is recorded |
| Guarantees.ReportsAreTrue | src/client/worker.rs:172-214 | every entry of an `ok_list` is recorded on the server, except possibly the last of an interrupted worker |
| Guarantees.NothingSentAfterFailure | src/client/worker.rs:209-213 | a worker with a failed chunk sends nothing more |
| Guarantees.NoFailureMeansComplete | src/client/worker.rs:165-215 | all workers done, no failure, no shutdown: the server has every chunk, although the workers queried at different moments |
| Guarantees.CompleteGoesToAssembly | src/server/handler/control.rs:202-225 | a complete transfer that has not failed goes on to assembly with every part in place |
| Guarantees.FinalStatusIsTrue | src/server/handler/control.rs:227-232 | RESP_OK implies that the output is the source; assembly that runs to its end ends in RESP_OK |
| Guarantees.ExitZeroMeansDelivered | src/client/mod.rs:88-186 | exit code 0 with the shutdown flag clear implies that the output is the source |
| Outcome.FailedChunkExitsZero | src/client/mod.rs:155-165 | in every session with failed chunks and all workers done, the exit code is 0 iff the user interrupted or a worker that reports a failure had the answer to its query; otherwise it is 1 |
| Outcome.SessionSoFar | src/client/worker.rs:165-223 | throughout a session the shutdown flag is set iff the user interrupted or such a worker failed |
| Outcome.ExitCodeIs | src/client/mod.rs:88-186 | the code is 0 or 1, undecided before all workers are done or the final status is there, 0 on RESP_OK and 1 on RESP_ERR |
| Outcome.ConfirmedExit | src/client/mod.rs:167-185 | in every run, a client that waits for the final status exits with 0 iff it is RESP_OK, and then the output is the source and every chunk had arrived |
| Guarantees.EmptyFileNeverArrives | src/server/handler/data.rs:198-238 | in no run is a chunk of an empty file recorded or acknowledged, or its session ended with RESP_OK |
| Guarantees.AssemblyCrashRecovers | src/server/file_receiver.rs:181-208 | from a crash anywhere in assembly the next session finds the finished output, or exactly the parts not yet removed |
| Recovery.AlwaysRecoverable | src/server/handler/control.rs:57-262 | from every reachable state and for every honest file that is not empty, the programs' own steps (no interrupt, no corruption, no other file) can end the session and deliver in a new one, with exit code 0 and the output equal to the source |
| Recovery.DeliverableIff | src/client/worker.rs:69-115 | a fresh server can get the file from sessions of its own iff `--retries` is positive and the file is not empty |
| Recovery.EmptyDeliverableIff | src/server/handler/control.rs:97-102 | from any reachable state between sessions, an empty file is delivered by its own sessions iff the output was empty already |
| Recovery.AssemblyFinishes | src/server/file_receiver.rs:173-209 | from any point of an assembly without an error so far, its operations can all succeed, and then the status is RESP_OK |
| Recovery.LoadFinishes | src/server/file_receiver.rs:85-162 | from any point of a resume validation its operations can all succeed |
| Recovery.ChunkDelivered | src/server/handler/data.rs:61-307 | between an idle worker and an idle handler a chunk can always be delivered or skipped |
| Interruption.ExitZeroWithoutDelivery | src/client/mod.rs:156-160 | a concrete run without interrupt in which exit code 0 comes with no output and no chunk |
| Induction.NextKeeps | src/server/handler/control.rs:57-262 | every step of every participant keeps the invariant |
| Induction.RunKeeps | src/server/handler/control.rs:57-262 | the invariant holds in every state of every run |
| ConnSteps.HandlerKeeps | src/server/handler/data.rs:61-114 | each step of a connection handler keeps what is known about its connection |
| ConnSteps.WorkerKeeps | src/client/worker.rs:146-226 | each step of a worker keeps what is known about its connection |
| ConnSteps.SaveStageStep | src/server/metadata.rs:149-161 | in the middle of a save the disk shows only the old or the complete new metadata |
| SessionSteps.BeginKeeps | src/server/handler/control.rs:97-149 | starting a session on any reachable disk keeps the invariant |
| SessionSteps.PlanIsSafe | src/server/file_receiver.rs:85-162 | resume validation on a reachable disk removes no good part, and writes only metadata that is true |
| Handling.ChunkAlone | src/server/handler/data.rs:174-307 | of one handler alone: however the disk behaves, its path from taking a chunk to idle ends as the code's contract says |
| Server.Handle | src/server/handler/data.rs:61-114 | by steps of the state machine only, whatever the others do meanwhile; every message taken is dealt with; the connection ends only because the transfer has failed, no frame came, or the answer to a query could not be sent |
| Server.HandleQuery | src/server/handler/data.rs:129-151 | the set is read under the lock and sent outside it, as two steps; the connection is closed only if sending failed |
| Server.ProcessChunk | src/server/handler/data.rs:174-254 | a frame is judged, stored and answered by steps of the state machine |
| Server.VerifyAndWriteChunk | src/server/handler/data.rs:269-307 | the part is written outside the lock; a chunk with the right hash is refused only if a disk operation failed |
| Server.RecordChunk | src/server/handler/data.rs:289-302 | flag, hash and save under the lock; the save fails only with the disk, and then the transfer is marked as failed before the lock is given back |
| Server.Save | src/server/metadata.rs:149-161 | write, rename and removal as steps between which anything may happen |
| Server.RestOfSystem | src/server/handler/data.rs:61-114 | in every run, what a connection sees is a step of its handler or covered by the interference that `Handle` allows |
| Client.SendChunk | src/client/worker.rs:41-116 | only steps of the state machine; at most `retries` frames, each with the timeout of its attempt, and exactly the sleeps between them; `Err` iff an operation failed or every one of the retries was refused; giving up costs at most T*r*(r+1) s of timed waits and 100*r*(r-1) ms of sleep |
| Client.SendWithRetries | src/client/worker.rs:69-115 | the retry loop: delivered, or `Ok(false)` iff there are no retries to make, or given up for a fault or for as many refusals as retries |
| Client.AttemptsGetMore | src/client/worker.rs:66-71 | attempt k gets k times the base timeout, and its bytes k times the time they need at the assumed throughput |
| Client.Attempt | src/client/worker.rs:71-106 | one frame: accepted, refused by the server with the next attempt due, or broken by a fault |
| Client.SendOne | src/client/worker.rs:180-214 | a chunk is reported once; out of reach fails without the flag; in reach it fails only after a fault or as many refusals as retries, and then the flag is raised |
| Client.SendAll | src/client/worker.rs:172-215 | the lists returned are the ones of the state machine; every failure is out of reach or had a cause; unless stopped, each chunk is delivered, failed or was in the server's answer |
| Client.Work | src/client/worker.rs:146-226 | from start to end by steps of the state machine only, at most indices * retries frames, whatever the others do meanwhile; no chunk in reach fails without a fault or as many refusals as retries |
| Client.QueryReceived | src/client/worker.rs:119-143 | the answer is read in one step of the state machine; it fails only if an operation failed |
| Client.RestOfSystem | src/client/worker.rs:146-226 | in every run, what a connection sees is a step of its worker or covered by the interference that `Work` allows |
| Client.FirstByteDecides | src/client/worker.rs:96-112 | the client's test on the first byte of an answer accepts exactly the replies that the state machine accepts |
| Client.HaveIsRead | src/client/worker.rs:119-143 | from the bytes of any reply the client reads exactly the set the server sent |
| Client.PartsAreMessage | src/client/worker.rs:60-75 | header, data and hash sent in parts are one frame that parses to the intended chunk |
| Receiver.LoadTwice | src/server/file_receiver.rs:85-162 | after a validation whose disk operations succeed, a second one changes nothing and returns the same |
| Receiver.ResumeIsExact | src/server/file_receiver.rs:85-162 | what is found is exactly the stored entries that verify, failing parts are gone, the stored metadata is what was found; nothing is found iff nothing was stored or it is of no use, and then no metadata and no part of the transfer is left |
| Receiver.PurgeIsComplete | src/server/metadata.rs:210-218 | a purge leaves no metadata and none of the parts, and everything else |
| Receiver.MatchesIsSameTransfer | src/server/metadata.rs:176-187 | stored metadata matches iff it is the empty record of the transfer offered with some hashes filled in |
| Receiver.FileReceiver.LoadOrPurgeMetadata | src/server/file_receiver.rs:85-162 | performs exactly the plan, never touches a part that verified |
| Receiver.FileReceiver.RemoveCorrupt | src/server/file_receiver.rs:114-127 | the loop over the stored entries |
| Receiver.FileReceiver.CleanMeta | src/server/file_receiver.rs:142-152 | the rewritten record holds exactly the entries that verified |
| Receiver.FileReceiver.Resume | src/server/handler/control.rs:131-149 | flags are the keys found; all present iff every flag is set; a key out of bounds is an error |
| Receiver.FileReceiver.RecordChunk | src/server/file_receiver.rs:75-79 | flag, hash and file, or a save that the disk failed and that leaves the stored metadata alone |
| Receiver.FileReceiver.IsComplete | src/server/file_receiver.rs:69-71 | true iff every flag is set |
| Receiver.FileReceiver.VerifyAndWriteChunk | src/server/handler/data.rs:269-307 | a wrong hash changes nothing; otherwise stored and recorded, or a disk operation failed and the transfer has failed |
| Receiver.FileReceiver.ProcessChunk | src/server/handler/data.rs:174-254 | exactly which frames are accepted, refused, unanswered or a panic, and what each leaves behind |
| Receiver.ChunkExpectedIff | src/server/handler/data.rs:198-238 | a chunk as the client sends it has the expected size iff the file is not empty; otherwise it gets no answer |
| Receiver.FileReceiver.Assemble | src/server/file_receiver.rs:173-209 | success means the output is the parts joined in order and has the announced hash, and the metadata is removed; `Err` needs a failed disk operation, `false` a missing part or a wrong hash; at every exit the copied parts are gone and the others untouched |
| Receiver.FileReceiver.CopyPart | src/server/file_receiver.rs:187-196 | the 64 KiB copy loop appends exactly the part |
| Metadata.RoundTrip | src/server/metadata.rs:70-146 | decoding the encoding gives the record back iff its values fit their fields |
| Metadata.EncodeInjective | src/server/metadata.rs:81-88 | two records in range with the same bytes are the same |
| Metadata.TruncatedIsRejected | src/server/metadata.rs:117-124 | a prefix of an encoding is rejected iff it is a strict one |
| Metadata.AcceptedIff | src/server/metadata.rs:94-124 | bytes are accepted iff they have the magic, version 1 and all the entries announced |
| Metadata.TransferMetadata.ToBytes | src/server/metadata.rs:70-91 | the bytes depend on the map only, not on its order of iteration |
| Metadata.TransferMetadata.FromBytes | src/server/metadata.rs:94-146 | decodes, or rejects short, foreign and truncated data |
| Metadata.TransferMetadata.Save | src/server/metadata.rs:149-161 | new metadata or the old one, never a mixture; it fails only with the disk |
| Metadata.TransferMetadata.Load | src/server/metadata.rs:164-173 | none, an error, or the stored record |
| Metadata.TransferMetadata.VerifyPart | src/server/metadata.rs:191-207 | true iff entry and part exist and the hash matches |
| Metadata.TransferMetadata.Purge | src/server/metadata.rs:210-218 | no metadata and none of the parts 0..num_chunks is left unless a removal failed; nothing else is touched |
| Metadata.Sort | src/server/metadata.rs:82-83 | any order of iteration is sorted to the one increasing enumeration of the keys |
| Chunks.SizeAgreement | src/server/handler/data.rs:198-238 | client and server agree on the size of every chunk, which is 1..chunk_size and never underflows |
| Chunks.SidesAgreeIff | src/client/mod.rs:229-233 | for every chunk the two sides agree on its size iff the file is not empty |
| Chunks.SizesSumToFile | src/client/worker.rs:189-190 | the sizes add up to the file size |
| Chunks.ChunkCountIsStable | src/main.rs:137-157 | at most N chunks, and re-running with the resulting count changes neither size nor count |
| Chunks.ChunkCountExact | src/main.rs:137-157 | exactly N chunks iff (N-1)*ceil(size/N) < size |
| Chunks.CutIsSmallest | src/main.rs:142-157 | the announced count belongs to the announced chunk size, which is the smallest that gives at most N chunks |
| Chunks.ChunkCountNotExact | src/main.rs:142 | 10 bytes in 6 chunks are 5 chunks |
| Chunks.CutByCountDefined | src/main.rs:137-157 | when the cut is an error, a panic or a result |
| Assignment.SetupWorkers | src/client/mod.rs:423-436 | the loop builds exactly the round-robin lists |
| Assignment.AssignedPartition | src/client/mod.rs:431-436 | the lists partition the chunks, differ in length by at most one, none is empty if there are enough chunks |
| Assignment.AssignedRising | src/client/mod.rs:431-436 | every list is strictly increasing |
| Assignment.EveryChunkGiven | src/client/mod.rs:423-436 | every chunk is given to a worker iff `--parallel` is positive |
| Assignment.SpawnWorkers | src/client/mod.rs:500-523 | one job per list that is not empty, on the port of its number |
| Assignment.EveryChunkOneJob | src/client/mod.rs:500-523 | jobs have pairwise different ports and every chunk is in exactly one of them |
| Frames.Stream.SendParts | src/protocol.rs:74-87 | sending buffers is sending their concatenation as one frame |
| Frames.Stream.Send | src/protocol.rs:63-72 | appends length and payload |
| Frames.Stream.Recv | src/protocol.rs:91-117 | takes exactly the first frame, or fails iff there is none or it is too long |
| Frames.TimeoutIsEnough | src/protocol.rs:54-60 | exactly how the timeout grows; n bytes always get the time they need at the assumed throughput |
| Frames.FrameRoundTrip | src/protocol.rs:63-117 | a frame comes back with the rest untouched iff it is at most 16 MiB |
| Frames.CutStream | src/protocol.rs:91-117 | any byte prefix of a stream of frames decodes to exactly the frames before the cut |
| Frames.StreamRoundTrip | src/protocol.rs:91-117 | a stream of frames decodes to those frames |
| Messages.ChunkRoundTrip | src/server/handler/data.rs:180-246 | a chunk message is read back exactly, fits a frame iff its data does, and is never taken for a query |
| Messages.FillHeader | src/client/worker.rs:60-64 | the buffer filled in place is index, offset and size |
| Messages.BuildHave | src/server/handler/data.rs:129-151 | the reply lists the received indices |
| Messages.ParseHave | src/client/worker.rs:124-142 | reads the listed set, nothing from a short reply, and tells where indexing would panic |
| Messages.HaveRoundTrip | src/server/handler/data.rs:129-151 | for up to 1,000,000 chunks the reply fits a frame and the client reads exactly the received set |
| Messages.HandshakeRoundTrip | src/server/handler/control.rs:336-442 | the server reads what the client announced iff every value is in range and the name is one of a file |
| Messages.HandshakeAcceptedIff | src/server/handler/control.rs:336-442 | exactly which bytes are accepted as a handshake |
| Messages.ParseResponse | src/client/mod.rs:263-284 | status and ports, or an error for a short response |
| Messages.BuildResponse | src/server/handler/control.rs:607-624 | the bytes of a response |
| Messages.ResponseRoundTrip | src/server/handler/control.rs:607-624 | the client reads the ports that were bound iff there are at most 255 |
| Paths.PathsClash | src/server/file_receiver.rs:60-62 | exactly when two temporary or final paths of two transfers are the same string |
| Paths.ForeignStep | src/server/metadata.rs:149-161 | a disk step of another transfer changes nothing that this transfer sees |
| Paths.OwnStep | src/server/metadata.rs:149-161 | every disk step on the real paths, complete, partial or failed, is the step of the private view and touches no other path |
| Paths.SideBySide | src/server/file_receiver.rs:60-62 | in every run of two transfers of different names on one file system, each is in a state that it reaches in a run of its own |
| Ports.FirstFitIsFirst | src/server/handler/control.rs:292-305 | increasing, as many as wanted or available, and no smaller bindable port passed over |
| Ports.PortServer.BindAll | src/server/handler/control.rs:292-315 | the nested loops find the first fit, trying each port at most once |
| Ports.PortServer.AllocateSockets | src/server/handler/control.rs:276-315 | for the smaller of count and max_parallel: succeeds iff the permits suffice and wanted + listening + stuck + foreign ports fit the range; the result is the first fit of the free ports; a failure to bind loses the permits |
| Ports.PortServer.TryReserve | src/server/mod.rs:84-92 | all or nothing |
| Ports.PortServer.Register | src/server/mod.rs:111-116 | the registry step of the ledger |
| Ports.PortServer.Cleanup | src/server/handler/control.rs:633-645 | registry entries and permits are given back, listeners are not |
| Ports.LedgerHolds | src/server/mod.rs:80-97 | permits + ports held, counted per transfer, + lost permits = 1001 over all runs of many transfers |
| Ports.RoutingIsRight | src/server/mod.rs:126-138 | a connection resolves to the active transfer that bound the port last, or to none, and to none exactly if a transfer given that port has been cleaned up since |
| Ports.CleanupCutsOff | src/server/handler/control.rs:633-645 | a reachable state in which an active transfer's own port leads nowhere |
| Ports.RangeIsSplit | src/server/handler/control.rs:292-305 | free + foreign + listening + stuck ports are the whole range |
| Ports.LiveCount | src/server/handler/control.rs:514-527 | listeners of active transfers are at most the held ports, and equal to them iff no accept has failed on a held one |
| Ports.StuckIff | src/server/handler/control.rs:514-527 | in every run a port is stuck exactly if the transfer listening on it was cleaned up and its accept has not failed since |
| Ports.StuckStep | src/server/handler/control.rs:514-527 | one step: only a failing accept frees a stuck port, only a cleanup makes one |
| Ports.PortsRunOut | src/server/handler/control.rs:633-645 | a reachable state with all permits, no active transfer, and every allocation of a port bound to fail |

## Left out

- TLS, sockets, tokio scheduling: reliable byte streams and nondeterministic steps instead.
- BLAKE3 itself and incremental hashing: a function of the whole content.
- Command line, `parse_chunk_size` (floating point), addresses, progress bars, logging, URL download: no hard property.
- File names: byte strings without a directory part; UTF-8 lossy conversion and the directory part that `Path::file_name` strips are not modelled.
- Two simultaneous transfers of one file name: the code has no guard; the state machine has one session of a name at a time.
- Handlers of an earlier session that are still alive (`cleanup` detaches them): a session starts after the earlier one's handlers are gone; a stale handler could save old metadata.
- Hostile peers: the runs are those of the repository's own client and server; the single functions (`ProcessChunk`, `FromBytes`, `ParseHandshake`, `ParseHave`, `Recv`) take any bytes.
- Corruption of the metadata file and of the temporary metadata file: only parts and the output are altered between sessions.
- Read errors on existing files other than "not there": `verify_part`, `check_existing_file` and assembly read what is there.
- Worker tasks that panic: `run_workers` drops their chunk lists; the workers of the modelled runs do not panic.
- Fairness: `Recovery` shows that a delivery always remains possible, not that a schedule must reach it.
- Client.SendChunk: `Duration` saturation and the overflow of the sleep's factor are not modelled; the bounds hold with and without them.
- Client.Work: the connection is closed when the worker ends; that the server's handler notices is not modelled.
- Ports.PortServer.AllocateSockets: the set of bindable ports is fixed during one allocation, and one allocation is one step of the ledger; ports of other programs are a parameter.
- Receiver.FileReceiver.ProcessChunk: describes the release build where `file_size` is smaller than the chunks before the last; there a debug build panics on the subtraction (src/server/handler/data.rs:214), a release build wraps to a size that no chunk has.
- Messages.BuildResponse: the number of ports is cast to one byte as in the code; `--max-parallel` above 255 therefore breaks the round trip, as `ResponseRoundTrip` states.
