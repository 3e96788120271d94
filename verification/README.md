# Verification of splice

A Dafny model of the state machines at the heart of `splice`, a peer-to-peer pipe daemon,
with proofs of what they promise over whole runs. Check it with
`dafny verify dfyconfig.toml`.

## What is modelled

Each file is one component; classes carry the fields and loops of the source and are proved
against functions, and the properties are lemmas about those functions.

- **The resumable file protocol** (`Crc32`, `LongDivision`, `Text`, `FileLines`, `SafePath`,
  `GetFile`, `GetPlace`, `ShareFile`, `TransferEntry`, `Transfer`, `TransferProgress`). The sending and
  receiving ends, the receiver's disk, and the two byte streams between them, which may be
  delivered in any pieces. A history is any sequence of deliveries, replies, pumping, and
  cutting the link and running the get again on the disk it left (with or without
  OVERWRITE). Safety holds for all histories; progress for all runs between cuts.
- **The daemon's splice state** (`Splice`, `SpliceCredit`, `SpliceSockets`, `SpliceCounters`,
  `SpliceRuns`, `SplicePolling`, `SpliceBytes`, `SpliceTerms`, `SpliceOutcomes`,
  `SpliceDaemon`). Registrations, instances, queued client
  output, watched and paused sockets, for any number of sessions. A run is any sequence of
  the daemon's events; the kernel's and the network's choices are inputs.
- **Reload** (`Reload`, `ReloadFrame`), **control lines** (`ControlLine`).
- **EXEC** (`ExecFrames`, `ExecEnd`, `ExecClient`): framing, exact flow control, and the two
  ends put together.
- **Paths** (`PathChoice`, `PortFollow`): the candidate table and the choice with
  hysteresis; the question for the peer's port against a network that loses, reorders,
  replays and puts any MAC it has seen on packets of its own.
- **Pairing** (`Pairing`): the negotiation, with symbolic cryptography.
- **Server tables** (`RateLimit`, `CodeAlloc`, `RelayTable`).

`BitFacts` holds facts about 32-bit words, `Wrappers` what several components share.

Byte streams, and what `std::string` holds, are Dafny strings; a checksum uses the low eight
bits of a character. Fields such as `published`, `credit`, `seen` or `moments` in the
specification records, and an instance's `log`, are bookkeeping: they log what the source
does and never steer it.

## Where the code decides

- A record beside a partial file is recognised again only for paths of at most 767
  characters that do not begin with white space; for others a cut transfer starts over
  (`FileLines.MetaRecognised`, `TransferEntry.ResumesWhereCut`).
- A partial file that exists but cannot be written gets the record of the offer all the
  same (`TransferEntry.ForeignRecorded`): it is recognised later whatever it holds, and
  refused again. So the prefix property is about partial files that can be written.
- A client that sends while its tunnel is full is taken off the poller for writing too, and
  only its reader comes back. Output queued for it then waits, its window uncredited, until
  more arrives for it; if it is closed before that, until it is given up after 30 seconds
  (`SplicePolling.StalledInput`, `PolledUnlessStalled`, `ClosedWhileStalled`).
- A connection lost in the middle of its handshake line leaves what it brought in the line
  buffer, in front of the next dial's answer, which is then misread (`SpliceOutcomes.StaleLine`;
  `OwnLineWhen` has the exact condition). What is spliced to the client comes from the new
  connection all the same (`SpliceBytes.ClientGets`).
- A peer whose file was renamed by hand, and that is called by its new name before a reload,
  has two sessions; reloading loses the older one without dropping it
  (`Reload.CalledByNewName`, `NoneLost`).
- A control line loses empty arguments and cuts arguments at vertical tabs and form feeds
  (`ControlLine.LineRead`), and is refused with its connection when it is longer than 4096
  bytes (`ControlLine.CommandArrives`).
- Eviction by the rate limiter can be seen, and lets an address have more than its rate,
  exactly when the idle time does not refill a bucket (`RateLimit.UnseenWhen`,
  `BoundedWhen`).
- A code pool that starts empty below its cap grows for ever (`CodeAlloc.GrowthEnds`).

## Model

| member | source | states |
|---|---|---|
| Crc32.Table.Build | src/peer/pipes.cpp:73-82 | the table holds, for each of the 256 bytes, eight bitwise steps with 0xEDB88320 |
| Crc32.Table.CrcUpdate | src/peer/pipes.cpp:73-87 | the table loop computes the bit-by-bit register of the definition, inverted before and after |
| Crc32.Table.CrcFile | src/peer/pipes.cpp:88-103 | reading in chunks of any size gives the checksum of the first `upto` bytes, and 0 for a file that cannot be opened |
| Crc32.UpdateComposes | src/peer/pipes.cpp:73-87 | the checksum of a ++ b is the checksum of a updated with b |
| Crc32.TableStep | src/peer/pipes.cpp:85 | one lookup and a shift by eight equal eight single-bit steps |
| Crc32.FeedInjective | src/peer/pipes.cpp:84-86 | for given bytes, different registers never meet |
| Crc32.FourBytesSeen | src/peer/pipes.cpp:84-86 | from one register, different four-byte words lead to different registers |
| Crc32.BurstSeen | src/peer/pipes.cpp:73-87 | two different inputs of one length that differ only inside four consecutive bytes have different checksums |
| LongDivision.RegisterDivides | src/peer/pipes.cpp:84-86 | the shifting register is long division of the message by the generator polynomial |
| LongDivision.ChecksumIsDivision | src/peer/pipes.cpp:73-87 | the computed checksum is the remainder that RFC 1952 section 8 defines, over all inputs |
| Text.DecReads | src/peer/pipes.cpp:208 | a decimal number written is read back by strtoull as the same number |
| Text.HexReads | src/peer/pipes.cpp:104-108 | eight hexadecimal digits are read back as the same number |
| FileLines.HeaderRoundTrip | src/peer/pipes.cpp:207-211 | an offer line for any 64-bit size, 32-bit checksum and plain path is parsed to exactly that offer, and holds no newline |
| FileLines.ResumeRoundTrip | src/peer/pipes.cpp:171-174 | a RESUME line is read back as its offset, is at most 27 characters and holds no newline |
| FileLines.MetaRecognised | src/peer/pipes.cpp:335-343 | the record beside a partial file is recognised for its own offer exactly when the path has at most 767 characters and does not begin with white space |
| SafePath.SafeRelpath | src/peer/pipes.cpp:49-70 | the character loop reduces a path to its proper components, or to received.file |
| SafePath.SafeStaysInside | src/peer/pipes.cpp:49-70 | the reduced path has no empty, dot or dot-dot component and is not absolute, whatever was received; reducing again changes nothing |
| SafePath.SafeKeepsProper | src/peer/pipes.cpp:49-70 | the reduced path has exactly the proper components of what was received, in order; without any it is received.file |
| GetFile.GetFileEnd.OnTunnelData | src/peer/pipes.cpp:268-295 | for every piece the loop ends in the state, disk and answers of the byte-at-a-time machine |
| GetFile.GetFileEnd.DoHandleHeader | src/peer/pipes.cpp:297-372 | END finishes, anything else that is no offer fails, an offer begins an entry: the same outcome as the specification in every branch |
| GetFile.OtherLines | src/peer/pipes.cpp:297-310 | a first line of another protocol is refused, the last line of this one ends the get, and neither touches the disk |
| GetFile.HeaderTooLong | src/peer/pipes.cpp:274-281 | a header that is no line after 8192 bytes is refused, whatever follows |
| GetPlace.OfferStored | src/peer/pipes.cpp:314-320 | an offer into a directory is stored at the directory, a slash and a path of proper components, which is the offered one if that is proper; any other target is the file itself |
| GetPlace.DirsMade | src/peer/pipes.cpp:314-320 | every directory on the way to the file is made, unless a file is in its place, and no other |
| GetPlace.PublishedInside | src/peer/pipes.cpp:268-386 | whatever bytes the peer sends: every file published is below the target directory (or is the target), and no other file than these and what is kept beside them is made, changed or removed |
| GetPlace.NothingBeside | src/peer/pipes.cpp:374-386 | whatever came before, the byte that completes a file leaves neither its partial file nor the record of that |
| GetPlace.ClosedDecides | src/peer/pipes.cpp:388-395 | once closed, a get has been told the end of the files and has no error, or has an error, which is "incomplete" exactly when nothing was wrong before |
| GetFile.GetFileEnd.KeepPart | src/peer/pipes.cpp:327-352 | the kept length and its checksum are those of a partial file whose record matches this offer, else zero |
| GetFile.GetFileEnd.DoOpenPart | src/peer/pipes.cpp:354-366 | append behind the kept bytes, or start the partial file and its record afresh |
| GetFile.GetFileEnd.DoFinishEntry | src/peer/pipes.cpp:374-386 | publish exactly when the checksum agrees and the rename is let through; drop both files on a mismatch |
| GetFile.GetFileEnd.OnTunnelClosed | src/peer/pipes.cpp:388-395 | an early close reports incomplete and leaves the disk alone; see GetPlace.ClosedDecides |
| GetFile.StepSound | src/peer/pipes.cpp:268-386 | while receiving, the partial file is as long as counted, short of the size, and its checksum is the running one |
| GetFile.FeedConcat | src/peer/pipes.cpp:268-295 | feeding a then b is feeding a ++ b: state, disk and RESUME output |
| GetFile.CutAnywhere | src/peer/pipes.cpp:268-295 | feeding any list of pieces is feeding their concatenation |
| GetFile.FeedPiece | src/peer/pipes.cpp:284-293 | a run of file data taken whole equals the same bytes one at a time |
| GetFile.PublishedAsAnnounced | src/peer/pipes.cpp:374-386 | whatever is renamed into place has the announced size and checksum; no other byte publishes anything |
| GetFile.DamageRefused | src/peer/pipes.cpp:374-381 | content that differs from the announced one only inside four consecutive bytes is never published: the partial file and its record are removed |
| ShareFile.ShareFileEnd.constructor | src/peer/pipes.cpp:158-159 | the total is the sum of the sizes |
| ShareFile.ShareFileEnd.DoPump | src/peer/pipes.cpp:199-243 | the loop sends the bytes, and ends in the state, that the recursive description gives for any amount of tunnel space |
| ShareFile.ShareFileEnd.StreamChunks | src/peer/pipes.cpp:215-228 | chunks go out for as long as there is room; nothing is skipped or sent twice |
| ShareFile.ShareFileEnd.OnTunnelData | src/peer/pipes.cpp:165-197 | answers are read only while one is awaited, a line at a time; an offset past the end means the start; what follows a line in the same piece is dropped |
| ShareFile.ResumesAt | src/peer/pipes.cpp:171-190 | at an answer the file is sent from where it asks, or from its start when that is past its end; a file that cannot be opened ends the transfer |
| ShareFile.AnswerTooLong | src/peer/pipes.cpp:165-197 | an answer that is no line after 64 bytes ends the transfer, whatever follows |
| TransferEntry.Begins | src/peer/pipes.cpp:297-372 | at an offer the receiver either refuses (exactly when something is in the way or cannot be written) or answers with the number of source bytes it already has and holds just those |
| TransferEntry.Receives | src/peer/pipes.cpp:284-293 | file data keeps the partial file a prefix of the source |
| TransferEntry.Finishes | src/peer/pipes.cpp:374-386 | a complete entry of an unchanged source always passes the checksum and stands at its destination byte for byte, unless the rename is refused |
| TransferEntry.OthersResumable | src/peer/pipes.cpp:316-386 | handling one entry keeps every other entry resumable |
| TransferEntry.ResumesWhereCut | src/peer/pipes.cpp:330-367 | after a cut the next run resumes at exactly the byte reached if the record can hold the path, and from the start otherwise |
| Transfer.PumpStreams | src/peer/pipes.cpp:199-243 | however much room there is, the sender emits exactly the next source bytes, then the next message, and counts them |
| Transfer.OneKeeps | src/peer/pipes.cpp:165-386 | every byte delivered keeps the joint invariant of sender, streams, receiver and disk |
| Transfer.ReplyKeeps | src/peer/pipes.cpp:165-197 | taking any part of an answer keeps the joint invariant |
| Transfer.WritableKeeps | src/peer/pipes.cpp:199-243 | pumping at any time keeps the joint invariant |
| Transfer.CutKeeps | src/peer/pipes.cpp:388-395 | cutting the link and running the get again keeps it too |
| Transfer.ResumeSafe | src/peer/pipes.cpp:165-395 | over whole histories of pieces, cuts and re-runs: a recognised partial file that can be written is a prefix of the source, every published file equals the source and stands where its offered path says (target, slash, path), damage is never met, and done means every file is in place |
| TransferEntry.ForeignRecorded | src/peer/pipes.cpp:354-366 | a partial file of somebody else's that cannot be written is refused, and recorded as this offer's all the same |
| Transfer.OneAnswer | src/peer/pipes.cpp:165-197 | at most one RESUME is under way, only while the sender waits for it, and nothing follows it |
| TransferProgress.ActFalls | src/peer/pipes.cpp:165-386 | every cut-free step that changes anything lowers a measure of unsent bytes, bytes in flight and answers due |
| TransferProgress.NeverStuck | src/peer/pipes.cpp:165-386 | while not complete, some delivery, reply or pump changes something |
| TransferProgress.RunsToTheEnd | src/peer/pipes.cpp:165-386 | a run without errors has at most Measure steps, and one that can go no further has both ends done, one file per entry, every file in place under its offered path and sent equal to total |
| TransferProgress.NeverRefused | src/peer/pipes.cpp:316-386 | when nothing is in the way of any entry and its files can be written, no run fails |
| TransferProgress.Completes | src/peer/pipes.cpp:165-386 | from every state so reached there is a run to the end |
| TransferProgress.OneFileArrives | src/peer/pipes.cpp:165-386 | for instance, any file with a plain path reaches an empty disk, at target/path or at the target |
| SpliceDaemon.Daemon.DoAccount | src/peer/daemon.cpp:770-777 | credit goes to the connection only for bytes not acknowledged with the handshake |
| SpliceDaemon.Daemon.FlushClient | src/peer/daemon.cpp:791-824 | the write loop, over partial, refused and failed writes, does what the recursive description says |
| SpliceDaemon.Daemon.DoClientWrite | src/peer/daemon.cpp:779-789 | queue and flush; bytes for a closing client are accounted at once |
| SpliceDaemon.Daemon.DoCloseClient | src/peer/daemon.cpp:826-838 | closed at once when nothing is pending, else after the queue has drained |
| SpliceDaemon.Daemon.ReleaseOwnerFd | src/peer/daemon.cpp:906-913 | an owner socket is closed exactly when no registration and no instance of the session uses it |
| SpliceDaemon.Daemon.DoRegister | src/peer/daemon.cpp:1350-1382 | a name that exists is refused; a new one gets the next serial and zero counters, and its socket is watched |
| SpliceDaemon.Daemon.DoUnregister | src/peer/daemon.cpp:919-931 | the registration goes and its socket is released; live instances stay |
| SpliceDaemon.Daemon.DoCloseInstance | src/peer/daemon.cpp:706-758 | own socket closed, registration counted if it is still the same one, shared socket released |
| SpliceDaemon.Daemon.DoServe | src/peer/daemon.cpp:528-544 | a served request is counted, gets its registration's socket, and retires a registration whose limit is spent |
| SpliceDaemon.Daemon.InboundLine | src/peer/daemon.cpp:496-544 | meta requests, unknown names and spent limits are closed; others are served |
| SpliceDaemon.Daemon.OutboundLine | src/peer/daemon.cpp:545-585 | accepted, wrong kind, retried or given up |
| SpliceDaemon.Daemon.OnTunnelData | src/peer/daemon.cpp:480-600 | the handshake line is collected, at most 256 characters, and what came behind it is marked as acknowledged |
| SpliceDaemon.Daemon.OnOwnerReadable | src/peer/daemon.cpp:850-889 | paused when nobody can take the bytes; when the owner is gone its registration and every instance on the socket end |
| SpliceDaemon.Daemon.ResumeOwners | src/peer/daemon.cpp:891-904 | exactly the paused sockets whose readers all have room are watched again |
| SpliceDaemon.Daemon.OnClientReadable | src/peer/daemon.cpp:655-680 | a client whose tunnel is full is taken off the poller for reading and writing; one that went away ends its instance |
| SpliceDaemon.Daemon.DoResumeClient | src/peer/daemon.cpp:1204-1207 | a client whose tunnel has room again is watched again, for reading only |
| SpliceDaemon.Daemon.DoExpire | src/peer/daemon.cpp:1224-1228 | only an outbound instance that never connected is given up, and its client is told |
| SpliceDaemon.Daemon.DoGiveUp | src/peer/daemon.cpp:1149-1158 | a closing client is closed undrained only after its time |
| SpliceDaemon.Daemon.DoRetire | src/peer/daemon.cpp:1185-1191 | the search loops remove just the registrations whose serials were queued |
| SpliceDaemon.Daemon.DoDropSession | src/peer/daemon.cpp:936-956 | the instances and registrations listed are exactly the session's, each once; they, the owner sockets, queue links and pauses of the session go |
| SpliceCredit.FlushKeeps | src/peer/daemon.cpp:791-824 | partial writes, full sockets and dead clients conserve every instance's window |
| SpliceCredit.DataKeeps | src/peer/daemon.cpp:593-599 | arriving data is either queued or accounted, never both |
| SpliceCredit.LeftoverKeeps | src/peer/daemon.cpp:586-589 | bytes that came with the handshake count as acknowledged until used up |
| SpliceCredit.GiveUpKeeps | src/peer/daemon.cpp:1149-1158 | giving up on a client loses no live instance's credit |
| SpliceRuns.CreditConserved | src/peer/daemon.cpp:770-838 | in every run: bytes arrived = bytes credited + handshake bytes used up + bytes queued, and never more credit than arrived under hold |
| SpliceRuns.FlushInOrder | src/peer/daemon.cpp:791-824 | what a client has taken and what is left make up, in order, what was pending |
| SpliceBytes.ClientGets | src/peer/daemon.cpp:480-600 | in every run, for every open instance on a client socket: what its client has taken and what is queued for it are, in order, all that its connection brought behind the first newline, unless the kernel reported the client dead |
| SpliceBytes.WriteTakes | src/peer/daemon.cpp:797-810 | a write moves from the queue to the client just the bytes the kernel says it took |
| SpliceBytes.FlushFlows | src/peer/daemon.cpp:791-824 | flushing any socket changes for no instance what its client is given, but for those queued on one that died |
| SpliceBytes.DataFlows | src/peer/daemon.cpp:593-599 | data for an instance is added to what its client is given, and to nobody else's |
| SpliceBytes.LineEnds | src/peer/daemon.cpp:486-494 | the line and what is behind it are those of what this connection brought, even when the buffer starts with the end of an earlier one's |
| SpliceSockets.FlushKeeps | src/peer/daemon.cpp:791-824 | after a flush the socket is polled for writing exactly when output is left, and a drained closing one has been closed once |
| SpliceSockets.CloseInstanceKeeps | src/peer/daemon.cpp:706-758 | ending an instance keeps every socket open exactly while needed |
| SpliceSockets.UnregisterKeeps | src/peer/daemon.cpp:919-931 | so does unregistering |
| SpliceSockets.OwnerReadableKeeps | src/peer/daemon.cpp:850-889 | so does the owner's data and its exit |
| SpliceSockets.DropKeeps | src/peer/daemon.cpp:936-956 | so does dropping a session, in whatever order its tables are walked |
| SpliceSockets.NotDraining | src/peer/daemon.cpp:826-838 | no live instance is on a socket that is being closed |
| SpliceRuns.SocketsKept | src/peer/daemon.cpp:826-956 | in every run: a client socket is open exactly while a registration or instance uses it or its last output drains, is closed once, leaves no stale entry, and an owner socket in use is watched or paused, never both, and polled for writing exactly while output waits; no socket is polled without output |
| SplicePolling.PolledUnlessStalled | src/peer/daemon.cpp:655-680 | in every run: output queued for a socket is polled for exactly when its reader has not found the tunnel full since the last bytes were flushed to it |
| SplicePolling.StalledInput | src/peer/daemon.cpp:664-669 | a run after which output is queued, its window uncredited, and the poller does not wait for it |
| SplicePolling.ClosedWhileStalled | src/peer/daemon.cpp:826-838 | a client closed in that state keeps all its queued bytes, unwritten, through every run until it is given up |
| SpliceCounters.ServeKeeps | src/peer/daemon.cpp:521-534 | a served instance raises started and active together and never passes the limit |
| SpliceCounters.CloseInstanceKeeps | src/peer/daemon.cpp:740-748 | an ended instance moves from active to finished of its own registration only |
| SpliceCounters.RegisterKeeps | src/peer/daemon.cpp:840-843 | a name used again starts at zero and no live instance carries its serial |
| SpliceRuns.CountersRight | src/peer/daemon.cpp:511-538 | in every run: started = active + finished, active = live instances with the serial, started within the limit |
| SpliceTerms.TermsKept | src/peer/daemon.cpp:511-534 | in every run a registration has the limit and the socket it was last registered with, has started as many instances as it was granted requests since, and never more than that limit |
| SpliceTerms.GrantedWhen | src/peer/daemon.cpp:496-544 | after every run a request is granted exactly when its name is registered (and is none of the two the daemon answers itself) and fewer requests than its limit were granted since; who is granted it gets the registered socket, who is not is closed |
| SpliceTerms.RetiredWhen | src/peer/daemon.cpp:1185-1191 | after every run the tick removes exactly the registrations whose limit is spent |
| SpliceRuns.EventKeeps | src/peer/daemon.cpp:413-956 | every event keeps the three invariants together |
| SpliceOutcomes.ReadyFirst | src/peer/daemon.cpp:579-589 | a client is told that it is connected before the first byte of the stream: queued are the daemon's words, then what came behind the line |
| SpliceOutcomes.RefusedTold | src/peer/daemon.cpp:549-577 | an answer of another kind, or a refusal nobody waits for, ends the instance; why is queued for its client, whose socket is closed only after that |
| SpliceOutcomes.RefusedRetries | src/peer/daemon.cpp:562-573 | an instance that waits for the name gives up its connection only |
| SpliceOutcomes.ExpiryTold | src/peer/daemon.cpp:1196-1228 | at its deadline exactly an outbound instance that is neither open nor connected ends, and its client is told |
| SpliceOutcomes.NoLineYet | src/peer/daemon.cpp:486-492 | a handshake without a newline is collected up to 256 bytes; more ends the instance |
| SpliceOutcomes.GivenUpWhen | src/peer/daemon.cpp:826-838 | a client closed with output left is waited for exactly 30 seconds, then closed with its queue |
| SpliceOutcomes.OwnerPausedThenWatched | src/peer/daemon.cpp:850-904 | an owner is read exactly while it has readers and all have room; else it is paused, and watched again just as before once that is so |
| SpliceOutcomes.PausedThenWatched | src/peer/daemon.cpp:655-680 | a client paused for a full tunnel is watched for reading again just as before exactly when there is room |
| SpliceOutcomes.OwnerEnds | src/peer/daemon.cpp:850-889 | an owner that ends takes exactly its registration and the inbound instances on its socket with it |
| SpliceOutcomes.ClientEnds | src/peer/daemon.cpp:655-680 | a client with room that has gone takes exactly its instance with it; one that sends nothing changes nothing |
| SpliceOutcomes.GoneWhen | src/peer/daemon.cpp:602-611 | a lost connection ends exactly an instance that was open or inbound; a failed dial is retried |
| SpliceOutcomes.OwnLineWhen | src/peer/daemon.cpp:485-494 | after every run the handshake line an instance reads is the first line of its connection exactly when no connection before left anything in the line buffer |
| SpliceOutcomes.StaleLine | src/peer/daemon.cpp:602-635 | a run in which a connection is lost after "UN", is dialled again, and the answer "OK PIPE" is read as "UNOK PIPE" |
| Reload.Peers.DoReload | src/peer/daemon.cpp:963-1012 | the sessions become exactly the peers on disk, name for name; a peer whose uid survives goes on with a session object it had, the one under its file's name if there was one; the others are dropped or new |
| Reload.Peers.Rename | src/peer/daemon.cpp:980-991 | extracting before inserting: a renamed session is still there exactly when no unmoved session has its new name and none renamed before it took it |
| Reload.Peers.Follow | src/peer/daemon.cpp:992-1010 | records are picked up and each new peer gets one session |
| Reload.Renamed | src/peer/daemon.cpp:980-991 | after the renaming each file's name has a session of its peer, unmoved ones untouched, and there is no other |
| Reload.Peers.SessionFor | src/peer/daemon.cpp:396-411 | a session is started for a name that has none and a peer file; the others stay |
| Reload.NoneLost | src/peer/daemon.cpp:963-1012 | reloading loses no session of a peer on disk exactly when no two sessions are of one peer |
| Reload.CalledByNewName | src/peer/daemon.cpp:396-411 | a peer whose file was renamed and that was called by its new name before the reload: its old session is lost without being dropped |
| Reload.SwapKeepsSessions | src/peer/daemon.cpp:980-991 | two peers that swapped names keep their session objects, each under its new name |
| ReloadFrame.ReloadKeepsSessions | src/peer/daemon.cpp:963-1012 | a session that goes on, renamed or not, keeps its numbering, registrations, instances and sockets through every drop the reload makes |
| ReloadFrame.DropKeepsOthers | src/peer/daemon.cpp:936-956 | dropping a session leaves every other one's registrations and instances, and its sockets open, watched, paused and queued for, as they were |
| ReloadFrame.NothingLeft | src/peer/daemon.cpp:936-956 | and nothing of the dropped session in the tables |
| Reload.ReloadTwice | src/peer/daemon.cpp:963-1012 | reloading again from the same files changes nothing |
| ControlLine.CtlEncode | src/peer/daemon.cpp:1769-1782 | the appending loop escapes exactly percent, space, newline, return and tab |
| ControlLine.CtlDecode | src/peer/daemon.cpp:1784-1801 | the loop undoes escapes of two hexadecimal digits and leaves anything else |
| ControlLine.SplitWs | src/peer/daemon.cpp:63-69 | the words between white space, in order |
| ControlLine.JoinArgs | src/peer/peer_cmd.cpp:158-165 | encoded arguments joined by single spaces |
| ControlLine.DecodeEncode | src/peer/daemon.cpp:1769-1801 | decoding undoes encoding for every string |
| ControlLine.DecodeLeaves | src/peer/daemon.cpp:1784-1801 | a string without an escape of two hexadecimal digits is left as it is |
| ControlLine.LineRead | src/peer/daemon.cpp:1284-1286 | the daemon reads each argument cut at its vertical tabs and form feeds, without empty words |
| ControlLine.RoundTrip | src/peer/daemon.cpp:1284-1286 | a line gives back its arguments exactly when all are non-empty and free of vertical tab and form feed |
| ControlLine.Connection.OnReadable | src/peer/daemon.cpp:1265-1282 | bytes collect until there is a newline; more than 4096 drop the connection |
| ControlLine.CommandArrives | src/peer/daemon.cpp:1265-1286 | however the line is cut, the daemon gets the client's arguments exactly when all are non-empty and free of vertical tab and form feed and the line with its newline has at most 4096 bytes |
| ControlLine.OneLine | src/peer/peer_cmd.cpp:158-165 | the line holds no newline |
| ExecFrames.RoundTrip | src/peer/shell.cpp:52-56 | frames sent are the frames recognised, for payloads up to 65535 bytes |
| ExecFrames.ParseCut | src/peer/exec.cpp:201-235 | recognising frames in a stream does not depend on where it is cut |
| ExecFrames.ParseSize | src/peer/exec.cpp:201-235 | frames and the undecoded rest make up the stream |
| ExecEnd.ExecPipeEnd.OnTunnelData | src/peer/exec.cpp:201-238 | the decoding loop handles the frames of the buffer in order, then writes on |
| ExecEnd.ExecPipeEnd.FlushInput | src/peer/exec.cpp:295-309 | the write loop, over partial, refused and failed writes |
| ExecEnd.ExecPipeEnd.DoAccount | src/peer/exec.cpp:313-318 | only bytes that came from the tunnel are reported consumed |
| ExecEnd.ExecPipeEnd.DoDropInput | src/peer/exec.cpp:320-324 | dropped input is reported consumed once |
| ExecEnd.ExecPipeEnd.OnFdReady | src/peer/exec.cpp:183-199 | output becomes frames; on a terminal its end drops the input |
| ExecEnd.ExecPipeEnd.DoMaybeFinish | src/peer/exec.cpp:328-350 | EXIT only after both outputs are closed and the program is known to have ended |
| ExecEnd.HandleKeeps | src/peer/exec.cpp:205-234 | one frame keeps the books: header consumed at once, payload too unless it is input |
| ExecEnd.FlushKeeps | src/peer/exec.cpp:295-309 | writing, filling up or losing the program keeps the books |
| ExecEnd.FlowExact | src/peer/exec.cpp:201-238 | in every run: frames recognised are those of the whole stream; received = consumed + undecoded + unwritten - synthetic, which is at most one; the program is given exactly the client's input |
| ExecEnd.OneExit | src/peer/exec.cpp:326-350 | in every run at most one EXIT is sent and nothing follows it |
| ExecEnd.InputOpenWhen | src/peer/exec.cpp:295-309 | in every run the program's input is open exactly while the program runs, its input was not thrown away, and there is more to come: on a terminal always, through a pipe until the end was recognised and all before it is written |
| ExecEnd.FlushEmpties | src/peer/exec.cpp:295-309 | while the pipe takes bytes the queue empties: as many writes as there are bytes write them all, and then close an input that has ended |
| ExecEnd.InputEnds | src/peer/exec.cpp:295-309 | so a program that reads its input through a pipe is given all of it and then its end |
| ExecEnd.DroppedWhen | src/peer/exec.cpp:295-324 | in every run input is thrown away only when a write finds nobody there, a terminal closes, there was no input to open, or the program has ended |
| ExecEnd.EndsWhen | src/peer/exec.cpp:326-350 | in every run an output is open until the program closes it, and the program's end is noticed only once its outputs are closed, and then at the next tick at the latest, which sends the EXIT and ends the connection |
| ExecClient.ExecClientLoop.OnRead | src/peer/shell.cpp:116-138 | the client's growing-buffer loop shows and decides what the frames say |
| ExecClient.CutAnywhere | src/peer/shell.cpp:108-139 | output, error output and status do not depend on where the stream is cut |
| ExecClient.FramesArrive | src/peer/shell.cpp:108-139 | frames sent arrive as the same output, error output and status however the stream is cut |
| ExecClient.EndToEnd | src/peer/exec.cpp:183-361 | over every run of the program's end and every cut of the stream: the client shows exactly the bytes the program printed on its output and error output, and returns its exit status, 128 + signal, 126 or 127 |
| ExecClient.InputArrives | src/peer/shell.cpp:140-149 | what the client sends reaches the program's input whole |
| PathChoice.PathManager.AddCand | src/peer/pathman.cpp:459-476 | learn, refresh, or make room by dropping one that never answered and is not in use |
| PathChoice.PathManager.TouchCand | src/peer/pathman.cpp:498-505 | traffic marks or adds a candidate while there is room |
| PathChoice.PathManager.PruneCands | src/peer/pathman.cpp:481-486 | the candidates that are neither in use nor recently heard of or reported go |
| PathChoice.PathManager.ChooseDirect | src/peer/pathman.cpp:511-532 | the loop finds the first fastest living candidate and keeps the present one within a quarter of it; confirmed exactly when one is chosen |
| PathChoice.PathManager.UpdateTxPath | src/peer/pathman.cpp:436-451 | the LAN search restarts exactly when the path is lost, the port question exactly when the choice changed |
| PathChoice.AddKeeps | src/peer/pathman.cpp:459-476 | candidates stay distinct and at most 16, and the chosen one is never evicted |
| PathChoice.TouchKeeps | src/peer/pathman.cpp:498-505 | the same for traffic |
| PathChoice.PruneKeeps | src/peer/pathman.cpp:481-486 | the chosen candidate is never pruned |
| PathChoice.ChoiceIs | src/peer/pathman.cpp:511-532 | the choice lives, is within a quarter of every living candidate, and a living choice is left only for one it is more than a quarter slower than |
| PathChoice.ChoiceStays | src/peer/pathman.cpp:511-532 | choosing again on unchanged data changes nothing |
| PathChoice.TableTells | src/peer/pathman.cpp:459-505 | in every run: at most 16 candidates, all different, the chosen one among them, and each says exactly what was heard, reported and measured of its address since it entered, whatever happened to others |
| PathChoice.HeardOf | src/peer/pathman.cpp:484-505 | in every run a candidate's lastRx is the time of the latest packet or PONG from its address since it entered, and 0 if there was none |
| PathChoice.LeavesWhen | src/peer/pathman.cpp:459-486 | a candidate leaves only by pruning after two minutes without news while not in use, or to make room for a new report when it was never heard of and is not in use |
| PathChoice.EntersWhen | src/peer/pathman.cpp:459-505 | an address enters exactly when reported or heard of with room, or reported when room can be made |
| PathChoice.PathChosen | src/peer/pathman.cpp:511-532 | after every run there is a direct path exactly when some candidate was heard of within three seconds; the chosen one was, is within a quarter of every other such, and is left only for one faster by more than a quarter |
| PortFollow.MacsApart | src/peer/pathman.cpp:74-86 | no two of the four message kinds, nor the two sides, ever sign the same bytes |
| PortFollow.OpensWhen | src/peer/pathman.h:44-54 | over any calls of a timer: one opens the gate exactly when its interval has passed since the stamp and since every call before that did |
| PortFollow.PortAsker.PortDue | src/peer/pathman.cpp:576-580 | the port question's timer, with the quick or the slow interval by the tries so far |
| PortFollow.PortAsker.SendPortQuery | src/peer/pathman.cpp:250-262 | old asks are dropped, a new nonce is remembered with its time |
| PortFollow.PortAsker.OnPortQuestion | src/peer/pathman.cpp:343-362 | answered only when active, listening, signed by the other side and not remembered as answered |
| PortFollow.PortAsker.OnPortAnswer | src/peer/pathman.cpp:363-381 | accepted only for a pending nonce at most 30 seconds old with the other side's MAC; the ask is used up |
| PortFollow.PortAsker.DoSetActive | src/peer/pathman.h:119-129 | becoming active asks anew |
| PortFollow.Traced | src/peer/pathman.cpp:343-381 | a MAC that verifies was made by the side it names: the asker, or one that listened on that port after the question |
| PortFollow.EventKeeps | src/peer/pathman.cpp:250-381 | asking, answering, replaying, forging, restarting and time passing keep the invariant |
| PortFollow.PortFresh | src/peer/pathman.cpp:343-381 | in every run an accepted port is one the peer listened on between ask and acceptance, at most 30 seconds after the ask, at most once per ask |
| PortFollow.PortFollowed | src/peer/pathman.cpp:363-381 | in every run a side looks for the other on the port of the latest answer it accepted since it last restarted, or else on the one it restarted with |
| PortFollow.AnswerFollowed | src/peer/pathman.cpp:363-381 | a genuine answer to a pending question within 30 seconds is accepted, and the side then looks on the port in it, where the peer listened after the question |
| PortFollow.ExchangeFollowed | src/peer/pathman.cpp:250-381 | one exchange in full, after whatever happened before: the asker ends up looking where the peer listens |
| PortFollow.AnsweredWhen | src/peer/pathman.cpp:343-362 | in every run a question is answered exactly when the side is active and listens, the other side made the MAC, and the nonce is none of the last 64 it answered since it restarted |
| Pairing.MakeNonce | src/peer/pairing.cpp:48-53 | four zero bytes and the counter, most significant byte first |
| Pairing.NoncesApart | src/peer/pairing.cpp:48-53 | different counters give different nonces |
| Pairing.Side.UlaCollides | src/peer/pairing.cpp:207-211 | whether any stored peer has the same first eight bytes |
| Pairing.Side.DoOnOffer | src/peer/pairing.cpp:258-289 | refuse an address that collides, accept any other and record it with side bit 1 |
| Pairing.Side.DoOnReply | src/peer/pairing.cpp:231-254 | record what was accepted, move on after a refusal, give up otherwise |
| Pairing.RunLoops | src/peer/pairing.cpp:214-295 | the two attempt loops, turn by turn, are the negotiation |
| Pairing.NegotiationEnds | src/peer/pairing.cpp:214-295 | both agree or both give up within ten offers; they agree exactly when one of the ten addresses drawn is free in the follower's store |
| Pairing.PairingAgrees | src/peer/pairing.cpp:107-295 | with one code: agreement or giving up on both sides, a shared address colliding with neither store, uids differing in the side bit, keys crossed, counters equal; with two codes both fail before any offer |
| Pairing.NoNonceTwice | src/peer/pairing.cpp:185-197 | no nonce is used twice under a key by either side |
| RateLimit.TokenBucket.Allow | src/server/rate_limit.cpp:7-18 | refill up to the burst, then charge one token if there is one |
| RateLimit.RateLimiter.DoAllow | src/server/rate_limit.cpp:20-27 | the address is charged first; everybody only if it passed |
| RateLimit.RateLimiter.EvictIdle | src/server/rate_limit.cpp:29-37 | exactly the buckets idle for longer are dropped |
| RateLimit.EvictionUnseen | src/server/rate_limit.cpp:20-37 | when idle time times rate covers the burst, every packet is answered as without eviction |
| RateLimit.UnseenWhen | src/server/rate_limit.cpp:20-37 | for every fresh limiter with whole bursts: the sweeps of an idle time are never seen, in any run, exactly when that time refills a bucket |
| RateLimit.IpBounded | src/server/rate_limit.cpp:7-27 | over any window, when every sweep's idle time refills a bucket, an address gets at most burst + rate x elapsed |
| RateLimit.BoundedWhen | src/server/rate_limit.cpp:7-37 | and for every fresh limiter with whole bursts it is so held, in all runs with the sweeps of an idle time, exactly when that time refills a bucket |
| RateLimit.AllBounded | src/server/rate_limit.cpp:7-27 | and all addresses together at most theirs |
| RateLimit.FloodHarmless | src/server/rate_limit.cpp:20-27 | however much one address sends, it takes from everybody's bucket no more than its own burst and rate allow it |
| CodeAlloc.CodeAllocator.Allocate | src/server/code_alloc.cpp:27-39 | the smallest code neither active nor cooling down; none only when all below the cap are taken; a code given out before has been free for the cooldown |
| CodeAlloc.CodeAllocator.Expire | src/server/code_alloc.cpp:9-25 | codes that ran out cool down, codes that cooled down are free, the two maps stay disjoint |
| CodeAlloc.CodeAllocator.Release | src/server/code_alloc.cpp:46-49 | at once out of use, cooling down from now |
| CodeAlloc.GrowthEnds | src/server/code_alloc.cpp:35-37 | growing reaches the cap exactly when the first pool is not empty or already at the cap |
| RelayTable.PeerOfPeer | src/server/relay_table.cpp:5-8 | flipping the side bit is its own inverse and changes nothing else |
| RelayTable.Table.OnPacket | src/server/relay_table.cpp:10-19 | the answer is the source of the latest packet under the peer's uid if within the TTL, whatever was evicted when |
| RelayTable.Table.EvictExpired | src/server/relay_table.cpp:21-29 | exactly the expired entries go: left are the uids whose latest packet is within the TTL, so no later answer changes |

## Left out

- The source files of a share are unchanged while it is served, and disk writes that the
  system lets through land in order; a crash of the receiver between two disk operations is
  not a step. Paths the system refuses to write are a fixed set of the receiver's disk.
- `Transfer` assumes that the destination, partial file and record paths of different
  entries differ, relative paths hold no newline or NUL, sizes are below 2^64 and header
  lines are at most 8192 characters. The sums `total` and `sent` do not wrap.
- Re-running a get of several files without OVERWRITE stops at the first one published
  already; results about completion are about one run.
- TransferProgress.NeverRefused: one direction only; the exact condition for one offer is in
  `TransferEntry.Begins`. Over a whole run it would depend on which directories earlier
  entries have made by then.
- A partial file that is a directory, and `sscanf`'s reading of a hexadecimal prefix in a
  record written by something else.
- Collecting the files of a shared directory, progress texts, and the human-readable error
  texts (errors are kept by cause).
- Sockets, poll, TLS, lwIP, forks, terminals, signals and file-system calls, each replaced
  by the choice it makes: a write takes a prefix, a read gives bytes, nothing or the end.
- In the daemon: bytes for local ends other than client sockets (their flow control is in
  `ExecEnd`), following clients, dialling and its deadlines, meta requests of our own,
  window-size watches, persisting registrations, logging. RESET, UNREGISTER and CLOSE are
  the events Unregisters and Closes; the command lines that issue them are not parsed.
- In the daemon: what is read from a local socket is sent on at once; the model has when it is
  read, not the bytes.
- In reload: starting a session succeeds; names on disk are distinct and a peer file holds
  the name it goes by; per-peer settings are one opaque field.
- RateLimit.UnseenWhen: stated for bursts that are whole numbers of packets, at least one
  (`EvictionUnseen` and `IpBounded` hold for all bursts).
- RateLimit.BoundedWhen: likewise.
- In EXEC: starting the program, resizing its terminal, hanging it up and reaping orphans;
  the client's terminal handling.
- In path choice: round trips are arbitrary inputs, since the timer's stamp can be reset
  between a ping and its answer; which probes are sent when.
- In port following: the LAN HERE answer is not claimed to be accepted once only (its nonces are
  not used up); drawn nonces never repeat.
- In pairing: SPAKE2, HKDF, HMAC, AEAD and the message codecs are symbolic terms; drawing until
  an address fits is an input; the trust prompt and the storing of the record come after.
- In the rate limiter: floating-point rounding (tokens are real numbers) and a clock that goes back.
- In code allocation: a negative first pool size, and overflow of the pool size.
- Wire codecs, base64, configuration and store files, the pairing server's threads, CLI,
  status rendering, installer.
