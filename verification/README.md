# The transfer core of the bulletin board server, modelled and proved in Dafny

The server is a single thread around `pselect`. Every client session is a state machine that logs in, uploads a file in
packages, describes it, and downloads stored files under a credit scheme. This project models that core and proves what
holds of it in every run:

* `Prelude`, `Naming`, `Commands`, `Framing`: C arithmetic, the path that a hash leads to, the text commands, the package
  descriptor and the meaning of one upload read.
* `Deframing`, `Overruns`: whole uploads as sequences of reads, and exactly which reads the deframer can handle.
* `LineBuffer`, `Descriptions`, `Requests`: the line buffer as an in-place array algorithm, line conservation, CR LF
  normalisation, the description of an upload, and requests on their way to the parser.
* `Environment`, `SessionSpec`, `Sessions`: the machine under the server (open handles, files, directories, database
  records, bytes sent), every handler as a function, and the `Session` object whose methods carry the handlers out step by
  step and are proved equal to those functions.
* `ServerSpec`, `Server`: the connection table and the main loop, again as functions and as an object with loops.
* `Acceptance`, `CommandTurns`: exactly which requests are granted, and what every line of a client leads to.
* `Invariant`, `Confinement`: the invariant of the whole server, and the proof that every handler is confined to its own
  slot, so that every iteration keeps the invariant.
* `Isolation`, `SessionStates`, `Growth`, `Logins`, `Uploads`, `Aborts`, `Leftovers`, `Interleaving`, `Downloads`,
  `Lifecycles`: what follows from it for one session, or for any two.
* `Serving`, `Alone`, `LoopTransfers`, `Releases`: whom the main loop watches and serves; that a session with a file in
  hand fares as if it were alone; whole uploads and downloads among other sessions; and that no descriptor is lost.
* `Observer`, `ObservedTurns`, `EndToEnd`, `Directories`, `AbortedRuns`: what follows for whole runs with all sessions,
  seen by an observer who knows what every client has asked for and announced.

`dafny verify dfyconfig.toml` checks all of it.

## How to read the results

The environment speaks through a value of type `Answers` for each turn: what a read returns, whether a write succeeds,
which descriptor number the kernel offers, and so on. The theorems quantify over all of them, over all clients and over all
schedules; the hash is an arbitrary function of name and seed.

Standing assumptions:

* Inside transfers `read` returns at least 0, and a `write` is complete or fails; one that would take a file past the
  largest `off_t` fails. Nothing but the server touches storage.
* `open` and `accept` return an unused number below 1024, or fail. `s_file_pd_t` has 16 bytes: a 4-byte enumerator, 4 bytes
  of padding, an 8-byte little-endian size.
* The line buffer has one more cell than `INBUFSIZE`, for the terminator written at src/components/session/session.c:71.
  The test of the character before the newline (src/components/session/session.c:175) is guarded for one-character lines.
* Text lines contain no NUL where a lemma says so. The user number of a new session, which the C code never sets, is
  whatever it happens to be. A client sends upload bytes only after "accept" and description bytes
  only after "finished".
* At start, every database record has its file, of the recorded length.
* Variables that the C code reads before writing them (the two command words, the permission number) are part of `Answers`.

What the model shows the code not to do:

* When a storage directory cannot be made, the preparation returns without leaving the storage folder
  (src/components/file_p/file_p.c:288-297). Until the next upload request that passes its checks and gets its directory no
  stored file can be opened for a download, and an aborted upload is not removed. `Directories.RequestMovesProcess` has the
  exact condition, `Directories.TurnMovesProcess` and `Directories.ProcessStays` say that nothing else moves the process,
  `Directories.FirstDirectoryRefused` and `Directories.RefusedDirectoryHidesFiles` are the failing case, and
  `Isolation.SavedFileOpens` and `Aborts.UploadTurnEnds` say what it does to downloads and uploads.
* A read that cuts a descriptor, or that runs past the package whose descriptor it contains, puts the counters out of step
  with the stream. `Overruns.KeepsPaceIffHandled` is the exact condition for any framed stream and any read of it,
  `Overruns.KeepsPaceIffAdmissible` its form for streams without empty packages. `Overruns.SeveralPackagesInOneRead` and
  `Overruns.TwoPackagesInOneRead` show uploads that complete with wrong content,
  `Overruns.CutDescriptorIsStored` one that stores a part of its descriptor.
* "exit" is recognised only on a line without its newline (`Commands.ExitNeedsBareLine`).
* A failed database insert with a non-zero result is answered as saved (src/components/session/session.c:209) and leaves a
  file without a record, as does a zero result while the process is inside the storage folder.
  `Leftovers.DescriptionMatchesIff` says exactly when file and record agree, `Leftovers.FailedInsertLeavesFile` is an
  instance. A record always has its file.
* After a zero-length file the descriptor stays open in the waiting state: `Leftovers.UploadKeepsDescriptorIff` and
  `Leftovers.DownloadKeepsDescriptorIff` say exactly when, `Leftovers.EmptyUploadKeepsDescriptor` and
  `Leftovers.EmptyDownloadKeepsDescriptor` are instances, and `SessionStates.SessionsInOrder` says that no other file does.
  Such a descriptor is lost once the session takes up another file: `Releases.NoneLost` says that no other ever is.
* A negative number behind "continue" grants a credit of almost 2^64 (`Commands.ContinueNegative`).

## Model

| member | source | states |
|---|---|---|
| `Naming.NamesDetermineHash` | src/components/file_p/file_p.c:139-146 | parsing the two-character directory and the six-character file name as one hexadecimal number recovers every 32-bit hash |
| `Naming.PathInjective` | src/components/file_p/file_p.c:283-286 | two hashes share a storage path if and only if they are equal |
| `Commands.UploadRoundTrip` | src/components/file_p/file_p.c:223-252 | an upload request with any non-empty name, quotes included, any size below 2^63 and permissions up to 127 is recognised and read back as it was written |
| `Commands.UploadNamedIff` | src/components/file_p/file_p.c:223-243 | a line is taken for an upload request that names a file if and only if two of its quotes have something between them |
| `Commands.UploadWithoutNumbers` | src/components/file_p/file_p.c:221-245 | without a number such a request asks for an empty file, and with a single one it leaves the permissions open |
| `Requests.UploadRequestArrives` | src/components/session/session.c:68-94 | such a request, for any name without NUL and newline, that is read into an empty buffer comes out whole, with what follows it left there, and is read back as it was written |
| `Commands.DownloadRoundTrip` | src/components/file_p/file_p.c:158-180 | a download request with any name of 1 to 64 characters, brackets included, is recognised and read back as it was written |
| `Commands.DownloadUnnamedIff` | src/components/file_p/file_p.c:158-178 | the three ways in which the brackets of a line hold no name: none opens, none closes, or the first that opens stands right before the last that closes |
| `Requests.DownloadRequestArrives` | src/components/session/session.c:68-94 | likewise for a download request on its way through the line buffer |
| `Requests.ReadCutsLine` | src/components/session/session.c:68-94 | whatever the buffer holds and however much text comes, a read takes all there is room for and cuts off exactly the first line, up to its newline or to the end, without the CR before the LF; it finds an end of stream if and only if no text comes |
| `Commands.ContinueRoundTrip` | src/components/client/client.c:103-108 | "continue N" grants exactly N for every N up to INT_MAX |
| `Commands.ContinueWithoutNumber` | src/components/client/client.c:103-108 | "continue" and anything without a digit grants PACKAGE_SIZE |
| `Commands.ContinueNegative` | src/components/client/client.c:103-108 | "continue -N" grants 2^64 - N for every N from 1 to 2^31 |
| `Commands.ExitNeedsBareLine` | src/components/client/client.c:95-99 | whatever the word buffers held before, the exit command is recognised if and only if the line is the four bare characters |
| `Framing.AnnounceParses` | src/main.h:65-75 | the 16-byte descriptor a client sends for any `size_t` parses back to "continue" with that size |
| `Framing.CancelIff` | src/main.h:65-75 | a descriptor cancels if and only if its first four bytes are 1, 0, 0, 0 |
| `Framing.ReadConserves` | src/components/file_p/file_p.c:435-487 | for any bytes whatsoever and in every arm, bytes written plus the new `rest` equal the old `rest` modulo 2^64 |
| `Framing.DeframeFollowsPlan` | src/components/file_p/file_p.c:435-487 | an admissible read moves exactly the file bytes it carries from the client's stream to the file; the counters agree with the stream afterwards |
| `Deframing.ReceiveConserves` | src/components/file_p/file_p.c:417-488 | over any sequence of reads, malformed ones included, bytes stored plus bytes missing stay the declared size modulo 2^64 |
| `Deframing.ReceiveFollowsPlan` | src/components/file_p/file_p.c:417-488 | over any admissible reads the stored bytes are the payload consumed so far, and the upload completes at precisely the read that brings the last payload byte |
| `Deframing.UploadStoresFile` | src/components/file_p/file_p.c:417-488 | for every file, every list of package sizes and every admissible segmentation, exactly the concatenated payloads are stored |
| `Deframing.AlignedReads` | src/main.h:11-19 | full packages and full reads keep every descriptor on a multiple of 16, so no read cuts one and the segmentation is admissible |
| `Deframing.AlignedUploadStoresFile` | src/components/file_p/file_p.c:422-459 | with full packages and full reads any non-empty file is stored whole, with no assumption on the framing |
| `Deframing.PackagedUploadStoresFile` | src/components/file_p/file_p.c:417-488 | packaging any non-empty file and receiving it by full reads gives the file back |
| `Overruns.KeepsPaceIffHandled` | src/components/file_p/file_p.c:435-477 | for any framed stream, empty packages included, and any read of it up to its end, the counters after the read say where the stream stands if and only if the read stays in its package, or ends outside descriptors within the next one, or the file ends with that one |
| `Overruns.KeepsPaceIffAdmissible` | src/components/file_p/file_p.c:443-472 | if no package is empty, the counters after any read of the stream, the last one included, say where it stands if and only if the read is admissible, whatever the old buffer holds |
| `Overruns.SeveralPackagesInOneRead` | src/components/file_p/file_p.c:446-458 | a file of two or more packages that arrives in one read loses step and is taken for complete, and what is stored follows the first descriptor byte for byte, later descriptors included |
| `Overruns.TwoPackagesInOneRead` | src/components/file_p/file_p.c:446-458 | two one-byte packages in one read are taken for a complete file whose second byte is the first byte of a descriptor |
| `Overruns.CutDescriptorIsStored` | src/components/file_p/file_p.c:443-478 | a one-package file whose descriptor is cut anywhere, even if the old buffer holds the missing bytes, is stored behind the rest of its descriptor, and the count of missing bytes wraps |
| `LineBuffer.ExtractFromBuf` | src/components/session/session.c:143-184 | the in-place extraction hands out the first line, without its CR, and leaves exactly the text behind it at the front of the array, terminated |
| `LineBuffer.FindLineEnd` | src/components/session/session.c:148-153 | the search stops at the first newline or NUL |
| `LineBuffer.Buffer.Fill` | src/components/session/session.c:68-94 | a read appends what fits and takes the first line off; without new text nothing changes; the buffer never fills up |
| `LineBuffer.LinesConserved` | src/components/session/session.c:68-94 | over any reads and extractions the pieces cut off followed by the buffer are all characters received, in order, and the lines handed out are these pieces but for a CR before the LF; each has at most one newline, at its end; the buffer keeps room |
| `LineBuffer.DrainNormalises` | src/components/session/session.c:143-184 | draining a buffer yields its content with every CR before a LF removed |
| `Descriptions.CollectTakesLines` | src/components/file_p/file_p.c:511-537 | one call of the collector takes the whole lines of one read through the first one with the end marker and leaves the others in the buffer |
| `Descriptions.CollectTakesAll` | src/components/file_p/file_p.c:511-537 | whatever the buffer holds, with or without newlines, one call takes the line and those that extraction finds, through the first with the end marker, and leaves the text behind it |
| `Descriptions.DescriptionCollected` | src/components/file_p/file_p.c:511-537 | over any grouping of whole lines into reads, the call that reaches the first line with the marker, and none before, goes on to save with the concatenation of the lines through it, cut by six characters; later lines of that read stay in the buffer |
| `Descriptions.DescriptionRecorded` | src/components/session/session.c:206-219 | if the insertion succeeds, exactly one record is added: the file's name, size, hash and permissions, that description, and the number of the user; the stored files stay as they were, and whatever the database says, the descriptor is closed |
| `Descriptions.SaveReleases` | src/components/session/session.c:207-218 | the save step lets go of the file and closes its descriptor and no other, whatever the database answers |
| `Descriptions.MarkerCut` | src/components/file_p/file_p.c:529-534 | if that line ends in the marker, the cut removes exactly the marker and the newline |
| `Descriptions.GroupingIrrelevant` | src/components/file_p/file_p.c:511-537 | two groupings of the same lines lead to the same database, files and handles |
| `SessionSpec.UploadObeysVerdict` | src/components/file_p/file_p.c:417-488 | the branching handler with its early returns does exactly what the one-read deframer decides, unless a write fails |
| `Sessions.Session.FileUpload` | src/components/file_p/file_p.c:417-488 | the handler that works on the fields step by step gives the session and machine of its specification |
| `Sessions.Session.FileDownload` | src/components/file_p/file_p.c:346-397 | likewise for the sending side |
| `Sessions.Session.SendPrepare` | src/components/file_p/file_p.c:148-215 | likewise for opening a stored file, with every result code |
| `Sessions.Session.ReceivePrepare` | src/components/file_p/file_p.c:219-319 | likewise for accepting an upload, with every result code |
| `Sessions.Session.CreateFile` | src/components/file_p/file_p.c:276-311 | the probing loop creates the file, or refuses, as the recursive specification says |
| `Sessions.Session.ClearFile` | src/components/file_p/file_p.c:321-343 | the file is forgotten and its descriptor closed |
| `Sessions.Session.UploadDescription` | src/components/file_p/file_p.c:511-537 | the collecting loop over the buffer gives the description, the remaining text and the result of its specification |
| `Sessions.Session.DoRead` | src/components/session/session.c:68-94 | a line, or the error state |
| `Sessions.Session.DownloadConfirm` | src/components/client/client.c:102-118 | credit, cancellation or nothing |
| `Sessions.Session.ClientCommand` | src/components/client/client.c:15-100 | the transitions out of the waiting state |
| `Logins.GetsInsideIff` | src/components/user/user.c:12-85 | a session gets past the login states in a turn if and only if its line is "anonymous", or a registration of three words that succeeds, or the password that the database accepts, and its name and number are then those of that way |
| `Logins.LoginTurn` | src/components/user/user.c:12-85 | what every line but the bare "exit" leads to: a plain name asks for the password, a rejected password and a failed registration ask for the name again, and nothing but the session changes |
| `Logins.StaysInside` | src/components/session/session.c:186-226 | from then on no turn takes it back to the login states or changes its name or number |
| `Logins.EverybodyInsideEntered` | src/components/user/user.c:36-85 | in every run of the server, every session past the login states has a turn in its life at which it entered in one of the three ways as who it still is; if by a password, an earlier line of its client named it |
| `Sessions.Session.Perform` | src/components/session/session.c:186-226 | the action of the session's state, with or without a line |
| `Sessions.Session.SlotTurn` | src/components/server/server.c:89-112 | the share of one slot in an iteration, closing included |
| `Server.Server.BuildWatch` | src/components/server/server.c:48-68 | the loop collects the watch set and its maximum |
| `Server.Server.Accept` | src/components/session/session.c:25-56 | a new session in the slot of its descriptor, every other slot as before |
| `Server.Server.Sweep` | src/components/server/server.c:89-112 | the dispatch loop over the table of objects reaches the state of its specification |
| `Server.Server.MainLoop` | src/components/server/server.c:47-113 | so does any finite stretch of the endless loop |
| `Serving.WatchedIff` | src/components/server/server.c:48-68 | a descriptor is watched if and only if it is the listening socket, the socket of a session, or the open file of a session that does not wait for a confirmation |
| `Serving.WatchesWhatItServes` | src/components/server/server.c:48-95 | at any time every upload and every download is watched by its file, every session by its socket, and no paused download by its file |
| `Serving.EverybodyIsServed` | src/components/server/server.c:47-113 | in an iteration an upload or a download whose file is ready makes one step, any other session whose socket is ready reads a line and acts on it, and who is not ready stays as it was; each on a machine that shows it its own descriptor, file and socket as they were before the iteration |
| `Alone.AsIfAlone` | src/components/server/server.c:47-113 | over any iterations through which a session uploads, describes, downloads or confirms, it comes to the state, its client has got the bytes, and its file holds the content that it would without any other session or arrival |
| `LoopTransfers.LoopStoresUpload` | src/components/server/server.c:47-113 | among any other sessions and arrivals, an upload that has been allowed stores exactly the payloads of its client, for any admissible segmentation, and waits for the description after the iteration with its last read |
| `LoopTransfers.LoopStoresFile` | src/components/server/server.c:47-113 | likewise any non-empty file in full packages and full reads, with no assumption on the framing |
| `LoopTransfers.LoopDelivers` | src/components/server/server.c:47-113 | among any other sessions and arrivals, a download that is always ready and whose client always confirms with N is over after exactly as many iterations as it takes calls and confirmations, and its client has got all the rest of the file |
| `Releases.TurnReleases` | src/components/server/server.c:89-112 | after a turn of any session every open descriptor is that of somebody else, its own socket or file, or that of an empty file it had open before; closing the connection closes both of its own |
| `Releases.NoneLost` | src/components/server/server.c:47-113 | after any number of iterations from the start every open descriptor was open before, or is the socket or the file of a session, or leads to an empty file that nobody uploads |
| `Confinement.UploadConfined` | src/components/file_p/file_p.c:417-488 | one call of the upload handler, whatever arrives, keeps every other file, handle and socket, and leaves the session's invariant: counters, file length and position agree |
| `Interleaving.TransferElsewhere` | src/components/file_p/file_p.c:346-488 | a transfer step leaves everything but its own handle, file and socket exactly as it was, directories and records included |
| `Growth.TurnAddsOne` | src/components/server/server.c:89-112 | a turn of a session adds at most one file and at most one handle, and a transfer step adds neither |
| `Confinement.DownloadConfined` | src/components/file_p/file_p.c:346-397 | one call of the download handler changes no file and leaves the session's invariant |
| `Confinement.SendPrepareConfined` | src/components/file_p/file_p.c:148-215 | opening a stored file is confined, whatever its result |
| `Confinement.ReceivePrepareConfined` | src/components/file_p/file_p.c:219-319 | accepting or refusing an upload keeps every existing file, handle and socket, and an accepted one owns a file that nobody had |
| `Confinement.ProbeResult` | src/components/file_p/file_p.c:276-311 | the probing loop creates exactly one file, empty and at a path that was free, with one handle, or changes no file and no handle |
| `Confinement.SaveConfined` | src/components/session/session.c:206-219 | a record is added only for a file of exactly the recorded length |
| `Confinement.DispatchKeepsInv` | src/components/server/server.c:89-112 | serving any slot keeps the invariant of the whole server |
| `Confinement.RunKeepsInv` | src/components/server/server.c:47-113 | the invariant holds after any number of iterations, whatever arrives and whoever is served |
| `SessionStates.SessionsInOrder` | src/components/session/session.c:186-226 | at any time the transfer states have a file, its path and an open descriptor; a non-empty file has bytes to go except in the description state, where the stored length is the declared size; no credit is left while confirming; between transfers only an empty file can be open |
| `SessionStates.NoFalseEndOfStream` | src/components/session/session.c:68-94 | at any time every buffer has room, after a read too, so a session finds an end of stream if and only if its client sent nothing |
| `Isolation.DescriptorsDistinct` | src/components/server/server.c:52-68 | the listening socket, all session sockets and all file descriptors are open and pairwise distinct, and slot i has socket i |
| `Isolation.NewcomerWaits` | src/components/server/server.c:82-112 | who is accepted in an iteration gets an empty slot, is asked for its name with nothing read, no file and no user name, and is not acted on before the next one |
| `Isolation.FilledIff` | src/components/server/server.c:82-87 | an empty slot is filled in an iteration if and only if a client is waiting and the kernel hands out that number |
| `Isolation.NewcomerIsConnected` | src/components/session/session.c:25-39 | who is accepted has a socket of its own through which nothing has been sent, and no other handle or socket, no file and no record changes |
| `Isolation.UploadPathsApart` | src/components/file_p/file_p.c:279-311 | paths of active uploads are pairwise distinct and no saved path, and every saved path exists |
| `Isolation.SavedFilesUntouched` | src/components/session/session.c:207-218 | over any run records only grow and no saved file is changed or removed |
| `Isolation.SavedFileOpens` | src/components/file_p/file_p.c:186-214 | a stored file never looks damaged, and opening it succeeds if and only if the process stands in its own directory and the kernel agrees |
| `Acceptance.CreatedIff` | src/components/file_p/file_p.c:276-311 | the probing loop creates the file if and only if it gets to a seed whose path is free, whose directory is there or can be made and at which nothing is refused, every seed before being passed |
| `Acceptance.RequestAcceptedIff` | src/components/file_p/file_p.c:219-319 | an upload request is accepted if and only if it names a file, name and size pass the checks, and the probing loop finds such a seed; a refused one changes no file, opens nothing, and leaves the session without a file and, if it named one, without a descriptor |
| `CommandTurns.CommandLeadsTo` | src/components/client/client.c:15-100 | a command leads to the upload state if and only if it is an acceptable upload request, to the download state if and only if it is a download request for a recorded name that can be opened, to the error state if and only if it is the bare "exit", and else nowhere |
| `CommandTurns.TypedUpload` | src/components/client/client.c:48-54 | a client that types an upload request may send its file, and owns an empty one of that name, size and permissions, if and only if it is acceptable; otherwise it waits on with no file stored or open |
| `CommandTurns.TypedDownload` | src/components/client/client.c:56-62 | a client that types a recorded name is sent that file from its start with PACKAGE_SIZE as credit if and only if the process stands in its own directory and the kernel agrees; otherwise it waits on |
| `CommandTurns.RefusedDownload` | src/components/file_p/file_p.c:148-209 | what each refused download request leaves in the session; the machine is as before but for a descriptor that a request without a name closes |
| `CommandTurns.OtherCommandsChangeNothing` | src/components/client/client.c:28-99 | a line that is neither request nor "exit" changes nothing |
| `CommandTurns.ExitCloses` | src/components/client/client.c:95-99 | the bare "exit" closes the connection, with its socket and its file |
| `CommandTurns.EndOfStreamCloses` | src/components/server/server.c:96-111 | so does the end of the stream outside transfers |
| `CommandTurns.ErrorCloses` | src/components/server/server.c:96-111 | so does any turn after a failed send |
| `CommandTurns.ConfirmationTurn` | src/components/client/client.c:102-118 | what every line of a paused download does: "continue" sends on with the number behind it or PACKAGE_SIZE as credit, "cancel" gives the file up and closes it, and anything else changes nothing |
| `Aborts.UploadWaitsIff` | src/components/file_p/file_p.c:399-466 | an upload of a non-empty file goes back to waiting if and only if the stream ends, the descriptor that is due says cancel, or a write fails |
| `Aborts.CancelsIff` | src/components/file_p/file_p.c:443-466 | a client cancels exactly by a descriptor that starts with the number 1 where one is due |
| `Aborts.UploadReleases` | src/components/file_p/file_p.c:399-466 | a call keeps the descriptor of the upload or closes it, and no other; it closes it whenever the upload of a non-empty file ends early |
| `Aborts.UploadTurnEnds` | src/components/file_p/file_p.c:399-466 | a call that does not go on with the same file ends the upload with the session cleared, and then the file is gone if and only if the process stands in its own directory |
| `Aborts.AbortedUploadLeavesNoTrace` | src/components/file_p/file_p.c:399-466 | after a request and any number of reads, the next call makes the session wait if and only if the stream ends, a cancellation comes or a write fails, and each of these restores the file map and the open descriptors of before the request, with no file and no descriptor in the session |
| `AbortedRuns.AbortedInRun` | src/components/server/server.c:82-112 | in every run, whatever other sessions do between the request and the abort: the upload had a path that no file had, and when it ends early its session is cleared, no other file changes, its descriptor and no other is closed, and that path is free again if and only if the process stands in its own directory in that turn |
| `Directories.RequestMovesProcess` | src/components/file_p/file_p.c:260-297 | a request is refused with -4 if and only if it passes its checks and the probing loop meets a directory that is missing and cannot be made, every seed before being passed; it leaves the process inside the storage folder exactly then, and where it was if it fails its checks |
| `Directories.TurnMovesProcess` | src/components/server/server.c:89-112 | a turn of a session changes where the process stands only by such a request |
| `Directories.ProcessStays` | src/components/server/server.c:82-112 | over any arrivals and turns without one the process stays where it is |
| `Directories.RunProcessStays` | src/components/server/server.c:47-113 | and so it does over any iterations of the main loop |
| `Directories.FirstDirectoryRefused` | src/components/file_p/file_p.c:290-295 | a request whose first directory is missing and cannot be made is such a case |
| `Directories.RefusedDirectoryHidesFiles` | src/components/file_p/file_p.c:288-297 | after a refused directory a request for an undamaged saved file is answered with "can't open" |
| `Aborts.LeastFreeSeed` | src/components/file_p/file_p.c:276-311 | if nothing is refused, the file gets the least seed whose path was free |
| `Aborts.CreatedAtFirstFreeSeed` | src/components/file_p/file_p.c:276-311 | whenever a file is created, every earlier seed's path was occupied |
| `Interleaving.TransfersCommute` | src/components/server/server.c:89-95 | transfer steps of two different sessions commute on the whole state |
| `Interleaving.OrderIrrelevant` | src/components/server/server.c:89-95 | the transfer steps of any slots lead to the same state in any order |
| `Interleaving.SweepOrderIrrelevant` | src/components/server/server.c:89-112 | an iteration's dispatch loop in which nobody sends a request leads to the state that the steps of the slots it serves reach in any other order |
| `Downloads.ServeResult` | src/components/file_p/file_p.c:346-397 | one call sends the next bytes of the file, within both counters, and the session follows from how many they are |
| `Downloads.NothingSent` | src/components/file_p/file_p.c:352-383 | a call that sends nothing pauses for want of credit, or gives the file up and closes it if nothing can be read of it or the write fails; a failed write leaves the session in the error state |
| `Downloads.SendingMoves` | src/components/file_p/file_p.c:365-391 | a call that sends a piece moves its descriptor on by as much, or closes it behind the last piece, and touches no other |
| `Downloads.EventSendsNext` | src/components/file_p/file_p.c:346-397 | every call and every reply keeps bytes sent plus credit left equal to the credit granted |
| `Downloads.PrefixAndCredit` | src/components/client/client.c:102-118 | from any point of a download on, over any calls and replies, the client gets the next bytes of the file, and bytes sent plus credit left grow by exactly the credit granted |
| `Downloads.DownloadStarts` | src/components/file_p/file_p.c:186-214 | a granted request starts a download of the record that was looked up, under the name asked for, with nothing sent, its recorded size to go and a credit of PACKAGE_SIZE |
| `Downloads.RequestedPrefixAndCredit` | src/components/file_p/file_p.c:211-213 | from the request on, for any N in the replies, the client holds exactly the first size-minus-rest bytes of the file it asked for, and at each pause their number is PACKAGE_SIZE plus the sizes confirmed |
| `Downloads.DownloadTakes` | src/components/file_p/file_p.c:346-397 | from the request on, for any non-empty file and any N from 1 on: no confirmation up to PACKAGE_SIZE, else one for every further N bytes; as many calls as its packages take; the client has got the file, and what is open is what was open before |
| `Uploads.UploadFollowsPlan` | src/components/file_p/file_p.c:417-488 | after an admissible read of a conforming client, stored bytes and bytes to come still make up what the client announced |
| `Uploads.UploadTurnsFollowPlan` | src/components/file_p/file_p.c:417-488 | over calls of the handler with admissible reads and successful writes, the file holds what has come of the announced bytes, and the description state is reached exactly when all have |
| `Uploads.ReceiveResult` | src/components/file_p/file_p.c:244-318 | an accepted request gives an empty file at a free path, with the name, size and permissions that its line names and all of that size to come; a refused one sends and records nothing |
| `Uploads.UploadStored` | src/components/file_p/file_p.c:219-488 | from the request that declares the size to the last read, for every list of package sizes that add up to it and every admissible segmentation, the payloads end up in the stored file, under the name, with the permissions and for the user of the request |
| `Uploads.PackagedUploadStored` | src/components/file_p/file_p.c:219-488 | any non-empty file of the declared size that is sent in full packages and read by full reads ends up in the stored file, with no assumption on the framing |
| `Lifecycles.FromRequestToRecord` | src/components/session/session.c:186-226 | from the request as typed, through the line buffer, the reads of the file and the lines of the description: exactly one record is added, with the name, length and permissions of the request, the description and the user, the file it leads to holds the bytes sent, and what is open is what was open before |
| `Lifecycles.ArchivedIsDelivered` | src/components/file_p/file_p.c:148-215 | a download that picks such a record was asked for by its name and delivers those bytes |
| `Leftovers.DescriptionMatchesIff` | src/components/session/session.c:206-219 | after the last line of a description the file is stored if and only if it is recorded, exactly when the insertion succeeded, or failed with 0 while the process stood in its own directory; a record always has its file |
| `Leftovers.FailedInsertLeavesFile` | src/components/session/session.c:209-216 | an insertion that fails with -1 leaves the file without a record |
| `Leftovers.UploadKeepsDescriptorIff` | src/components/file_p/file_p.c:424-433 | an upload goes back to waiting with an open descriptor if and only if the stream ends and nothing of the file is missing |
| `Leftovers.DownloadKeepsDescriptorIff` | src/components/file_p/file_p.c:365-374 | a download does so if and only if nothing of its file is left to send when it is served |
| `Leftovers.EmptyUploadKeepsDescriptor` | src/components/file_p/file_p.c:424-433 | an accepted upload of size 0 whose client then closes its stream is such a case |
| `Leftovers.EmptyDownloadKeepsDescriptor` | src/components/file_p/file_p.c:365-374 | and so is the download of a stored file of size 0 |
| `ObservedTurns.HappensConsistent` | src/components/server/server.c:82-112 | over any arrivals and turns of any sessions, what the observer of all clients counts on stays true |
| `EndToEnd.SavedIsNoted` | src/components/session/session.c:206-219 | every record that a turn adds has the name, size and hash of the upload its session has described and the number of its user; if the client has conformed, to the size in its own request, the record has the name and length that it asked for, and the file holds what it announced |
| `EndToEnd.DeliveryIsNoted` | src/components/file_p/file_p.c:384-392 | every turn that sends the last piece of a file is noted as a delivery of the whole file to a client that asked for a certain name |
| `EndToEnd.EndToEnd` | src/components/server/server.c:47-113 | from the start of the server and over any arrivals and turns: every file saved from an upload that conforms to its own request holds what was announced, and its records have the name and length of the request; every completed download delivered exactly the stored bytes of a record with the name that was asked for; so who gets a conforming upload gets what its uploader announced, under the name it was given |
| `EndToEnd.RunHappens` | src/components/server/server.c:47-113 | the arrivals and turns of a run, one for every slot and iteration with what its client means to send, lead to the state of the main loop |
| `EndToEnd.RunEndToEnd` | src/components/server/server.c:47-113 | the end-to-end result for any number of iterations of the main loop from its start, whatever the clients send and mean to send |

## Left out

* Socket setup, signals, log files, the welcome file and the wording of messages. Of what is written to a socket, only the
  bytes of downloads are kept.
* `file_list`, `file_search` and `clear_list`: they change no transfer.
* SQL and both database back ends. A save appends a record or fails; a lookup picks any record with the requested name.
* The hash functions; the seed loop is proved for every function in their place.
* Heap leaks, and the fixed sizes of string buffers. The model refuses a download request whose last bracket comes before
  its first one or whose name is longer than 64 characters, where the C code overruns its buffer.
* The session's `reason` is kept as a flag; `privileges`, the peer address and the identity of a file in the database are
  not modelled. The name of a file under transfer is modelled as text, so that it is always set.
* A seed loop that finds every seed up to INT_MAX occupied: the C code overflows there and the model refuses.
* Numbers in commands saturate at the limits of a 64-bit `long`; widths beyond that are not modelled.
* The meaning of `sig_finish` and `sig_pause` beyond the conservation of bytes, and several descriptors in one read beyond
  `Overruns`: the code does not handle them.
* Handles that a failed size check leaves open stay in the table of open handles and belong to no session.
* The terminator that a failed read writes in front of the buffer: the session is closed in the same turn.
* A description shorter than the six characters that are cut off keeps its text; the C code writes outside it.
* That `pselect` and the kernel make progress.
