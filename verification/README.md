# WSFS session and protocol model

WSFS is a file protocol: a client sends commands over one ordered message channel, each
under one of 256 marks, and the server's workers answer in any order. This project models
the parts where that is hard, and proves what they are for:

- **Directory streaming** (`DirServer`, `DirParser`, `ReadDirPlus`, `ReadDir`): the server
  packs a root listing and prefetched child listings into messages; the client hands the
  root out early and fills children in later.
- **The session protocol as step systems** (`Multiplex`, `MarkReuse`, `Progress`, `Workers`,
  `ClientSession`, `Hibernation`, `FastBuffers`): a run is any interleaving of single steps of all goroutines, and every
  theorem is about every run. Where the code is an object whose methods change fields, a
  class with those methods stands beside the steps and is proved to perform them.
- **Transfers in pieces** (`WriteStream`, `Transfers`, `XAttrWrite`, `XAttrList`,
  `Payloads`): many commands or messages that must amount to one operation.
- **The codec generator** (`Codec`, `Generator`, `Schema`, `Dirents`): a compiler from struct
  schemas to readers and writers, proved against a reference encoding for every schema.
- **Request paths** (`UrlPath`).

`Bytes`, `Protocol`, `Buffers` and `Files` hold what these share. The operating system is
data: a directory is the list of results its reads will give, a `pread` or `pwrite` returns
any count or error an oracle picks, a connection fails whenever the run says so.

These properties one might expect are false of the code. Each is stated with a concrete case
and the exact condition under which it holds:

- Prefetched children can be attached to the wrong entry when the server's IsDir answer and
  the transmitted mode disagree (`ReadDirPlus.AttributionIff`, `ReadDirPlus.LinkStealsListing`).
- A mark can be given back while its worker still answers (`MarkReuse.QuietIff`): by a large
  write whose first error is the unknown one (`Workers.StreamConformsIff`), and by ReadDirPlus
  when the client can tell fewer directories than the server announces
  (`Workers.PlusReadsAllIff`, `Workers.FailedLookupIsShort`).
- A stream opened under a mark whose last stream is still registered is refused and waits
  forever, and its data goes to the other stream (`Multiplex.ServedFromStartIff`,
  `MarkReuse.ClashReached`); buffers queued behind an end mark never return
  (`FastBuffers.AllReturnIff`, `FastBuffers.DataBehindTheEnd`) and can block the server's read
  loop for good (`FastBuffers.RoomComesIff`, `FastBuffers.BlockIsReachable`).
- 64 streams that wait for data and one more command ahead of it stop the connection for good
  (`Progress.MovesIff`, `Progress.GridlockForever`, `Progress.GridlockReached`).
- A large write whose first error is the unknown one is reported as zero bytes
  (`WriteStream.CountExactIff`, `WriteStream.CountIsLost`).
- The generator accepts a nested struct with a `[]byte` field that is not last; such a type
  does not round-trip (`Codec.RoundTripIff`, `Generator.NestedIsLost`).
- `Close` can wait forever: on a connection nobody has closed, or behind a read loop stuck with
  a response nobody will take (`ClientSession.CloseAnsweredIff`, `ClientSession.StaleIsReachable`,
  `ClientSession.ClogIsReachable`). Where only conforming requests on one connection have filled
  the channels, the first alone remains (`Progress.ConformingCloseIff`); an error sent to a mark
  that was just given back fills one too (`ClientSession.ErrorIsLeft`).

`dafny verify dfyconfig.toml` checks the whole project.

## Model

| member | source | states |
|---|---|---|
| ReadDirPlus.EndToEnd | src/internal/server/wsfs/commands.go:345-460 | For every listing, failure schedule and packing into messages: the caller gets the server's error code, or the complete root listing in order whose j-th directory (client count) has no child or the complete listing of the j-th directory (server count); with an OK reply no completed listing is missing |
| ReadDirPlus.Soundness | src/internal/server/wsfs/commands.go:258-460 | If IsDir agrees with the transmitted mode, a list the caller gets is the whole root listing, and every child is absent or exactly the entries of that directory, which opened and was read without error |
| ReadDirPlus.GivesUpIff | src/internal/client/session/commands.go:237-270 | On any records the parser gives up exactly when it meets more sections than it has seen directories |
| ReadDirPlus.ReplyMarkers | src/internal/server/wsfs/commands.go:422-460 | An OK reply announces exactly one section per directory of the server, at most 32; no reply announces more |
| ReadDirPlus.Completeness | src/internal/server/wsfs/commands.go:345-460 | Without failures and within the limits, exactly the first 32 directories carry their full listing, all others none |
| ReadDirPlus.AttributionIff | src/internal/server/wsfs/commands.go:246-256 | Children end up under the right name for all contents and failures if and only if client and server agree, rank by rank, on which root entries are directories |
| ReadDirPlus.Misattributed | src/internal/server/wsfs/commands.go:101-126 | Wherever the two disagree there are directory contents that end up under the wrong name |
| ReadDirPlus.LinkStealsListing | src/internal/server/wsfs/commands.go:101-126 | A concrete case: a link transmitted with the directory bit before a real directory is given that directory's listing |
| ReadDirPlus.Call | src/internal/client/session/commands.go:295-319 | Both ends composed: the guarantees of EndToEnd and Soundness for the composed call, and no child channel is left open |
| ReadDirPlus.WireIsSteps | src/internal/client/session/commands.go:137-293 | The client's result depends only on the records that got through and the terminal code, never on how records were packed |
| ReadDirPlus.BodyIsSteps | src/internal/client/session/commands.go:205-281 | Parsing the bytes of any records that fit performs exactly those records' steps |
| DirServer.DirStreamer.Serve | src/internal/server/wsfs/commands.go:351-460 | The buffered server sends, in messages of at most 8192 bytes, exactly the records and terminal code that ReplyTo prescribes; only an error may overtake buffered records |
| DirServer.DirStreamer.ReadRoot | src/internal/server/wsfs/commands.go:368-397 | The root section carries everything the reads delivered, in order, and the first read error is reported |
| DirServer.DirStreamer.NextDir | src/internal/server/wsfs/commands.go:304-320 | Finds the next directory that opens and reads, counts every attempt against the 32, and says what the rest of the reply must be |
| DirServer.DirStreamer.StreamDir | src/internal/server/wsfs/commands.go:322-343 | Sends a directory's first 1000 entries; failed exactly if a read failed or there were more |
| DirServer.DirStreamer.WriteBatch | src/internal/server/wsfs/commands.go:326-332 | Stops at the 1001st entry of a directory and says so |
| DirServer.DirStreamer.SendChain | src/internal/server/wsfs/commands.go:438-455 | A cut-short section is followed by PREFETCH_SKIP and the next directory, or the request ends with an I/O error |
| DirServer.DirStreamer.SendSections | src/internal/server/wsfs/commands.go:422-460 | All sections that are due are sent and the reply is terminated once |
| DirServer.DirStreamer.Append | src/internal/server/wsfs/commands.go:258-275 | A record that would overflow the message starts a new one; nothing is lost or reordered |
| DirServer.DirStreamer.SendLast | src/internal/server/wsfs/commands.go:399-404 | A reply without prefetch ends with its last records under code OK |
| DirParser.ParseAllKeeps | src/internal/client/session/commands.go:137-293 | For every sequence of messages, malformed ones included: no channel is closed twice, a finished parse has sent one root result and closed every channel, the list never grows after handover, a closed entry never changes |
| DirParser.MessageKeeps | src/internal/client/session/commands.go:137-293 | One message keeps all that, and any non-partial message finishes the parse |
| DirParser.ReadDirPlusParser.Parse | src/internal/client/session/commands.go:137-293 | The parser as written computes ParseAll and ends running or finished |
| DirParser.ReadDirPlusParser.OneMessage | src/internal/client/session/commands.go:190-292 | One response message, any code |
| DirParser.ReadDirPlusParser.Body | src/internal/client/session/commands.go:205-281 | The record loop of one message, bad entries and unknown indicators included |
| DirParser.ReadDirPlusParser.Marker | src/internal/client/session/commands.go:237-270 | PREFETCH commits the section before it, PREFETCH_SKIP discards it |
| DirParser.ReadDirPlusParser.SetChildItems | src/internal/client/session/commands.go:92-100 | A child is stored before its channel is closed |
| DirParser.ReadDirPlusParser.CloseChildReady | src/internal/client/session/commands.go:104-108 | Closing an open channel, none, or (panic) a closed one |
| DirParser.ReadDirPlusParser.CloseAllRemaining | src/internal/client/session/commands.go:121-125 | Closes the channels still pending |
| DirParser.ReadFailLikeAbort | src/internal/client/session/commands.go:152-166 | The exit on an undecodable entry leaves the channels as the common exit does |
| ReadDir.ReadDirCall | src/internal/client/session/commands.go:415-460 | A plain listing end to end: all entries in order up to the end or an empty batch, or the server's code with a beginning of them |
| ReadDir.BothListings | src/internal/server/wsfs/commands.go:166-220 | For the same snapshot ReadDirPlus hands out exactly the entries ReadDir returns |
| ReadDir.Lister.Serve | src/internal/server/wsfs/commands.go:166-220 | The server's messages carry the entries read before the first error, or all up to the end or an empty batch under OK |
| ReadDir.CmdReadDir | src/internal/client/session/commands.go:415-460 | The client's loop over the responses computes Gather |
| ReadDir.AppendDirItems | src/internal/client/session/commands.go:50-59 | Appends the entries of a message, or fails at the first bad one |
| ReadDir.ListEndToEnd | src/internal/client/session/commands.go:430-456 | However the entries were packed the client collects them all |
| ReadDir.ParseBack | src/internal/client/session/commands.go:50-59 | Decoding inverts encoding for any list of entries |
| Multiplex.EveryRun | src/internal/client/session/session.go:108-134 | In every interleaving a finished request took exactly its own worker's answers, a mark nobody holds is quiet (no command, no response in flight, no worker), and a request under way has taken the beginning of its own worker's answers or is a stream that was refused when it opened |
| Multiplex.ServedFromStartIff | src/internal/server/wsfs/commands.go:477-483 | Along a run every holder of a mark is served by its own worker throughout if and only if no stream open is dispatched while its mark is still registered |
| Multiplex.StarvedForever | src/internal/client/session/writeStream.go:131-163 | A stream whose open was refused never finishes, whatever happens next |
| Multiplex.StarvedIsMisrouted | src/internal/server/wsfs/commands.go:496-511 | The data of a refused stream goes to a stream that is not its own, or is refused |
| MarkReuse.QuietIff | src/internal/client/session/session.go:127-134 | Marks are safe to reuse in all runs if and only if every requester stops at its worker's last answer and not before |
| MarkReuse.ClashReached | src/internal/server/wsfs/session.go:182-205 | A run in which a stream is opened under a mark whose last stream has sent its last answer but not yet dropped its registration |
| MarkReuse.ClashHangs | src/internal/server/wsfs/commands.go:477-483 | After such an open is refused its requester waits in every continuation |
| MarkReuse.EarlyStopLeaks | src/internal/client/session/session.go:127-134 | Whenever a requester can stop before its worker's last answer there is a run that frees its mark while the worker still answers |
| Progress.MovesIff | src/internal/server/wsfs/session.go:71-71 | With conforming requests, while some request is being served a step that serves a request is possible if and only if the connection is not gridlocked with everything sent: 64 streams waiting for data and, ahead of that data, a command that needs a worker of its own |
| Progress.GridlockForever | src/internal/server/wsfs/commands.go:485-488 | A gridlock is never left: in every continuation no request takes another answer |
| Progress.GridlockReached | src/internal/server/wsfs/commands.go:462-494 | A gridlock does come up: 64 large writes have been opened when any other command is sent |
| Progress.NeverJammed | src/internal/client/session/session.go:391-392 | With conforming requests the read loop never holds a response for the full channel of a mark nobody holds |
| Progress.EarlyStopJams | src/internal/client/session/session.go:391-392 | A requester that stops with two or more answers to come: a run after which the read loop holds one of them for a full channel nobody will empty |
| Progress.JamStays | src/internal/client/session/session.go:348-394 | From then on no response reaches any channel until somebody is given that very mark |
| Progress.IdleIsSilent | src/internal/client/session/session.go:127-134 | With conforming requests nothing is under way for a mark nobody holds: no command, no worker, no response on the wire, in hand or in the channel |
| Progress.ConformingCloseIff | src/internal/client/session/session.go:187-220 | When the channels, the read loop and what is still to come are as conforming requests on one connection leave them, an idle Close is sure to be answered if and only if the connection it finds is not already being stopped |
| Progress.JammedCloseHangs | src/internal/client/session/session.go:211-217 | A Close that meets a jammed read loop is not sure to be answered |
| Progress.EarlyStopHangsClose | src/internal/client/session/session.go:187-220 | For every requester that stops with two answers to come there are runs of both models to such a moment |
| Multiplex.HeadIsRouted | src/internal/server/wsfs/commands.go:462-511 | The next command of a request that is being served opens exactly when it has no worker, and otherwise reaches its own worker |
| Multiplex.TakesOwnNext | src/internal/client/session/session.go:348-394 | What a requester takes from its channel is the next answer of its own worker |
| Multiplex.TryMarkKeeps | src/internal/client/session/session.go:118-124 | Locking a mark keeps the invariant: a fresh holder starts with nothing in flight |
| Multiplex.DispatchKeeps | src/internal/server/wsfs/session.go:215-250 | A dispatched command keeps every mark's account; service ends only where an open clashed, and then for that request |
| Multiplex.EmitKeeps | src/internal/server/wsfs/session.go:301-328 | A worker's response joins the end of what is in flight for its mark |
| Multiplex.ReceiveKeeps | src/internal/client/session/session.go:357-389 | The read loop taking a message keeps order per mark |
| Multiplex.DeliverKeeps | src/internal/client/session/session.go:391-392 | Handing a message to the one-slot channel keeps order per mark |
| Multiplex.TakeKeeps | src/internal/client/session/session.go:127-134 | Taking a response, and giving the mark back where the requester stops, keeps every account |
| Multiplex.RunKeeps | src/internal/client/session/session.go:336-394 | The invariant holds along every run |
| Workers.PlusReadsAllIff | src/internal/client/session/commands.go:237-270 | The ReadDirPlus client reads every reply to the end if the directories it can tell are at least the server's, capped at 32; with an OK reply exactly then |
| Workers.PlusConformsIff | src/internal/client/session/commands.go:237-270 | For any reply and packing: the client stops at the last message if and only if the partial messages announce no more sections than they show directories |
| Workers.PlusLeaks | src/internal/client/session/commands.go:148-150 | Otherwise there is a run in which the client frees the mark while the server still answers |
| Workers.FailedLookupIsShort | src/internal/server/wsfs/commands.go:246-256 | The smallest such listing: one directory whose lookup failed |
| Workers.StreamConformsIff | src/internal/client/session/writeStream.go:131-163 | A stream's requester stops at its worker's last answer if and only if the first write error is not the unknown one |
| Workers.ListConforms | src/internal/client/session/commands.go:430-459 | The plain listing's client stops exactly at the server's last message |
| Workers.ReadConforms | src/internal/client/session/commands.go:381-413 | The read client stops exactly at the server's last segment, for every file and pread schedule |
| Workers.XAttrConforms | src/internal/client/session/commands.go:1267-1282 | The attribute client stops exactly at the last piece |
| WriteStream.WriteEndToEnd | src/internal/client/session/writeStream.go:24-163 | Over every interleaving, short-write schedule and failure: the file changes by exactly data[..w] at the offset; the caller gets (w, first error) or (all, OK), and (0, unknown) when the first error is the unknown one |
| WriteStream.CountExactIff | src/internal/client/session/writeStream.go:146-149 | The reported count is what was written if and only if the first error is not the unknown one or nothing was written |
| WriteStream.RunKeeps | src/internal/server/wsfs/session.go:182-205 | What is written, what the worker holds, the queue and the wire are together the data, at every point of every run |
| WriteStream.PwriteKeeps | src/internal/server/wsfs/commands-unix.go:561-581 | Full, short, zero and failing pwrites advance file, offset and count together |
| WriteStream.Progress | src/internal/server/wsfs/session.go:166-168 | The four-slot queue never locks up: some step is possible until the stream has ended |
| WriteStream.CmdWriteAt | src/internal/client/session/commands.go:872-924 | Client, server and short or failing writes composed, small and large: in any case the file changes by a beginning of the data; while the connection holds that is exactly the reported bytes; an OK large write reports everything; only the unknown error hides the count |
| WriteStream.ServeRest | src/internal/server/wsfs/session.go:105-143 | A send fails in the middle: whatever number of frames arrived, the server leaves a beginning of the data in the file |
| WriteStream.BrokenOff | src/internal/server/wsfs/session.go:182-205 | At any point of any run on any beginning of a stream the file has changed by exactly the first bytes written |
| WriteStream.LargeWrite | src/internal/client/session/commands.go:909-913 | The commands of a large write: one open, data, one end, each within a frame, carrying exactly the data; a failed send leaves a beginning of them |
| WriteStream.Serve | src/internal/server/wsfs/session.go:182-205 | The server's objects on a stream, or on a beginning of one after which its input is closed, perform for any schedule a run that deals with all that arrived and ends a whole stream |
| WriteStream.StreamEnds | src/internal/server/wsfs/session.go:182-205 | Every run is bounded by a measure of wire, queue and bytes left, and one that cannot go on has ended the stream |
| WriteStream.CountIsLost | src/internal/client/session/writeStream.go:146-149 | A concrete run: one byte is written, then the unknown error, and the caller is told zero |
| WriteStream.ClientStream.constructor | src/internal/client/session/writeStream.go:24-65 | Opening sends the first data, split when it exceeds a frame; if a send fails the mark is given back and only a beginning went out |
| WriteStream.ClientStream.Write | src/internal/client/session/writeStream.go:67-94 | Writing sends exactly the data in frames, or a beginning of it when a send fails; a closed stream refuses |
| WriteStream.ClientStream.SendClose | src/internal/client/session/writeStream.go:100-127 | Closing sends the remaining data and exactly one end mark, or gives the mark back; the stream is closed either way |
| WriteStream.AwaitClose | src/internal/client/session/writeStream.go:131-163 | The response loop of Close and the error choice of CmdWriteAt compute Report |
| Codec.RoundTripIff | src/internal/share/wsfsprotocol/genStructHelper.go:162-328 | Decoding an encoding returns the value with nothing left, for all values of a type, if and only if its only []byte field is last after flattening |
| Codec.RoundTripWithRest | src/internal/share/wsfsprotocol/genStructHelper.go:259-328 | Without []byte fields decoding also returns the leftover input |
| Codec.RoundTripBlobLast | src/internal/share/wsfsprotocol/genStructHelper.go:259-328 | The round trip when the []byte field is last |
| Codec.BlobNotLastFails | src/internal/share/wsfsprotocol/genStructHelper.go:306-315 | A []byte field elsewhere, nested ones included, has a value that does not survive |
| Codec.DecodeIsCanonical | src/internal/share/wsfsprotocol/genStructHelper.go:259-328 | Whatever decodes is the encoding of its result followed by the leftover: decoding accepts nothing else |
| Codec.RequiredSizeIsLength | src/internal/share/wsfsprotocol/genStructHelper.go:162-190 | The generated size function is the encoded length |
| Codec.EncodeOkIff | src/internal/share/wsfsprotocol/string.go:31-49 | Encoding succeeds if and only if every string is at most 65535 bytes |
| Codec.NumRoundTrip | src/internal/share/wsfsprotocol/genStructHelper.go:215-227 | Integers of every width and sign survive |
| Codec.NumCanonical | src/internal/share/wsfsprotocol/genStructHelper.go:288-300 | Every byte string of the right length is the encoding of the integer it decodes to |
| Codec.BlobTakesRest | src/internal/share/wsfsprotocol/genStructHelper.go:306-315 | A type with a []byte field consumes all input |
| Generator.WriteIsEncode | src/internal/share/wsfsprotocol/genStructHelper.go:192-257 | The statements emitted for a writer, run in either mode, produce the reference encoding and never index past the local buffer |
| Generator.ReadIsDecode | src/internal/share/wsfsprotocol/genStructHelper.go:259-328 | The statements emitted for a reader, run in either mode, compute the reference decoding |
| Generator.ModesAgree | src/internal/share/wsfsprotocol/genStructHelper.go:215-227 | Buffered and per-field code emit the same bytes and accept the same inputs with the same results |
| Generator.GeneratedRoundTrip | src/internal/share/wsfsprotocol/genStructHelper.go:192-328 | Generated reader after generated writer, in any mix of modes, returns the value |
| Generator.NestedIsLost | src/internal/share/wsfsprotocol/genStructHelper.go:306-321 | A struct holding a struct with a []byte field before another field: no value of it survives |
| Generator.GenNested | src/internal/share/wsfsprotocol/genStructHelper.go:306-310 | Yet the generator accepts both structs |
| Generator.ReadIntoIsDecode | src/internal/share/wsfsprotocol/genStructHelper.go:330-402 | The reader with a caller's buffer accepts what the plain one accepts, limited to payloads that fit the buffer |
| Generator.GenWrite | src/internal/share/wsfsprotocol/genStructHelper.go:192-257 | The emission loop produces the statements of its specification |
| Generator.GenRead | src/internal/share/wsfsprotocol/genStructHelper.go:259-328 | The same for readers |
| Generator.AnalyzeBufSize | src/internal/share/wsfsprotocol/genStructHelper.go:146-160 | The buffer size is the longest run of adjacent integer fields |
| Schema.Analyzer.Analyze | src/internal/share/wsfsprotocol/genStructHelper.go:548-565 | The fixpoint terminates and, whatever the map order, resolves exactly the structs whose nesting bottoms out in builtins, with their widths |
| Schema.Analyzer.Pass | src/internal/share/wsfsprotocol/genStructHelper.go:121-144 | One pass sizes some structs or proves that no further one can be sized |
| Schema.Analyzer.SizeOf | src/internal/share/wsfsprotocol/genStructHelper.go:121-144 | A struct gets a size exactly if all its fields have one, and it is the sum |
| Schema.ClosedReachesGrounded | src/internal/share/wsfsprotocol/genStructHelper.go:121-144 | When a pass changes nothing every grounded struct has its size |
| Schema.CyclesAreRefused | src/internal/share/wsfsprotocol/genStructHelper.go:560-565 | A struct that contains itself never gets a size |
| Dirents.DirentRoundTrip | src/internal/share/wsfsprotocol/struct.go:18-24 | A directory entry followed by anything decodes to itself and the rest |
| Dirents.DirentRequiredSize | src/internal/share/wsfsprotocol/struct.go:18-24 | The size the server packs by is the encoded length of an entry |
| Payloads.StreamDataFrame | src/internal/share/wsfsprotocol/struct.go:160-163 | A stream data command survives the wire and fits a message exactly up to the payload limit |
| Payloads.StreamOpenFrame | src/internal/share/wsfsprotocol/struct.go:154-158 | The same for a stream open command |
| Payloads.ReadAllToBuffer | src/internal/share/wsfsprotocol/struct.gen.go:19-40 | However the reader cuts its data up the buffer ends up holding all of it, or there is more than fits; a reader that gives nothing on the last call makes it neither |
| Buffers.Buffer.Write | src/internal/util/buffer.go:23-32 | Appends what fits and reports a short write exactly when something did not |
| Buffers.Buffer.Done | src/internal/util/buffer.go:38-42 | Hands out what was written and starts over |
| Buffers.Buffer.Grow | src/internal/util/buffer.go:44-46 | Counts bytes placed behind the written part |
| Buffers.Buffer.Reset | src/internal/util/buffer.go:48-50 | Empties the buffer |
| Transfers.SegmentedReadIsOneRead | src/internal/server/wsfs/commands-unix.go:488-534 | For every file, offset, size and pread schedule an OK answer puts file[off..off+n) at the start of the buffer and touches nothing else; with full preads n is min(size, rest); on the wire only full partials and one terminal |
| Transfers.ServeReadAt | src/internal/server/wsfs/commands-unix.go:488-534 | The segment loop sends the messages of its specification |
| Transfers.ReceiveInto | src/internal/client/session/commands.go:836-868 | The client's loop copies the messages into the destination in place |
| Transfers.CopyFileRange | src/internal/client/session/commands.go:950-967 | The total is exact, dst receives exactly src[off1..off1+total), no request exceeds 32 MiB, all is copied when every answer is full; an error code is that of the last request |
| Transfers.CopyOnce | src/internal/client/session/commands.go:969-1005 | One request: the destination gains exactly what the server says it copied; an unsent request counts as an empty copy |
| XAttrWrite.XAttrClient.SetXAttr | src/internal/client/session/commands.go:1140-1170 | Success leaves the store as one unbounded set would; a successful rollback leaves it as it was whatever was lost; without faults the code is that of the one set; other attributes are untouched; no command exceeds 8192 bytes |
| XAttrWrite.XAttrClient.SendSplit | src/internal/client/session/commands.go:1284-1313 | A first set and appends are one set of the whole value |
| XAttrWrite.XAttrClient.Restore | src/internal/client/session/commands.go:1315-1324 | Success puts the attribute back |
| XAttrWrite.XAttrClient.Send | src/internal/client/session/commands.go:1246-1265 | One command: applied, refused, or lost with either effect |
| XAttrWrite.SplitIsOneSet | src/internal/server/wsfs/xattr/linux.go:13-31 | In each of the four modes a set followed by an append is one larger set |
| XAttrWrite.MaxChunkSize | src/internal/client/session/commands.go:1332-1346 | The binary search returns the largest piece that fits a command, 0 when none does |
| XAttrWrite.CommandSizeIsExact | src/internal/client/session/commands.go:1326-1330 | What the fit test compares is the exact size of the encoded command, which decodes back |
| XAttrList.ListKeys | src/internal/server/wsfs/commands.go:567-586 | Server filter, pieces, reassembly and client filter deliver exactly the keys that pass both prefix sets, in order |
| XAttrList.AcceptedIff | src/internal/server/wsfs/commands.go:620-644 | Both filters accept exactly the wire forms of lists of non-empty NUL-free keys |
| XAttrList.ServerFilter | src/internal/server/wsfs/commands.go:620-644 | The server's loop, with its early last-byte test, selects the allowed keys |
| XAttrList.ClientFilter | src/internal/client/session/commands.go:1369-1386 | The client's loop selects the allowed keys |
| XAttrList.HasAllowedPrefix | src/internal/server/wsfs/commands.go:611-618 | A key is allowed exactly if some prefix starts it |
| XAttrList.SendData | src/internal/server/wsfs/commands.go:646-663 | Pieces within the message size, only the last one terminal |
| XAttrList.ReceiveData | src/internal/client/session/commands.go:1267-1282 | The client's loop computes Collect |
| XAttrList.PiecesCollect | src/internal/client/session/commands.go:1267-1282 | Collecting the pieces returns the data |
| ClientSession.LifecycleHolds | src/internal/client/session/session.go:97-134 | In every run activeReqs is the number of requests holding, seeking or returning a mark; none is while closing; closed exactly if exit took effect, which it does at most once; a mark has one holder |
| ClientSession.ClosingEndsClosed | src/internal/client/session/session.go:187-231 | Closing leads only to Closed, and Closed with its exit error is never left |
| ClientSession.UnlockFindsLockHeld | src/internal/client/session/session.go:222-248 | Across any reconnections, ping and writer failures and panics, every connErrLock Unlock finds the lock held |
| ClientSession.CloseAnsweredIff | src/internal/client/session/session.go:187-220 | A Close that finds the session idle is sure to be answered, whatever follows and by the session's own steps, if and only if the connection it finds is not already being stopped and no two responses are left to deliver under one mark |
| ClientSession.HungForever | src/internal/client/session/session.go:391-392 | A closing session whose read loop is stuck at a full channel never ends, whatever happens; one that reads a connection nobody closed ends only if the network fails |
| ClientSession.ClogHangs | src/internal/client/session/session.go:391-392 | With two responses left under one mark the read loop can be stuck by the time Close has closed the connection |
| ClientSession.ClogIsReachable | src/internal/client/session/session.go:127-134 | A concrete run: a request with three answers gives its mark back after the first |
| ClientSession.ErrorIsLeft | src/internal/client/session/session.go:273-293 | A concrete run: the mark is given back between the notifier's look at its lock and its send, so that after recovery a mark nobody holds has an error response in its channel |
| ClientSession.StaleIsReachable | src/internal/client/session/session.go:413-419 | A concrete run in which Close finds a connection being stopped: the new connection dies before error mode has set the state back |
| ClientSession.StaleIsMissed | src/internal/client/session/session.go:396-420 | From such a state the connection dialled next is read on and closed by nobody |
| ClientSession.LoopsKeep | src/internal/client/session/session.go:348-394 | At most one connection has a live read loop, and it holds the error lock from its failure to its unlock |
| ClientSession.Session.NewClientMark | src/internal/client/session/session.go:108-125 | Refused while closing; otherwise counted and given the first free mark after the last one, or, with none free, still searching from where it was |
| ClientSession.Session.HuntMark | src/internal/client/session/session.go:117-124 | One turn of the search with a wrapping 32-bit counter finds the first free mark exactly if there is one |
| ClientSession.Session.ReleaseClientMark | src/internal/client/session/session.go:127-134 | The mark is free and the count one less |
| ClientSession.Session.ExitWith | src/internal/client/session/session.go:97-106 | Takes effect only the first time |
| ClientSession.Session.TryClose | src/internal/client/session/session.go:187-220 | Goes ahead exactly when running and idle, sleeps exactly when it may still become so |
| ClientSession.Session.StopConn | src/internal/client/session/session.go:222-248 | Graceful exactly when closing; otherwise recovering unless closed; the error lock is released |
| ClientSession.Session.WriteFailed | src/internal/client/session/session.go:295-334 | The error lock is held afterwards and the connection dropped |
| ClientSession.Session.Recover | src/internal/client/session/session.go:413-419 | Back to running only from recovering |
| FastBuffers.EveryRun | src/internal/server/wsfs/session.go:69-84 | In every reachable state each of the 32 buffers has exactly one owner, every pending payload is still in its buffer, the pool has at most 32, and nothing is sent to a closed stream |
| FastBuffers.OwnersKept | src/internal/server/wsfs/commandCalls.go:66-79 | Every step only moves buffers between owners |
| FastBuffers.PayloadsKept | src/internal/server/wsfs/commandCalls.go:259-278 | Decoding into a buffer never overwrites a payload someone still holds |
| FastBuffers.ReleaseHasRoom | src/internal/server/wsfs/session.go:82-84 | No release ever finds the pool full |
| FastBuffers.AllReturnIff | src/internal/server/wsfs/session.go:105-135 | Before a session is handed to its next connection all 32 buffers are back in the pool if and only if no message was queued on a stream behind its end mark |
| FastBuffers.DataBehindTheEnd | src/internal/server/wsfs/commands.go:496-511 | A concrete run: data reaches a stream that has had its end mark but is still registered, and when the session is ready for its next connection that buffer is missing |
| FastBuffers.WaitingEnds | src/internal/server/wsfs/session.go:78-84 | As long as nothing was queued behind an end mark, a reader that waits for a buffer or for room in a queue leaves a worker or stream that can use up a message |
| FastBuffers.RoomComesIff | src/internal/server/wsfs/session.go:166-168 | A full queue can be emptied if and only if its stream is still in its loop |
| FastBuffers.BlockedForGood | src/internal/server/wsfs/session.go:166-168 | Otherwise the read loop waits there in every continuation |
| FastBuffers.BlockIsReachable | src/internal/server/wsfs/commands.go:496-511 | A concrete run: five messages reach a stream that has ended but is still registered |
| FastBuffers.BufferComesIff | src/internal/server/wsfs/session.go:78-80 | A reader that lacks a buffer can get one back if and only if not all are lost |
| FastBuffers.ExhaustedForGood | src/internal/server/wsfs/session.go:78-80 | Once all are lost none comes back, on this connection or any later one |
| FastBuffers.UnregistersItself | src/internal/server/wsfs/session.go:182-183 | A stream on its way out removes its own registration or none |
| FastBuffers.RegistryKept | src/internal/server/wsfs/commands.go:462-511 | The registry holds exactly the open streams, by mark |
| FastBuffers.Session.DoCommandCall | src/internal/server/wsfs/commandCalls.go:259-278 | The dispatch of a payload command is acquire, decode, then release or hand over, branch by branch |
| FastBuffers.Session.HandOver | src/internal/server/wsfs/commands.go:462-511 | Bad descriptor, already open and not open give the buffer back; otherwise worker or stream owns it |
| FastBuffers.Session.StreamTurn | src/internal/server/wsfs/session.go:186-204 | A stream uses exactly what was decoded and then returns the buffer |
| Hibernation.OneConnection | src/internal/server/wsfs/handler.go:106-128 | In every run a session has at most one read loop, and while it has one nobody else holds its lock |
| Hibernation.FreeMeansIdle | src/internal/server/wsfs/session.go:105-135 | While a session's lock is free none of its commands runs |
| Hibernation.DestroyedAfterFiveScans | src/internal/server/wsfs/registry.go:46-72 | The collector takes a registered session out only after exactly five scans that found it free since its creation or last disconnect; one no longer registered had been closed by its client |
| Hibernation.DestroyedForGood | src/internal/server/wsfs/registry.go:58-63 | Nothing of a session the collector destroyed ever runs again |
| Hibernation.LocksKept | src/internal/server/wsfs/handler.go:106-117 | The lock is held by at most one of handshake, read loop, collector, or nobody after destruction |
| Hibernation.TakenKept | src/internal/server/wsfs/registry.go:58-65 | A lock that is taken is held by one of them: no other path leaks it |
| Hibernation.VisitIsSteps | src/internal/server/wsfs/registry.go:58-65 | An uninterrupted visit of the collector is a run of its steps |
| Hibernation.Registry.Scan | src/internal/server/wsfs/registry.go:46-72 | One pass in any order: free sessions are counted, those reaching five are removed and stay locked, others are unchanged |
| Hibernation.Registry.ServeHTTP | src/internal/server/wsfs/handler.go:84-128 | Unknown session or other user, session in use, failed upgrade, success: the answer and exactly what changes |
| Hibernation.Registry.StopConn | src/internal/server/wsfs/session.go:121-134 | A graceful close removes the session, any other resets its count; the lock is free |
| UrlPath.IsUrlValidIff | src/internal/util/url.go:5-15 | The substring tests accept exactly the absolute paths without "." and ".." segments |
| UrlPath.AcceptedStaysBelow | src/internal/util/url.go:5-15 | The normal form of root plus accepted path is the root's followed by the path's non-empty segments |
| UrlPath.SegmentIff | src/internal/util/url.go:8-11 | A name is a segment of an absolute path exactly if one of its two substring tests finds it |

## Left out

- WebSocket, TLS, HTTP, authentication, configuration, logging: the channel is a FIFO of messages.
- Response delivery across a lost connection: `Multiplex` is about one unbroken connection; `ClientSession` has the channels and the error responses sent then, but not what the responses say.
- Multiplex.EveryRun: the answers a worker will give are fixed per request; `Workers` says which scripts the program's own workers have.
- Workers.StreamConformsIff: the error text by which a stream's client recognises a lost connection is not looked at, because no server sends it.
- ReadDirPlus.EndToEnd: the directory opened, every name fits a message of its own, and a read that returns no entries also reports an error or the end, as the standard library's ReadDir does.
- ReadDirPlus.Completeness: the first read returns the whole root listing when it has at most 500 entries, as ReadDir with a larger count does.
- WriteStream.WriteEndToEnd: the descriptor is valid and nothing follows the end mark. Offsets and counts are unbounded integers; 64-bit wrap-around is not modelled here nor in `Transfers`.
- WriteStream.CmdWriteAt: a frame whose send is reported as failed does not arrive; a connection lost after the last send is not modelled here.
- Payloads.ReadAllToBuffer: a reader returns nothing without an error only finitely often; one that does so forever keeps the loop going.
- ClientSession.Session.HuntMark: one turn of the search by itself; the interleaved search, attempt by attempt and without end, is the event TryMark.
- FastBuffers.EveryRun: a payload is one value rather than bytes, and the limit of 64 concurrent commands is not imposed, which only adds runs; what that limit does to progress is in `Progress`.
- Hibernation.DestroyedAfterFiveScans: an id is never given out twice, and creating a session is one step although the registry briefly holds a placeholder that no handshake accepts.
- ClientSession.CloseAnsweredIff: how many answers a command will get is fixed when it is sent; a connection that was closed may still hand over messages that had arrived.
- Progress.MovesIff: the wires take any number of frames, so that a sender never waits for a receiver.
- XAttrWrite.XAttrClient.SetXAttr: a fault never looks like the answer that the attribute does not exist; the store is what the server's operating system keeps, one value per attribute and link choice.
- Transfers.CopyFileRange: source and destination are different files.
- Transfers.SegmentedReadIsOneRead: the positioned read; the sequential read has the same loop over the descriptor's own position.
- Schema.Analyzer.Analyze: starts from parsed structs; reading Go source text is not part of the model.
- Open, close, seek, allocate, sync, attributes, mkdir, links, remove, rename, locks, clone and file-system status: what their system calls do, and how error codes, open flags and file modes are translated between Go, the operating system and the protocol.
- FUSE nodes and their timed caches, the server hub's reload, WebDAV, the web interface, and everything specific to other operating systems.
