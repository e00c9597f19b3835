# network_pool, modelled and verified in Dafny

This project models the parts of `network_pool` that carry state through time and proves what
they promise. It has three large parts and four small ones.

**HTTP over TCP.** `HttpText` reads a header line and a number the way the C library does, and
`HttpHeaders` says which headers a list of lines holds. `HttpParser` is the resumable
eight-state message parser as a step machine on values: the buffer with its in-place NUL bytes,
the indices, the recorded line and chunk spans and the flags. `HttpSpans` says what the spans
and the overwritten buffer are worth, `HttpRoundTrip` proves parsing against encodings,
`HttpNumbers` writes the lengths and sizes of messages as digits and reads them back, with
names in any letter case, and `HttpMalformed` says which bytes are refused. `HttpPipeline` is
the loop of the server that hands out complete messages, `HttpTasks` what each task then finds
in its message. `Buffer` and `HttpContext` are the classes, with the byte loops over a real
array; `HttpServer` is the message loop over those objects.

**The connection pool.** `PoolModel` is the pool as a state machine: the tables and queues,
every `Ctcp` object with what libuv still owes it, and the history of notifications. Each libuv
callback is one step, and `on_wakeup` is several: taking the queues over, reading the exit
flag, each turn of its loops; callers of the pool come in between. What libuv and the allocator
answer are parameters of the step, and `Enabled` is the contract of the environment: any call
may fail, an accepted write, connect or shutdown is answered once and before the close callback
of its tcp handle, nothing is read and no timer fires after `uv_close`, each close callback
comes once and later, an address of no known family is refused. `PoolHeap`, `PoolTables`,
`PoolSteps`, `PoolFlow` and `PoolRuns` prove the invariant, operation by operation;
`PoolTheorems` reads the promises off it for every run; `PoolRequests` follows what callers ask
for into the pool, `PoolOutcomes` says what each request and each callback comes to for every
answer of libuv; `PoolDelivery` says what the pool does when nothing fails and what alone makes
it drop a message; `PoolAnswers` follows bind requests to their answers; `PoolExit` is what
happens to late requests and how the callbacks after the exit run out, `PoolReading` exactly
when they do; `PoolStray` treats one property the code does not keep. `UvTcp` and `NetworkPool`
are the classes, with connection objects on the heap, tables of references to them and callers
between the regions of `on_wakeup`, each method proved to be a step of the machine.

**Memory.** `FastAllocator` has the free lists as values and as lists threaded through the
freed blocks, `MemoryTrace` the header with the size and the two counters, `BufferOwners` any
number of buffers with allocations that may throw.

**The smaller parts.** `WorkQueue` is the work queue, its threads and the task registry as a
machine over lock regions, `TaskServer` the same as classes. `PeerFraming` is the
length-prefixed framing, `NetworkNode` hashing, equality and order of addresses. `Common` has
what several of them use.

`dafny verify dfyconfig.toml` checks everything.

## Where the code and what one would expect of it part ways

- Not every open stream stays in the table of streams: the table is erased by node, not
  by object. `PoolStray.StrayStream` is a run that shows it and `PoolStray.StepFiled`
  says exactly which steps do it.
- A request made after `on_wakeup` has taken the queues over and before it reads the exit flag
  is abandoned when the flag is set by then, although the destructor is the last public call:
  a message is not written, dropped or sent (its memory goes with the pool's own members), a
  bind is not answered. The destructor's wake-up can come when the handle is gone.
  `PoolExit.LateRequestAbandoned` is the run. All messages come to their end if and only if
  none is pending when the flag is read and found set (`PoolTheorems.AllEndedIff`), all binds
  are answered if and only if none is pending then (`PoolAnswers.AllBindsAnsweredIff`).
- After the exit the timers run out if and only if every open stream was in the table when the
  flag was read: otherwise the bytes a peer sends can restart a timer for ever
  (`PoolReading.ExitRunsOutIff`; a run in `PoolExit.StrayReadsForEver`).
- A canceled task still answers if a worker read its cancel flag before
  (`WorkQueue.CanceledActsIff`).
- `CnetworkPair::operator=` does not copy the protocol, so a pair no longer fits its hash
  exactly when the protocols of the two differed (`NetworkNode.CnetworkPair.Assign`), and equality then
  no longer separates protocols (`NetworkNode.AssignedPairsLie`).
- A buffer whose block is freed before a failing allocation keeps its old lengths; exactly
  those failures leave an unusable buffer (`BufferOwners.StepIntact`, and a run in
  `BufferOwners.FailedAssign`).
- A chunk size of one of the two largest 64-bit values passes the check of what has
  arrived, because `size + 2` wraps; exactly those sizes give spans outside the buffer
  (`HttpSpans.ChunkSpans`, in terms of the digits of the size line `HttpNumbers.SpanInsideIff`,
  a message in `HttpNumbers.HugeSizeEscapes`).
- A Content-Length of 2^31 or more is not read back, with one accidental exception
  (`HttpNumbers.LengthReadBack`).
- A framing context allowed less than 4 KB shrinks its buffer below what it holds and then
  offers more room than any block has (`PeerFraming.CpeerContext.PrepareBuffer`, a run in
  `PeerFraming.SmallMaximum`).
- A size line that starts with neither white space nor a digit announces no bytes, whatever
  digits follow, and so ends the body (`HttpMalformed.NoDigits`); the two bytes behind a chunk
  are not looked at (`HttpRoundTrip.ChunkedBodyParsed` holds for any two).
- A message may start with its blank line; it is complete and has no lines
  (`HttpRoundTrip.EmptyHead`).
- `peer_server.h` does not fit the other headers (constructor arguments, a misspelt
  parameter, a context of another type); its framing loops are modelled as they are meant.

## Model

| member | source | states |
|---|---|---|
| HttpText.AtoiIgnoresTrailingText | http_context.h:94-102 | The length of a body does not depend on the white space that follows the number in the line, although `atoi` reads past the trimmed value. |
| HttpText.SplitExact | http_context.h:109-133 | The scan for colon and white space finds a header in a line exactly when the line reads as name, colon, value with white space around them, and the reading is unique: trimmed name without colon, trimmed non-empty value. |
| HttpText.SameWordIs | http_context.h:94-102 | Two words are the same exactly when they have the same length and at each place the same character or the upper- and the lower-case form of one ASCII letter. |
| HttpText.SpaceIs | http_context.h:109-133 | White space is exactly space, tab, line feed, vertical tab, form feed and carriage return. |
| HttpParser.LoadWf | http_context.h:65-88 | A context with freshly received bytes satisfies the invariant of the parser. |
| HttpParser.StepWf | http_context.h:173-316 | Every step keeps the invariant: spans inside the consumed bytes and NUL-terminated, only the last line open, and the byte before an open line overwritten, so that the unsigned `index - 1 - first` never underflows. |
| HttpParser.StepProgress | http_context.h:173-316 | Analysis terminates: each step consumes bytes or moves to a lower state on the spot. |
| HttpParser.StepExtend | http_context.h:173-316 | A step taken before more bytes arrive is the same step afterwards: no decision of the parser looks ahead. |
| HttpParser.AnalyzeEarly | http_context.h:173-316 | Analysing what has arrived and again when the rest is there is one analysis of everything. |
| HttpParser.FragmentationIndependent | http_context.h:150-326 | However the bytes are cut into pushes, the parser ends in the state, indices, lines, flags, chunks and buffer bytes of one push and one analysis. |
| HttpParser.FragmentationFromStart | http_context.h:150-326 | The same from the first byte of a connection: every way to cut the same bytes ends in the same parser, with nothing assumed. |
| HttpSpans.LineSpans | http_context.h:197-316 | In every reachable state the recorded lines are ordered, disjoint and closed by NULs below the index; only the last can be open. |
| HttpSpans.ChunkSpans | http_context.h:222-291 | The body spans lie in order inside the consumed bytes if and only if no recorded size is one of the two for which `size + 2` wraps. |
| HttpSpans.BufferFaithful | http_context.h:197-316 | Writing NULs into the buffer damages nothing: for every input each changed byte was a carriage return or line feed, and as long as no recorded size is one of the two that wrap, the body read back is the body received. |
| HttpSpans.LastWins | http_context.h:94-102 | The last line naming a header, in any mixture of upper and lower case, decides its flag, whatever came before. |
| HttpSpans.UnnamedKeep | http_context.h:94-102 | Lines that do not name a header in any mixture of upper and lower case leave its flag alone. |
| HttpRoundTrip.HeadParsed | http_context.h:183-220 | Any block of non-empty lines parses to exactly those lines, with the flags and the framing they select, and is consumed to its last byte. |
| HttpRoundTrip.EmptyHead | http_context.h:210-215 | A message that is just a blank line is complete and has no lines. |
| HttpRoundTrip.ContentLengthRoundTrip | http_context.h:183-231 | A message with a Content-Length parses back to its lines and exactly its body and is complete exactly at its last byte. |
| HttpRoundTrip.ChunkedBodyParsed | http_context.h:232-316 | The chunked coding of section 7.1 of RFC 9112, with any chunks, extensions and trailer, is complete exactly at its last byte and yields the chunks' bytes in order; the two bytes behind a chunk may be any two. |
| HttpRoundTrip.ChunkedRoundTrip | http_context.h:173-316 | The same from the first header byte: decoding inverts chunked encoding for every header that selects it. |
| HttpRoundTrip.NotBefore | http_context.h:173-326 | A message complete at its last byte is not complete at any earlier one. |
| HttpNumbers.LengthReadBack | http_context.h:98-99 | The decimal digits of n are read back as n if and only if n is below 2^31, or by accident 2^64 - 1. |
| HttpNumbers.LengthOf | http_context.h:98-99 | What `atoi` makes of a sign and any digits: below 2^31 the number, otherwise the low 32 bits of the saturated number as a signed one, converted to 64 bits; a negative length is a huge one. |
| HttpNumbers.HexIs | http_context.h:256-270 | A hexadecimal digit is worth its place in 0123456789ABCDEF or 0123456789abcdef. |
| HttpNumbers.LengthWritten | http_context.h:173-231 | Encoding and decoding with a decimal Content-Length, its name in any mixture of upper and lower case: for any header lines that select no chunking and any body below 2^31 bytes, what was written is read back. |
| HttpNumbers.ChunksWritten | http_context.h:173-316 | Encoding and decoding in chunks with hexadecimal sizes, name and coding in any mixture of upper and lower case: for any header lines and any bodies, what was written is read back. |
| HttpNumbers.KeepAliveWritten | http_context.h:94-97 | A Connection line written behind any other lines, in any mixture of upper and lower case, keeps the connection alive exactly if it says Keep-Alive, in any other. |
| HttpNumbers.SpanInsideIff | http_context.h:232-291 | The span recorded for a chunk lies in the buffer if and only if the digits of its size line do not spell, modulo 2^64, one of the two largest numbers. |
| HttpNumbers.HugeSizeEscapes | http_context.h:232-291 | A chunked message with the size line FFFFFFFFFFFFFFFE and one more byte: its span leaves the buffer. |
| HttpMalformed.StepRefuses | http_context.h:173-316 | A step refuses the message exactly at a line feed without a carriage return in front of it, at the start, in the header, on a size line or in the trailer. |
| HttpMalformed.RefusedFor | http_context.h:173-316 | For every input: a refused message has such a line feed, and the index stays at it. |
| HttpMalformed.HeaderRefused | http_context.h:197-202 | A header line, after any others, that ends in a bare line feed has the message refused, whatever follows. |
| HttpMalformed.LineRefused | http_context.h:197-202 | So does a line of the header or the trailer under way. |
| HttpMalformed.SizeRefused | http_context.h:236-242 | So does a size line, whatever is on it. |
| HttpMalformed.PaddedSize | http_context.h:254-275 | White space in front of the digits of a size line is skipped as if it were not there. |
| HttpMalformed.NoDigits | http_context.h:254-275 | A size line that starts with neither white space nor a digit announces no bytes. |
| HttpPipeline.FormerWf | http_context.h:407-434 | A context handed over points at nothing outside the bytes it was given. |
| HttpPipeline.ServeUpToIsPrefix | http_server.h:147-167 | Running out of memory for tasks only cuts the list of tasks short; with enough memory nothing is cut. |
| HttpPipeline.ServeEarly | http_server.h:140-170 | Serving what has arrived and then the rest makes the tasks, in order, of serving everything at once, and leaves the same bytes. |
| HttpPipeline.PipelineFragmentationIndependent | http_server.h:140-170 | The tasks created and the bytes left do not depend on how the stream was cut into pushes. |
| HttpPipeline.PipelineSplits | http_server.h:140-170 | Complete messages followed by an incomplete tail make exactly one task each, equal to parsing that message alone, and leave exactly the tail. |
| HttpPipeline.StreamSplits | http_server.h:140-170 | Every stream is such a list of complete messages and an incomplete tail, so the previous row covers all streams. |
| HttpPipeline.DoneIsLocal | http_context.h:173-326 | Whether a message is complete does not depend on the bytes behind it. |
| HttpTasks.HandedOver | http_context.h:407-434 | What a task gets of a finished message is everything the analysis found: its bytes, lines, flags, body spans, and with them the texts and the body. |
| HttpTasks.TaskHolds | http_server.h:140-170 | Whatever follows a complete message in the stream, the first task shows the lines, flags and body of parsing that message. |
| HttpTasks.LengthTask | http_server.h:140-170 | The first task of a message written with a Content-Length, whatever follows it, has the lines as written, the flags they say, and the body. |
| HttpTasks.ChunkedTask | http_server.h:140-170 | The first task of a chunked message, whatever follows it, has header and trailer lines as written, the flags, and the bytes of all chunks. |
| HttpTasks.EachTask | http_server.h:140-170 | In a stream of any complete messages each task has the lines, flags and body of its own message. |
| HttpTasks.HeadersReadBack | http_context.h:357-386 | The headers written are those read back from the task, names, values and order, whatever lines that are no headers stand between them and whatever body and stream follow. |
| HttpTasks.TrailerReadBack | http_context.h:357-386 | With the chunked coding the headers of the trailer follow those of the header. |
| HttpHeaders.PairsAre | http_context.h:366-383 | The headers of a list of lines are one for each line that reads as one, in the order of the lines, with name and value of that line. |
| Buffer.Cbuffer.FromBytes | buffer.h:74-88 | The new buffer owns a fresh block with a copy of the bytes, or none for none; construction throws exactly when a block is needed and not to be had. |
| Buffer.Cbuffer.Copy | buffer.h:89-103 | A copy has the contents of the original in a block of its own, as large as what is in use; it throws exactly when that block is not to be had. |
| Buffer.Cbuffer.Move | buffer.h:104-110 | The block changes owner and the other buffer is empty and usable. |
| Buffer.Cbuffer.Set | buffer.h:146-161 | The contents become the given bytes; the block is reused or replaced by a fresh one, never shared; when the new block is not to be had the old one is gone and the lengths are not. |
| Buffer.Cbuffer.MoveFrom | buffer.h:133-144 | Move assignment transfers the block; moved to itself a buffer ends up empty. |
| Buffer.Cbuffer.Transfer | buffer.h:42-52 | The block goes to the caller and the buffer no longer refers to it. |
| Buffer.Cbuffer.Resize | buffer.h:163-186 | The promised prefix survives in the same or a fresh block, as far as it existed and still fits; a failed allocation changes nothing if there was something to copy, and else loses the block. |
| HttpContext.ScanText | http_context.h:109-133 | The pointer scan never leaves the line and its terminator and finds what splitting the line's text finds. |
| HttpContext.ChttpContext.ScanLine | http_context.h:366-382 | The same for a recorded line in the buffer, for both users of the scan. |
| HttpContext.ChttpContext.Init | http_context.h:65-88 | First use sets up an empty parser, unless there is no memory, and then the context is still to be set up; later uses change nothing. |
| HttpContext.ChttpContext.PrepareBuffer | http_context.h:150-165 | Making room keeps the received bytes and the parser, and never exceeds the maximum. It throws exactly when another block is needed and not to be had; received bytes survive that too, and only a block with no bytes received and less than 2 KB is lost. |
| HttpContext.ChttpContext.RecvPush | http_context.h:167-171 | Bytes written behind the received ones are taken in if they fit, otherwise ignored. |
| HttpContext.ChttpContext.DecoderHeaderAndUpdateState | http_context.h:104-144 | Decodes the header lines and selects the framing, chunked before Content-Length, as the specification does. |
| HttpContext.ChttpContext.Analysis | http_context.h:173-326 | The loops over bytes, with their in-place writes, compute the specification's analysis and tell when to stop. |
| HttpContext.ChttpContext.GetParameter | http_context.h:357-386 | Returns one header for each recorded line that reads as one, trailer included, in line order with its name and value, and only for a complete message. |
| HttpContext.ChttpContext.GetContent | http_context.h:389-405 | Returns the concatenation of the body spans, only for a complete message; it would copy from outside the buffer exactly when one of the two wrapping sizes was recorded. |
| HttpContext.ChttpContext.ReinitForNext | http_context.h:407-450 | Hands the message over and slides the rest to the front; every byte ends up in one of the two contexts. When there is no memory for the message it throws, and the message and the bytes behind it stay where they are. |
| HttpServer.HandOver | http_server.h:153-158 | A new task's context holds the finished message in memory of its own, or there is no memory for it, and the message stays with the connection. |
| HttpServer.Drain | http_server.h:146-167 | The loop over mutable contexts creates the tasks of the specification; it asks to close the connection exactly for malformed bytes or lack of memory for a task, and ends by an exception exactly for lack of memory for a task's bytes. |
| HttpServer.Message | http_server.h:140-170 | The same starting from newly received bytes, or none if they do not fit. |
| PoolHeap.CloseConnInv | uv_wrapper.cpp:127-158 | Closing is idempotent, closes each initialised handle once, and never deletes an object in use on the spot. |
| PoolHeap.ShutdownConnInv | uv_wrapper.cpp:160-186 | A graceful shutdown starts once; when it cannot start the object is closed instead. |
| PoolHeap.AllocInv | uv_wrapper.cpp:100-125 | An allocation leaves the new object, or an object already closing, or nothing; no half-initialised object is leaked. |
| PoolTables.ShutdownInv | network_pool.cpp:718-731 | Tearing down any connection, whatever its state, keeps the agreement of tables, objects and notifications. |
| PoolSteps.StartupInv | network_pool.cpp:680-715 | A connection becomes the stream of its node, with everything that waited, or is closed in favour of the one there. |
| PoolSteps.BindOneInv | network_pool.cpp:419-500 | Each bind request keeps the invariant: one open server per bound address, reported as such. |
| PoolSteps.SendOneInv | network_pool.cpp:502-596 | Each message keeps the invariant: it is written, waits for an open connection attempt, or is dropped. |
| PoolSteps.CloseOneInv | network_pool.cpp:598-611 | Each close request keeps the invariant, forced or graceful. |
| PoolSteps.NewConnectionInv | network_pool.cpp:117-163 | An incoming connection keeps the invariant through every failure. |
| PoolSteps.ConnectDoneInv | network_pool.cpp:165-189 | The end of a connect keeps the invariant, also when the node got another stream meanwhile. |
| PoolSteps.WriteDoneInv | network_pool.cpp:95-115 | The end of a write keeps the invariant. |
| PoolRuns.ExitInv | network_pool.cpp:342-412 | The exit branch leaves empty tables with everything reported down and every server and connection attempt closing. |
| PoolRuns.ExitFlow | network_pool.cpp:396-411 | The exit branch drops every waiting and every taken-over message exactly once and loses none of them; what was queued since the take-over stays in its place. |
| PoolRuns.StepInv | network_pool.cpp:329-613 | Every step of the pool keeps the invariant of objects, tables and notifications. |
| PoolRuns.StepFlow | network_pool.cpp:329-613 | Every step keeps each message in exactly one place and in order, calls of `send` between the regions of `on_wakeup` included. |
| PoolTheorems.RunGood | network_pool.cpp:50-189 | In every run no callback and no table entry reaches a deleted object, and all invariants hold in every state. |
| PoolTheorems.ExitedForGood | network_pool.cpp:342-412 | After the exit step the tables stay empty and no connection is ever reported up again, in any run that follows. |
| PoolTheorems.MessagesConserved | network_pool.cpp:95-115 | In every reachable state each accepted message is in exactly one of pending, taken over, waiting, in flight, written, dropped, sent as datagram; it is dropped at most once and its block freed exactly at the end of its way. |
| PoolTheorems.NothingInvented | network_pool.cpp:502-561 | Whatever is found in any of those places was accepted by `send`. |
| PoolTheorems.NothingStranded | network_pool.cpp:623-731 | A node with waiting messages has no stream, and an open connection attempt to it with a running timer exists. |
| PoolTheorems.FifoPerNode | network_pool.h:235-247 | For each node, what is handed to `uv_write` over all its connections follows the order of `send`. |
| PoolTheorems.WaitingInBetween | network_pool.cpp:637-678 | Waiting messages come after all those handed over for their node and before all still queued. |
| PoolTheorems.TableAgreement | network_pool.cpp:680-731 | A node is in the table of streams exactly when its last notification said up, up is only reported for an absent node, each entry is an open connection of its node; the server tables agree with bind notifications likewise. |
| PoolTheorems.ObjectsClosedOnce | uv_wrapper.cpp:127-158 | Each handle is closed at most once, each object deleted at most once, and every object ever made exists or was deleted. |
| PoolTheorems.StepKeepsObject | uv_wrapper.cpp:127-186 | No step but a close callback of its own removes an object. |
| PoolTheorems.DeletedAfterLastClose | uv_wrapper.cpp:127-186 | An object is deleted only with the last close callback of its handles, and at that point libuv owes it no connect, write, shutdown, read or timer callback. |
| PoolTheorems.BoundedLifetime | network_pool.cpp:50-67 | Between callbacks every open connection has a running timer, and its firing puts the object into closing. |
| PoolTheorems.AlwaysOwed | network_pool.cpp:50-189 | No deadlock: every object that is not a listening server has a callback coming. |
| PoolTheorems.NothingLeft | network_pool.cpp:333-342 | When the pool has exited and nothing more calls back, every object is deleted, and an accepted message was written, dropped or sent, exactly one of these, and freed once, if and only if it was accepted before the last take-over; the others are exactly what is still pending. |
| PoolTheorems.AllEndedIff | network_pool.cpp:340-342 | For every run after the exit flag is read and found set that ends with nothing due: all accepted messages came to their end if and only if none was pending in that moment. |
| PoolTheorems.SeenMoves | network_pool.cpp:333-340 | Only a take-over moves the boundary between the messages that will end and those that may be abandoned. |
| PoolExit.LateRequestAbandoned | network_pool.cpp:340-342 | A run in which a message and a bind come between the unlock and the test of the exit flag: neither ever comes to its end, and the destructor's wake-up finds the handle gone. |
| PoolAnswers.BindsInOrder | network_pool.cpp:332-340 | Over every run the bind requests answered, followed by those taken over and those pending, are the requests made, in order: each is answered at most once, none out of turn, none lost. |
| PoolAnswers.AnswersTold | network_pool.cpp:419-500 | As long as the pool has not exited, the bind notifications are one for each request answered, for its node, in order. |
| PoolAnswers.StepTells | network_pool.cpp:342-412 | The exit tells the servers it closes and then answers each request taken over; besides it and the turns of the bind loop nothing gives a bind notification. |
| PoolAnswers.AllBindsAnsweredIff | network_pool.cpp:340-342 | For every run that exits: the answers belong to the first requests made, in order, and to all of them if and only if none was pending when the exit flag was read; the others are exactly those still pending. |
| PoolExit.CallbacksRunOut | uv_wrapper.cpp:127-186 | After the exit a run has at most as many events other than reads as there are handles, requests and timers left, and each of them lowers that number. |
| PoolExit.OnlyStraysRestart | network_pool.cpp:69-93 | After the exit a timer is only ever restarted for an open stream that was outside the table. |
| PoolReading.OpenStreamsAreRead | network_pool.cpp:69-93 | In every run each open object past its connect is being read. |
| PoolReading.StraysRestart | network_pool.cpp:69-93 | After the exit, for every open stream outside the table: bytes from its peer restart its timer and leave the pool as it was, so that this can go on for ever. |
| PoolReading.RunOutIff | network_pool.cpp:69-115 | For every reachable exited state: no run from it restarts a timer if and only if no open stream is outside the table, and if and only if no timer can be restarted at once. |
| PoolReading.ExitRunsOutIff | network_pool.cpp:342-412 | The same from the moment the exit flag is read: no timer is restarted after the exit if and only if every open stream is in the table then; the exit itself changes nothing about that. |
| PoolExit.StrayReadsForEver | network_pool.cpp:69-93 | A reachable exited state with a stray stream that can be read, and its timer restarted, any number of times. |
| PoolStray.ShutdownFiled | network_pool.cpp:718-731 | Tearing down a connection leaves all other open streams in the table if and only if the node has no stream or this connection is it. |
| PoolStray.StepFiled | network_pool.cpp:50-189 | The exact condition under which a step keeps every open stream filed, over all events. |
| PoolStray.StrayStream | network_pool.cpp:165-189 | A run in which an incoming connection loses its entry to a failing connect of the same node. |
| PoolDelivery.NoDropWithoutCause | network_pool.cpp:95-115 | No step drops a message unless a call failed, a peer is gone or timed out, the caller wanted no connection, or the pool exits. |
| PoolDelivery.TurnForwards | network_pool.cpp:502-561 | Without such a cause a message is written at once on its node's stream, or waits last in line for an open connection attempt. |
| PoolDelivery.ConnectDelivers | network_pool.cpp:165-189 | A successful connect becomes the stream of its node, is reported up, and everything that waited is written in one write. |
| PoolDelivery.AcceptDelivers | network_pool.cpp:117-163 | An accepted connection does the same for the peer's node. |
| PoolDelivery.ExitCloses | network_pool.cpp:342-412 | The exit closes exactly the objects of the tables. |
| PoolRequests.SendsInOrder | network_pool.h:235-247 | Over every run the messages accepted are exactly the sends that are neither empty nor datagrams of more than 65,507 bytes, in the order of the calls, each with its node and its wish to connect. |
| PoolRequests.ClosesInOrder | network_pool.h:251-261 | Over every run the close requests done with, then those to be handled, are those of the calls for a TCP node, in order: none lost, repeated, overtaken or altered. |
| PoolOutcomes.CloseTurn | network_pool.cpp:598-611 | A close request takes the node out of the table and reports it down once, with all other entries as they were; forced, or when the timer or the shutdown is refused, the object goes down, otherwise it stays open with its timer running until its shutdown is answered. For a node without a stream nothing happens. |
| PoolOutcomes.BindTurn | network_pool.cpp:419-500 | One notification, true exactly if the request was a bind and the node was bound before or every call succeeded; exactly then the node is in the table of its protocol, a TCP server listening under its own node. An unbound server goes down; other entries are as they were. |
| PoolOutcomes.SendTurn | network_pool.cpp:502-596 | Whether a message goes out on the stream of its node, waits, starts a connection or is dropped, and what is reported, for every answer libuv and the allocator may give. |
| PoolOutcomes.NewConnectionOutcome | network_pool.cpp:117-163 | An accepted connection becomes the stream of its node and is reported up, and what waits for the node goes out on it; otherwise the new object goes down and nothing is told. |
| PoolOutcomes.ConnectOutcome | network_pool.cpp:165-189 | A failed connect is reported down, whether the node was up or not, and everything waiting for it is dropped; one that succeeds becomes the stream of its node, unless there is one. |
| PoolOutcomes.WriteOutcome | network_pool.cpp:95-115 | The messages of an answered write are written or, if it failed, dropped; after a failure, or when the idle timer cannot be started again, the connection is given up and reported down if it was up. |
| PoolOutcomes.ReadOutcome | network_pool.cpp:69-93 | A failed read gives the connection up, a read whose timer cannot be started again too; any other read changes nothing. |
| PoolOutcomes.TimeoutOutcome | network_pool.cpp:50-54 | A connection whose time is over is given up. |
| PoolOutcomes.DrainedOutcome | uv_wrapper.cpp:168-176 | When its shutdown is answered the object goes down, and nothing is told any more. |
| PoolOutcomes.HandleOutcome | uv_wrapper.cpp:134-152 | The object is gone exactly with the last of its handles. |
| PoolOutcomes.ExitOutcome | network_pool.cpp:342-412 | The exit empties the tables, reports every stream and every connection attempt down once, in the order of the tables, and drops every message waiting and then every message taken over. |
| NetworkPool.CnetworkPool.Bind | network_pool.h:224-232 | Appends a bind request; a step of the machine. |
| NetworkPool.CnetworkPool.Send | network_pool.h:235-247 | Accepts a copy of a non-empty message and ignores oversized datagrams; a step of the machine. |
| NetworkPool.CnetworkPool.Close | network_pool.h:251-261 | Appends a close request for TCP nodes only; a step of the machine. |
| NetworkPool.CnetworkPool.Destroy | network_pool.h:200-202 | Sets the exit flag; a step of the machine. |
| NetworkPool.CnetworkPool.Signal | network_pool.h:203 | Wakes the loop; it finds the handle exactly if the loop has not been through the exit branch yet. |
| NetworkPool.CnetworkPool.DropWaiting | network_pool.cpp:623-635 | Every waiting message of the node is dropped and freed once, in order. |
| NetworkPool.CnetworkPool.OnNewConnection | network_pool.cpp:117-163 | The callback, on heap objects and tables of references, is a step of the machine over numbered records and keeps every invariant. |
| NetworkPool.CnetworkPool.OnConnectDone | network_pool.cpp:165-189 | The callback, on heap objects and tables of references, is a step of the machine over numbered records and keeps every invariant. |
| NetworkPool.CnetworkPool.OnTcpWriteDone | network_pool.cpp:95-115 | The callback, on heap objects and tables of references, is a step of the machine over numbered records and keeps every invariant. |
| NetworkPool.CnetworkPool.OnTcpRead | network_pool.cpp:69-93 | The callback, on heap objects and tables of references, is a step of the machine over numbered records and keeps every invariant. |
| NetworkPool.CnetworkPool.OnTcpTimeout | network_pool.cpp:50-54 | The callback, on heap objects and tables of references, is a step of the machine over numbered records and keeps every invariant. |
| NetworkPool.CnetworkPool.OnShutdownDone | uv_wrapper.cpp:168-176 | The callback, on heap objects and tables of references, is a step of the machine over numbered records and keeps every invariant. |
| NetworkPool.CnetworkPool.OnTcpHandleClosed | uv_wrapper.cpp:134-142 | The object goes with its last handle; a step of the machine. |
| NetworkPool.CnetworkPool.OnTimerHandleClosed | uv_wrapper.cpp:145-152 | The object goes with its last handle; a step of the machine. |
| NetworkPool.CnetworkPool.ExitBranch | network_pool.cpp:342-412 | Walking the tables of references and closing the objects one by one is the exit of the machine, no object closed twice. |
| NetworkPool.CnetworkPool.ReadExitFlag | network_pool.cpp:342 | The test of the exit flag, made after the lock is released, and the exit if it is set; a step of the machine. |
| NetworkPool.CnetworkPool.Callers | network_pool.h:224-261 | Whatever other threads call while `on_wakeup` is between two regions is a run of the machine. |
| NetworkPool.CnetworkPool.OnWakeup | network_pool.cpp:329-613 | One call, with callers in each of its gaps, is a run of the machine: take the queues over, read the flag, then exit or handle every taken request in order, with nothing left of them. |
| FastAllocator.AllocGood | fast_allocator.cpp:70-89 | Allocation keeps the free lists disjoint from each other and from the blocks in use, within their limits, and every kept block large enough for the link. |
| FastAllocator.FreeGood | fast_allocator.cpp:91-110 | So does freeing a block with the size it was asked for. |
| FastAllocator.AllocIsNew | fast_allocator.cpp:70-89 | In every run of calls an allocated block was not in use, is large enough, and is in no list afterwards. |
| FastAllocator.NothingLeaks | fast_allocator.cpp:70-110 | In every run the blocks obtained from `malloc` and not given back are those in use plus those kept, and no list exceeds its limit. |
| FastAllocator.AllocUndoesFree | fast_allocator.cpp:70-110 | Allocating a size just freed returns the same block and restores the store. |
| FastAllocator.FastStore.constructor | fast_allocator.cpp:45-68 | The limits are those of the last setting for each size. |
| FastAllocator.LimitIs | fast_allocator.cpp:45-68 | The limit of a size is that of the last setting that names it, and 0 if none does. |
| FastAllocator.FastStore.Alloc | fast_allocator.cpp:70-89 | Popping the list through the link in the block does what the specification does; the words of blocks in use are untouched. |
| FastAllocator.FastStore.Free | fast_allocator.cpp:91-110 | Pushing the block by writing the link into it does what the specification does; no other word changes. |
| FastAllocator.FastStore.WriteWord | memory_trace.h:75 | The owner of a block writes to its start, as the header of traced memory is written, and no free list changes. |
| MemoryTrace.MallocInv | memory_trace.h:64-102 | A traced block is new, carries its size and is counted; a failed allocation changes nothing. |
| MemoryTrace.ReleaseInv | memory_trace.h:104-118 | A block is freed with the size it was allocated with and leaves the counters right. |
| MemoryTrace.ReportsWhatIsInUse | memory_trace.h:40-118 | Over every sequence of calls the counters are the number and the total size of the blocks in use. |
| MemoryTrace.ReleaseUndoesMalloc | memory_trace.h:64-118 | Freeing a new block takes the report back to what it was. |
| MemoryTrace.TerminatedIff | memory_trace.h:64-71 | The program is terminated for exactly the sizes whose header no longer fits 64 bits. |
| MemoryTrace.CmemoryTrace.MallocNoThrow | memory_trace.h:84-102 | The header is written into the block and later reads as its size. |
| MemoryTrace.CmemoryTrace.FreeSetNullptr | memory_trace.h:104-118 | The size comes from the header; the headers of all other blocks survive. |
| BufferOwners.StepOwned | buffer.h:42-186 | Whatever is done to buffers and whichever allocation throws, each block keeps exactly one owner. |
| BufferOwners.RunOwned | buffer.h:42-186 | The same over every sequence of operations. |
| BufferOwners.OwnersApart | buffer.h:42-186 | From the start on no two buffers share a block, each block has the size its buffer says, lengths stay within it, and a transferred block belongs to no buffer. |
| BufferOwners.NothingLeft | buffer.h:111-114 | When every buffer is destroyed and every transferred block freed, the trace reports nothing in use. |
| BufferOwners.StepIntact | buffer.h:116-186 | A step leaves every buffer usable if and only if it does not free a block while there is none of the new size in the free lists and `malloc` fails. |
| BufferOwners.StepDoes | buffer.h:42-186 | What each operation does to the buffers and to the blocks in use: where the block of a buffer goes, when a new one of exactly the wanted size is taken and the old one freed, and what is left when there is none. |
| BufferOwners.FailedAssign | buffer.h:146-161 | The run: one byte stored, two assigned while `malloc` fails; the buffer has no block and says it has room for one byte. |
| WorkQueue.StepInv | work_queue.h:52-128 | Every lock region and every step between them keeps the invariant of queue, workers and registry. |
| WorkQueue.OnePlace | work_queue.h:52-128 | Every task constructed is in exactly one place: not queued yet, queued, in the hands of one worker, or deleted. |
| WorkQueue.FirstInFirstOut | work_queue.h:52-69 | Tasks leave the queue in the order of queueing. |
| WorkQueue.RunsOnce | work_queue.h:71-82 | A task runs at most once and is deleted at most once; before the exit only tasks that ran are deleted. |
| WorkQueue.AnswersUnlessCanceled | http_server.cpp:47-67 | A task that has run and was never canceled has answered, unless a worker is just about to. |
| WorkQueue.NoLostWakeup | work_queue.h:52-69 | While a worker sleeps, queued tasks never outnumber notified workers, spurious wake-ups included. |
| WorkQueue.TasksAreServed | work_queue.h:123-128 | With a task queued some worker is awake. |
| WorkQueue.JoinGoesOn | work_queue.h:84-114 | After `setExit` nobody sleeps and some worker can move until all have left. |
| WorkQueue.JoinComesCloser | work_queue.h:84-114 | Each move of a worker after `setExit` brings the end of `join` closer, and nothing else moves it away. |
| WorkQueue.DestructorEnds | work_queue.h:84-114 | From every state ever reached the destructor can get through: the workers leave, the rest is disposed of, and nothing is registered. |
| WorkQueue.NothingLeft | work_queue.h:108-114 | After the destructor every task was deleted exactly once and none is registered. |
| WorkQueue.RegistryIsLive | http_server.h:103-120 | The registry holds exactly the live tasks, each once, under its own node. |
| WorkQueue.CancelMarks | http_server.h:122-128 | Canceling marks the live tasks of the node and no others. |
| WorkQueue.CanceledNeverActs | http_server.cpp:47-50 | A canceled task never answers, whatever happens afterwards, if no worker had read its cancel flag and not answered yet. |
| WorkQueue.CanceledActsIff | http_server.cpp:47-67 | Exactly that: a canceled task can still answer in some run if and only if a worker had read its flag before. |
| TaskServer.CworkQueue.SetExit | work_queue.h:84-89 | Everybody asleep is notified. |
| TaskServer.ChttpServer.DeleteReferenceTask | http_server.h:108-120 | The loop erases the one entry of this task and no other. |
| TaskServer.ChttpServer.CancelTask | http_server.h:122-128 | The loop over the node's entries is the step of the machine. |
| TaskServer.ChttpServer.NewTask | http_server.cpp:36-40 | A new task registers itself; a step of the machine. |
| TaskServer.ChttpServer.WorkerLooks | work_queue.h:52-69 | A step of the machine. |
| TaskServer.ChttpServer.WorkerRuns | http_server.cpp:47-50 | Up to the test of the cancel flag; a step of the machine. |
| TaskServer.ChttpServer.WorkerAnswers | http_server.cpp:51-67 | The rest of the task; a step of the machine. |
| TaskServer.ChttpServer.WorkerDeletes | http_server.cpp:42-45 | Deletes the task, which leaves the registry; a step of the machine. |
| TaskServer.ChttpServer.DeleteRest | work_queue.h:108-114 | What was never taken is deleted in order, and nothing stays registered. |
| PeerFraming.DecodeEncode | peer_server.h:74-97 | Decoding undoes encoding for every list of frames and keeps exactly the incomplete frame behind them. |
| PeerFraming.Frame | peer_server.h:74-97 | A frame is the length in four bytes, the least significant first, and the content. |
| PeerFraming.EncodeDecode | peer_server.h:74-97 | Encoding the decoded frames and appending the rest spells the input again, and the rest holds no whole frame. |
| PeerFraming.DecodeMore | peer_server.h:74-97 | More bytes never change the frames already decoded. |
| PeerFraming.StreamingIsOneShot | peer_server.h:68-113 | However a stream is cut into pieces, the frames are those of the one-shot decoder on the whole and the bytes kept its incomplete end. |
| PeerFraming.FramesArrive | peer_server.h:68-113 | The frames a sender put on the wire arrive in any fragmentation. |
| PeerFraming.StallsOnlyOnLongFrame | peer_server.h:51-66 | Receiving stalls for want of room only on a frame too long for the largest buffer. |
| PeerFraming.GetContentOf | peer_server.h:99-113 | The datagram decoder returns the decoded frames. |
| PeerFraming.CpeerContext.PrepareBuffer | peer_server.h:51-66 | Making room keeps the kept bytes; it throws exactly when another block is needed and not to be had, and then nothing has changed. The room lies in the block if and only if the kept bytes fit the largest buffer or 2 KB are free, which always holds with a largest buffer of 4 KB or more; then there is none left exactly when they fill it. |
| PeerFraming.SmallMaximum | peer_server.h:51-66 | A run with a largest buffer of 2,049 bytes in which the room offered is more than any block has. |
| PeerFraming.CpeerContext.PushBuffer | peer_server.h:68-72 | Takes the new bytes in if they fit. |
| PeerFraming.CpeerContext.GetContent | peer_server.h:74-97 | Returns the decoded frames and keeps the rest, moved to the front. |
| PeerFraming.CpeerContext.Message | peer_server.h:161-175 | One received piece, or nothing if it does not fit, is one push of the specification. |
| NetworkNode.HashSeparatesProtocols | network_node.h:451-454 | For all addresses the two protocols hash a pair differently, in arithmetic modulo 2^64. |
| NetworkNode.HashTellsApart | network_node.h:273-298 | For nodes of one protocol the hash tells V4 addresses and ports apart completely, and V6 ones that differ in one of the four words or the port alone; flow and scope do not count. |
| NetworkNode.PairEqualityIsExact | network_node.h:493-496 | Equal hash and addresses mean equal protocol, for pairs that fit their hash. |
| NetworkNode.LessAddress | network_node.h:187-223 | The comparison is the lexicographic order of the stored numbers. |
| NetworkNode.EqualAddress | network_node.h:225-261 | The comparison is equality of all stored numbers. |
| NetworkNode.NodeOrder | network_node.h:395-406 | The order of nodes is total, transitive and agrees with equality. |
| NetworkNode.PairOrder | network_node.h:485-496 | Two pairs that fit their hash and are not ordered are equal in all fields, protocol included. |
| NetworkNode.CnetworkNode.EqualTo | network_node.h:403-406 | Nodes are equal exactly when protocol and address are. |
| NetworkNode.CnetworkNode.LessThan | network_node.h:395-402 | The comparison is lexicographic in hash, protocol and address. |
| NetworkNode.CnetworkNode.Assign | network_node.h:380-393 | Assignment keeps a node and its hash together. |
| NetworkNode.CnetworkPair.SetProtocol | network_node.h:502-506 | The hash follows the protocol. |
| NetworkNode.CnetworkPair.Assign | network_node.h:471-484 | Everything but the protocol is taken over; the pair fits its hash afterwards if and only if the hash taken over was made for its own protocol, which for a source that fits its hash means that the protocols were the same. |
| NetworkNode.CnetworkPair.EqualTo | network_node.h:493-496 | For pairs that fit their hash, equality is equality of protocol and both addresses. |
| NetworkNode.CnetworkPair.LessThan | network_node.h:485-492 | The comparison is lexicographic in hash, remote and local address. |
| NetworkNode.AssignedPairsLie | network_node.h:471-496 | A datagram pair assigned to a stream pair: they compare equal and say different protocols. |

## Left out

- Sockets, names and options: libuv itself, parsing and printing of addresses, `setTcp`, `setUdp`, the event loop and the async handle; only the contract described above is kept.
- Datagrams: a message for a datagram node counts as sent when its turn comes, and datagram servers are a set of addresses; the `Cudp` objects and their failures, which the code does not report, are not modelled.
- In the machine `Ctcp` objects are records under numbers that are never used again; in the class they are objects that keep their number, so that a reference to a deleted one stays recognisable. `container_of` and placement new are not modelled.
- The copies `on_wakeup` works through are fields of the class, so that the state between two turns is a state of the machine.
- Writes, connects and shutdowns are flags and lists of what libuv owes, without the memory of the requests; that of the messages is followed block by block.
- `send`, `bind` and `close` called after the destructor has begun: the destructor is the last public call.
- Exceptions other than failed allocations in buffers, thread construction failure, mutexes and atomics: lock regions are steps.
- `getInfo`, which indexes the first line without a check, and the fixed answer of `ChttpTask::run`; whether a canceled task answers is modelled.
- Characters stand for bytes, in the parser with the C locale's `isspace` and ASCII case folding, and `atoi` for numbers out of range follows the GNU C library on 64 bits.
- The counters of the memory trace have no limit on their width; the real ones hold the same numbers modulo 2^64 and 2^32.
- Debug fills and logging.
- What follows an exception out of `message`: the task constructed last stays registered and is never queued, and libuv's loop is left by it; the machines of the queue and of the pool have no such step.
- PeerFraming.CpeerContext.PrepareBuffer: doubling a length does not wrap.
- HttpContext.ChttpContext.RecvPush: adding the length to the index does not wrap; the socket reports no such length.
- PeerFraming.CpeerContext.PushBuffer: the same.
