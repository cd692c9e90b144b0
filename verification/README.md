# A verified model of the HTTP/1.1 server

The server is one thread around `epoll`: non-blocking sockets, incrementally parsed
pipelined requests, CGI children talked to through pipes, sweeps for timeouts.  This
project models that thread and proves what it keeps over every run.

**The event loop.**  `Loop.dfy` says, handler by handler, what one step does to the
tables and to the kernel underneath; `EventLoop.dfy` has the program's own shape, a
class per connection and a class for the loop whose methods update fields in place
with the source's loops, and proves that each method computes the step of `Loop.dfy`.
The kernel (`Kernel.dfy`) is a set of open descriptors, the interest in them, and the
unreaped children.  Every answer of the outside world (a read, a partial write, a
fresh descriptor, what `spawn_cgi` comes to, a failing registration, an exit status, the
decision of `handle_request`) comes from a `World`, an arbitrary function of the number of
the call; the order in which a hash map is walked is an arbitrary function of that number
and of the keys.  The events handed to a tick are an arbitrary list, so they may be stale,
and the wait for them may fail.  A theorem for every `World` and every list of ticks is a
theorem for every interleaving.  An answer the system cannot give (an accept
that returns a descriptor in use) counts as a failure of that call.  Fields named `log`,
`lost`, `serials`, `ended`, `request`, `serial`, `delivered`, `received` and `origin` are history:
no step decides by them.

`LoopInvariants.dfy`, `LoopHandlers.dfy`, `LoopEvents.dfy` and `LoopRuns.dfy` carry one
invariant through every handler, sweep, tick and run; `LoopResults.dfy`, `LoopIdle.dfy`,
`LoopQuiet.dfy`, `LoopNotices.dfy`, `LoopOutcomes.dfy`, `LoopClosing.dfy`, `LoopActivity.dfy`,
`LoopQueues.dfy`, `LoopEndings.dfy` and `LoopClient.dfy` say what follows from it; `LoopWitnesses.dfy` has the concrete runs that show what does not.
The invariant is also about content: every reply on a connection's stream is one that
`handle_request` gave for that very request or, where it asked for a CGI, the page made of exactly
what was read from the process that worked for that request; it is the 500 only if no process was
started, its output could not be read, it ran for more than ten seconds, or it wrote nothing and failed.

**The parser** (`Parser.dfy`) works on bytes, including UTF-8 validity, Unicode trimming
and 64-bit sizes.  Its loops are methods proved against recursive functions; about those
`ParserStability.dfy` proves which verdicts later bytes can change, `ChunkCodec.dfy` that
the chunked decoder accepts exactly the encodings, `HeadGrammar.dfy` that exactly the heads of a
grammar are accepted and which head each spells (with `Unicode.dfy` for what UTF-8 is), `Printer.dfy`
that requests printed from their parts are read back, and `Pipeline.dfy` when cutting the stream into reads does not matter;
`StreamWitnesses.dfy` has a request for which it does.

**The rest.**  `Calendar.dfy`, `HttpDate.dfy` and `Response.dfy`: dates and the bytes of a
response, read by a client that follows section 3.3.3 of RFC 7230; `ResponseWitnesses.dfy`
has responses that such a client misreads.  `Sessions.dfy`: the session store and the visit counter.  `Configuration.dfy` and
`Routing.dfy`: validation, and what it makes of route and server selection.

## Where the program does less than it says

Each of these is kept as the code has it, with the exact condition proved and an input for which it fails.

- A `HeaderTooLarge` verdict can be undone by up to three more bytes, because the limit is
  compared with the buffer in one place and with the head in the other
  (`ParserStability.TooLargeIsFinalIff`).  Hence cutting a stream differently changes its
  meaning exactly when a request head ends within three bytes of the limit
  (`Pipeline.SegmentationIff`, `StreamWitnesses.CutMatters`).
- `spawn_cgi` promises that a failure leaks no descriptor (src/net/process.rs:44-46).  An argument
  that holds a zero byte makes it return with all four pipe ends open (67-81), and a pipe that cannot
  be made non-blocking makes it return with the child running and its pid forgotten (159-171).  If the
  stdout pipe of a CGI child cannot be registered, that descriptor is never closed and the pid never
  reaped.  Nothing else is ever lost (`LoopResults.LosesIff`, `LoopResults.NoLeakIff`,
  `LoopResults.ChildrenConserved`, `LoopWitnesses.LeaksHappen`).
- After a CGI could not be started, requests queued behind it wait until the client sends more
  (`LoopResults.StallIff`, `LoopQuiet.OnlyReadsWake`, `LoopWitnesses.StallHappens`), although the
  comment on draining the queue says that it is there so that they need not wait for a socket event.
  In a run in which that never happens, requests wait only while a CGI runs for their connection
  (`LoopQueues.QueuesServed`).
- The comment on the idle sweep says that it leaves waiting connections to the CGI timeout
  and thereby avoids a race.  Ending a CGI does not refresh the connection's last activity,
  so the answer to a CGI that timed out can be queued and thrown away by the idle sweep of the
  same tick, before a byte of it is sent.  The only other way to lose it there is a failure to
  re-arm the connection (`LoopIdle.AnswerLostIff`, `LoopWitnesses.AnswerLossHappens`).
- Headers a caller supplies are not checked, and those of a CGI script are all passed on
  (src/server/event_loop.rs:1667-1684).  A response delimits itself exactly if it has no body where there
  must be none, and elsewhere no `Transfer-Encoding` and no `Content-Length` but right ones
  (`Response.SelfDelimitingIff`, `ResponseWitnesses`).
- Validation treats each address on its own, while selection also lets a wildcard server answer,
  so two validated servers can answer for one name (`Routing.OnlyWildcardsClash`,
  `Routing.OrderFreeIff`, `Routing.AmbiguityHappens`).
- A 400 or 413 is queued even while a CGI is outstanding, and so goes in front of its answer
  (`LoopNotices.NoticeOvertakesIff`).  It also marks the connection for closing, so the answer
  goes out behind it only if the CGI ends, or times out, before the pending bytes are written
  (`LoopNotices.AnswerStillGoesOutIff`, `LoopWitnesses.NoticeHappens`).  In the results on order these
  notices, and the 408, answer no parsed request.
- The idle sweep does not refresh the last activity either, so for an idle connection with part of a
  request every idle sweep queues a 408 until the connection closes, and no more than one exactly if
  that happens within a sweep interval (`LoopQuiet.TimeoutsCounted`, `LoopQuiet.AtMostOneIff`).  A
  client that has stopped reading in the middle of an answer gets any number of them queued behind it
  (`LoopWitnesses.TimeoutsHappen`).

## Model

| member | source | states |
|---|---|---|
| Bytes.Find | src/http/parser.rs:476-500 | the first occurrence of a separator, and none means that there is none |
| Parser.ParseHeaderLines | src/http/parser.rs:209-219 | the header loop yields the parsed headers of all non-empty lines, or the error of the first bad one |
| Parser.DetermineBodyFraming | src/http/parser.rs:647-790 | the nested loop over Content-Length values and their comma-separated parts computes the framing, with the conflict and syntax errors |
| Parser.DecodeChunkedBody | src/http/parser.rs:358-450 | the decoding loop, with its overflow checks and the limit, computes the decoding that ChunkCodec characterises |
| Parser.ParseRequestHead | src/http/parser.rs:170-240 | the head, its length with the blank line, or the error, in the program's order of checks; HeadGrammar says which heads and Printer what they mean |
| Parser.ParseRequest | src/http/parser.rs:255-339 | one request with its body, or that more bytes are needed, or the error |
| Parser.RequestOf | src/http/parser.rs:255-339 | a complete request consumes at least four bytes and no more than there are, so the read loop ends |
| ParserStability.VerdictStable | src/http/parser.rs:170-339 | a verdict is unchanged by any later bytes, unless the buffer could still turn out to hold a head within the limit |
| ParserStability.CompleteAndErrorsAreFinal | src/http/parser.rs:255-339 | a complete request and every error but HeaderTooLarge are unchanged by any later bytes |
| ParserStability.TooLargeIsFinalIff | src/http/parser.rs:170-187 | HeaderTooLarge survives all extensions exactly when the buffer does not end, around the limit, in the beginning of a blank line |
| ParserStability.TooLargeUndone | src/http/parser.rs:170-187 | in the other case at most three further bytes undo it |
| ParserStability.LongBuffersAreFinal | src/http/parser.rs:170-187 | beyond the limit plus three bytes every verdict is final |
| ParserStability.TooLargeWitness | src/http/parser.rs:170-187 | a concrete buffer whose HeaderTooLarge is undone |
| ChunkCodec.DecodeEncoding | src/http/parser.rs:343-450 | any encoding followed by anything decodes to its data and its length, or to BodyTooLarge beyond the limit |
| ChunkCodec.EncodedFrom | src/http/parser.rs:358-450 | every decoded body comes from delimited chunks that cover exactly the bytes consumed, within the limit |
| ChunkCodec.DecodesIff | src/http/parser.rs:358-500 | a body is decoded if and only if the buffer starts with an encoding of it and it is within the limit |
| ChunkCodec.PrintedSizeLine | src/http/parser.rs:453-474 | a hexadecimal size with any extension is read as that size |
| ChunkCodec.PrintedTrailer | src/http/parser.rs:389-410 | any non-empty trailer lines and a blank line end the body where they end |
| Printer.HeadRead | src/http/parser.rs:170-240 | the head printed from a verb, a path, an optional query and headers is found and read as these very parts, or refused for its length, whatever follows |
| Printer.ParseOfPrint | src/http/parser.rs:255-339 | a request printed from its parts (no body, Content-Length or chunked) is read as these very parts and of exactly its length, or refused by the limit it breaks |
| Printer.VerbRead | src/http/request.rs:12-18 | the names of the three verbs are read as these verbs, and any other token as itself |
| Printer.TargetIff | src/http/parser.rs:170-240 | a target is a path, up to the first question mark, and what follows it as query |
| HeadGrammar.HeadIff | src/http/parser.rs:170-240 | a head is completed exactly if the first blank line is no further in than 32 KiB and the text in front of it spells that head by the grammar |
| HeadGrammar.HeadTextIff | src/http/parser.rs:188-240 | a text is read as a head exactly if it is UTF-8, a request line of verb, target and version, and fields, with one Host and at most one kind of framing |
| HeadGrammar.FieldsIff | src/http/parser.rs:209-219 | the headers are exactly those the non-empty lines spell: a token, a colon, a value with any blanks around it |
| HeadGrammar.FramingIff | src/http/parser.rs:647-790 | accepted framing is none, lengths that all agree, or the chunked coding alone, and never two kinds |
| HeadGrammar.SizeAnyCase | src/http/parser.rs:453-474 | a chunk size is read from hexadecimal digits in either case |
| HeadGrammar.TokenIff | src/http/parser.rs:825-850 | a token is made of any visible characters but the delimiters of section 3.2.6 of RFC 7230 |
| Unicode.Utf8Iff | src/http/parser.rs:188-192 | text is accepted exactly if it encodes a sequence of Unicode scalar values |
| Unicode.SpaceIff | src/http/parser.rs:453-474 | trimming begins exactly with the code points that have the Unicode property White_Space |
| HeadGrammar.FieldTextIff | src/http/parser.rs:573-640 | a field value is made of visible characters, blanks and bytes beyond ASCII |
| HeadGrammar.TargetTextIff | src/http/parser.rs:502-570 | a target is made of visible characters and bytes beyond ASCII |
| Pipeline.DrainAppend | src/server/event_loop.rs:575-647 | while nothing failed, reading on from the rest equals having read everything at once |
| Pipeline.DrainPrefix | src/server/event_loop.rs:585-647 | a read that ends early either fails for good or leaves a rest that awaits more bytes |
| Pipeline.CompleteSuffices | src/http/parser.rs:255-339 | the verdict on a complete request depends only on its own bytes |
| Pipeline.SegmentationIff | src/server/event_loop.rs:575-647 | every way of cutting a stream into reads gives the same result exactly when no head ends within three bytes of the limit |
| Pipeline.DrainOfPrints | src/server/event_loop.rs:585-647 | a printed list of requests is read as exactly that list, with nothing left over, and has no head that near the limit |
| Pipeline.RoundTrip | src/server/event_loop.rs:575-647 | the same for every way of cutting it into reads |
| Pipeline.ReadLoop | src/server/event_loop.rs:585-647 | the inner loop over the buffer computes what the pipeline results are about |
| StreamWitnesses.CutMatters | src/http/parser.rs:170-187 | a well-formed request that is read in one piece and refused as too large in two |
| Calendar.CivilSuccessor | src/http/response.rs:67-101 | day 0 is 1970-01-01, every result is a date, and the next day count gives the Gregorian successor |
| Calendar.YearFound | src/http/response.rs:77-88 | the division formula finds the year of the era, so no unsigned subtraction underflows |
| Calendar.DayNumberOfCivil | src/http/response.rs:67-101 | counting the days of the resulting date gives the day count back, for every integer |
| Calendar.CivilOfDayNumber | src/http/response.rs:67-101 | every date is the result for its own day count |
| Calendar.YearRange | src/http/response.rs:67-101 | years stay between 1970 and 9999 for the day counts up to the end of year 9999 |
| HttpDate.RoundTrip | src/http/response.rs:16-61 | reading the written date (section 7.1.1.1 of RFC 7231), weekday included, gives the second back, up to the end of year 9999 |
| HttpDate.WeekdaysFollow | src/http/response.rs:22-40 | weekdays follow one another from Thursday, 1 January 1970 |
| Response.ToBytes | src/http/response.rs:240-329 | the buffer built step by step is the status line, all headers with the missing ones added, and the body |
| Response.NeverEmpty | src/http/response.rs:240-329 | a response is never empty, which the wakeup result relies on |
| Response.HeadersSent | src/http/response.rs:240-329 | a response has the supplied headers and, only where missing, one length that is its body's, one server name, and one date that reads back as the second it was written in |
| Response.SelfDelimitingIff | src/http/response.rs:240-329 | for headers that stay on their lines, a client that follows section 3.3.3 of RFC 7230 reads a response back from the front of any stream exactly when it has no body if it is a 204, a 304, informational or for a HEAD, and otherwise no Transfer-Encoding and only Content-Lengths equal to the length of its body |
| Response.StreamSplits | src/http/response.rs:240-329 | a concatenation of such responses, read by that client in the order of its requests, splits back into status, headers and body of each |
| ResponseWitnesses.CodingMisread | src/server/event_loop.rs:1662-1684 | a plain body behind a Transfer-Encoding header that a script supplied is misread |
| ResponseWitnesses.LengthMisread | src/http/response.rs:240-329 | so is a body behind a wrong Content-Length |
| ResponseWitnesses.LengthsMisread | src/server/event_loop.rs:1662-1684 | so is a body behind a right Content-Length and a different one |
| ResponseWitnesses.BodiesMisread | src/http/response.rs:240-329 | so is a 204 with a body, and the answer to a HEAD request with a body |
| LoopInvariants.IngestOk | src/server/event_loop.rs:567-647 | new bytes keep a connection's books: the requests parsed are those of the whole stream received |
| LoopInvariants.AnsweredOk | src/server/event_loop.rs:1491-1510 | answering the next request keeps the order of answers and the bytes owed |
| LoopInvariants.DeliveredOk | src/server/event_loop.rs:1404-1422 | the answer of a finished CGI is the one that was outstanding |
| LoopInvariants.AdvancedOk | src/server/event_loop.rs:819-863 | a partial write moves exactly the written bytes from pending to sent |
| LoopInvariants.NoticeOk | src/server/event_loop.rs:714-744 | a 400, 413 or 408 leaves the order of answers alone |
| LoopInvariants.ReleaseKeeps | src/server/event_loop.rs:1316-1371 | ending a process keeps every table consistent but for its client, which is still to be told |
| LoopInvariants.RemoveKeeps | src/server/event_loop.rs:1550-1610 | removing a connection takes its process along and keeps every table consistent |
| LoopInvariants.SpawnKeeps | src/server/event_loop.rs:941-1107 | starting a CGI keeps every table consistent on all its failure paths; the connection then waits, or the 500 page for that request is the one item added to its stream |
| LoopHandlers.ProcessGood | src/server/event_loop.rs:1465-1548 | draining the queue keeps the invariant and leaves the connection armed and not stalled |
| LoopHandlers.FinishGood | src/server/event_loop.rs:1311-1429 | finishing a process keeps the invariant |
| LoopEvents.ListenerGood | src/server/event_loop.rs:441-536 | an accept keeps the invariant and the cap on connections, even if registering fails |
| LoopEvents.ReadableGood | src/server/event_loop.rs:538-775 | a client read keeps the invariant, whatever was read and also if the connection goes meanwhile |
| LoopEvents.WritableGood | src/server/event_loop.rs:777-904 | a client write keeps the invariant for every count written |
| LoopEvents.StdoutGood | src/server/event_loop.rs:1113-1147 | a read from a CGI keeps the invariant, in which an answer records why its process was given up |
| LoopEvents.StdinGood | src/server/event_loop.rs:1150-1218 | a write to a CGI keeps the invariant |
| LoopRuns.HandleGood | src/server/event_loop.rs:333-436 | one event, however stale, keeps the invariant |
| LoopRuns.FinishAllGood | src/server/event_loop.rs:1223-1237 | ending the overdue processes leaves none overdue, although finishing one may start others |
| LoopRuns.ReapFamilies | src/server/event_loop.rs:1300-1304 | retrying the pending pids keeps exactly the running children, each in one place |
| LoopRuns.SweepGood | src/server/event_loop.rs:270-288 | after the sweeps the invariant holds and no process is past its time |
| LoopRuns.TickGood | src/server/event_loop.rs:266-439 | a tick keeps the invariant, and no process gets older than the timeout plus the wait cap |
| LoopRuns.RunGood | src/server/event_loop.rs:258-439 | so does every run |
| LoopResults.ResponsesInOrder | src/server/event_loop.rs:567-746 | in every reachable state: parsed = dispatched ++ queued; answered = dispatched, less the last one while the CGI it asked for works on it; every reply is what `handle_request` gave for that request or, where it asked for a CGI, the 500 if none was started, and else what the process that worked for that request amounts to: the page made of exactly what was read from it up to its end, and the 500 only if reading failed, it ran for over ten seconds, or it wrote nothing and did not exit with 0; every other item is a 408 page or, after a parse error, a 400 or 413 page |
| LoopResults.BytesConserved | src/server/connection.rs:112-162 | in every reachable state: bytes sent ++ bytes pending = all bytes ever queued |
| LoopResults.StdinConserved | src/server/event_loop.rs:1150-1218 | bytes given to a CGI ++ bytes remaining = the request body, and stdin is open only while some remain |
| LoopResults.OutputConserved | src/server/event_loop.rs:1113-1147 | the output of a CGI = everything read from its stdout, piece by piece |
| LoopResults.StdinOpenIff | src/server/event_loop.rs:1017-1218 | where registrations and writes succeed, a CGI has its stdin open exactly as long as some of the request body is still to be given to it |
| LoopOutcomes.StdinFed | src/server/event_loop.rs:1150-1196 | a writable stdin is given the next bytes of the request body, as many as the kernel takes, and is closed exactly when all are given |
| LoopOutcomes.OutputGrows | src/server/event_loop.rs:1113-1132 | what a CGI writes is kept behind what it wrote before |
| LoopOutcomes.EndAnswered | src/server/event_loop.rs:1132-1134 | the end of a CGI stdout puts the page made of all its output next on the stream of the instance that asked, and the 500 only if it wrote nothing and exited with something else than 0 |
| LoopResults.KilledIff | src/server/event_loop.rs:1316-1371 | no running CGI has been killed; a child still to be reaped has been killed unless its stdout had come to its end |
| LoopResults.UnwatchedKilled | src/server/event_loop.rs:1062-1097 | a child whose stdout cannot be registered is killed |
| LoopEndings.AllReaped | src/server/event_loop.rs:1296-1304 | once children exit, the next sweeps leave none to be reaped |
| LoopResults.ConnectionsBounded | src/server/event_loop.rs:456-458 | never more connections than the cap; instances are told apart when descriptors are reused |
| LoopResults.AcceptIff | src/server/event_loop.rs:441-536 | a socket becomes a connection exactly if it is below the cap, accepted and registered; otherwise nothing stays open |
| LoopResults.ClosingIff | src/server/event_loop.rs:714-744 | a connection is to be closed exactly if a 400, 413 or 408 was put on its stream |
| LoopClosing.ClosesIff | src/server/event_loop.rs:333-437 | an event closes a connection exactly if it is an error or a mere hangup on it, a write that fails or that completes behind a notice, a read that fails or finds the end, or if after it the interest in the connection cannot be changed |
| LoopResults.CgiLinkage | src/server/event_loop.rs:1011-1106 | every process has a live, waiting client, the very instance that asked, and every waiting connection has exactly one process |
| LoopResults.DescriptorsOwned | src/server/event_loop.rs:131-144 | the descriptor tables are disjoint, the pipe tables inverse, exactly their descriptors watched; nothing is closed twice, killed or waited for after it was reaped |
| LoopResults.NoLeakIff | src/net/process.rs:47-178 | every open descriptor has an owner if and only if no stdout registration ever failed and `spawn_cgi` never failed between opening its pipes and forking |
| LoopResults.ChildrenConserved | src/server/event_loop.rs:1300-1371 | pids of processes and pids to be reaped are distinct, and are all unreaped children if and only if no stdout registration ever failed and `spawn_cgi` never failed after forking |
| LoopResults.NothingLost | src/server/event_loop.rs:1062-1106 | where registrations succeed and a failing `spawn_cgi` cleans up, nothing is ever lost |
| LoopResults.LosesIff | src/server/event_loop.rs:941-1107 | what starting a CGI loses: the stdout and the pid of a child whose stdout registration is the call that fails, the pipes or the child that `spawn_cgi` left behind, and nothing in all other cases |
| LoopResults.NoLostWakeup | src/server/event_loop.rs:838-886 | where re-arming succeeds, every connection waits for writability exactly while it has bytes to write, and for input otherwise |
| LoopResults.QueuesMove | src/server/event_loop.rs:1404-1532 | requests wait only behind a running CGI, or when the last answer on the stream is the 500 for the request dispatched last, which asked for a CGI that was refused |
| LoopResults.QueuesEmpty | src/server/event_loop.rs:1465-1548 | where no request is for a CGI, no request is ever left in a queue |
| LoopQueues.QueuesServed | src/server/event_loop.rs:1404-1548 | in every run in which no queue is drained up to a refused CGI with requests behind it, a connection with queued requests waits for a running CGI |
| LoopQueues.AllAnswered | src/server/event_loop.rs:567-746 | after such a run, a client that has sent all its requests has the answers to all of them, sent or pending, once no CGI runs for it |
| LoopResults.StallIff | src/server/event_loop.rs:1471-1532 | draining stops with requests left and no CGI running exactly when the first CGI request, not being the last, is refused |
| LoopResults.WaitIff | src/server/event_loop.rs:1471-1532 | draining ends with waiting for a CGI exactly when the first CGI request in the queue is not refused |
| LoopResults.OutcomeReachesAsker | src/server/event_loop.rs:1311-1429 | the outcome of a process goes right behind what was queued on the instance that asked, as the answer to its request, and to no other connection; it is the one that befits the cause |
| LoopResults.HangupsClose | src/server/event_loop.rs:391-437 | an error, or a hangup with nothing to read or write, ends exactly that connection and its process, and its descriptor is closed |
| LoopIdle.IdleSweepOutcome | src/server/event_loop.rs:1253-1294 | exactly the idle connections that wait for no CGI are affected: the 408 page and closing if part of a request was read, closing otherwise |
| LoopActivity.IdleAfterTenSeconds | src/server/event_loop.rs:1239-1294 | after an accept, a read or a write on a connection every idle sweep of the next ten seconds leaves it alone, whatever happens; and every later one finds it idle if nothing more is read or written and it waits for no CGI |
| LoopIdle.OthersUndisturbed | src/server/event_loop.rs:1223-1237 | ending one process leaves the other processes and their clients alone |
| LoopIdle.AnswerLostIff | src/server/event_loop.rs:1239-1294 | a client whose CGI timed out, whatever else it has queued: the sweeps of the next tick close its connection exactly if it cannot be re-armed once its queue is drained, or the idle sweep is due, the client was silent for the idle timeout, has sent no part of a request, and no queued request makes it wait again; otherwise the 500 page for the request is on its stream |
| LoopNotices.NoticeOvertakesIff | src/server/event_loop.rs:567-746 | while a CGI is outstanding, newly read data closes a connection that has bytes pending and cannot be re-armed; otherwise it puts a 400 or 413 page in front of the answer, and marks the connection for closing, exactly when it does not parse, and else adds nothing to the stream |
| LoopNotices.AnswerStillGoesOutIff | src/server/event_loop.rs:266-1237 | after that, over all ticks, an answer still gets onto the stream exactly when the end of the CGI is found, by an event or by the timeout sweep, before an event that writes the last pending byte or finds the connection broken, and the connection can then be re-armed |
| LoopQuiet.HandleElsewhere | src/server/event_loop.rs:333-436 | an event on a descriptor that is neither a connection nor the stdout of its CGI leaves that connection as it was |
| LoopQuiet.TimeoutsCounted | src/server/event_loop.rs:270-294 | over any ticks without an event for it, a connection that has sent part of a request gets one 408 page for each idle sweep that comes a timeout or more after its last activity, and nothing else |
| LoopQuiet.AtMostOneIff | src/server/event_loop.rs:1239-1294 | so it gets at most one exactly if the last of the ticks begins less than a sweep interval after the one that begins with the first |
| LoopQuiet.OnlyReadsWake | src/server/event_loop.rs:1465-1548 | in every run in which nothing is read from it a connection that waits for no CGI keeps its queue, for as long as it is there |
| LoopEndings.CgiDeadline | src/server/event_loop.rs:266-328 | with instantaneous handlers and punctual waits no process is ever older than 11 seconds, whatever timeout is passed to a tick |
| LoopEndings.WaitAtMostASecond | src/server/event_loop.rs:290-328 | waits are as long as asked, but at most a second while a connection, a process or a child to be reaped is there |
| LoopEndings.RequestsArrive | src/server/event_loop.rs:575-647 | a client that sends a prefix of a list of well-formed requests is never rejected, and the requests parsed are a prefix of that list |
| LoopEndings.EndToEnd | src/server/event_loop.rs:567-746 | the bytes sent and pending are the answers, each what `handle_request` or the CGI it asked for made of its request, to a prefix of the requests the client sent, in order, and 408 pages; the answers to all of them, once all is sent and no CGI is running, unless the last answer is the 500 for a refused CGI |
| LoopClient.ClientRecovers | src/http/response.rs:240-329 | where replies delimit themselves, a client that follows section 3.3.3 of RFC 7230 and sends no HEAD reads these answers and 408s off the bytes one by one, for the same requests in the same order |
| LoopEndings.ShutdownReleases | src/server/event_loop.rs:1707-1740 | dropping the loop closes everything but what was lost, and leaves unreaped only pids pending or lost |
| LoopWitnesses.StallHappens | src/server/event_loop.rs:1529-1532 | a concrete run that leaves a request queued, and in no continuation without a read of that connection is it taken out |
| LoopWitnesses.LeaksHappen | src/net/process.rs:67-171 | three concrete runs that leave descriptors open, or a child unreaped, after the loop is dropped |
| LoopWitnesses.CgiRuns | src/server/event_loop.rs:941-1107 | a concrete run to a state in which a connection waits for a running CGI |
| LoopWitnesses.NoticeHappens | src/server/event_loop.rs:714-744 | a concrete run in which a 400 overtakes the answer of a CGI, and the connection and the CGI are gone once it is written |
| LoopWitnesses.TimeoutsHappen | src/server/event_loop.rs:1253-1294 | for every number, a concrete run in which that many 408s are queued for a client that sent a request and one byte of another and stopped reading in the middle of the answer |
| LoopWitnesses.AnswerLossHappens | src/server/event_loop.rs:1239-1294 | a concrete run in which a request gets no answer because its CGI timed out |
| EventLoop.Connection.constructor | src/server/connection.rs:65-109 | a fresh connection |
| EventLoop.Connection.QueueWrite | src/server/connection.rs:135-150 | the write buffer after queueing: replaced if all of it was written, else extended |
| EventLoop.Connection.QueueWriteAndClose | src/server/connection.rs:152-162 | the same, and the connection closes once it is written |
| EventLoop.Connection.PopAllAndPushBack | src/server/event_loop.rs:655-702 | taking all requests out and pushing them back in reverse changes nothing |
| EventLoop.Connection.Ingest | src/server/event_loop.rs:567-647 | the buffer, queue and failure after one read, by the program's loop over the buffer |
| EventLoop.Open | src/server/event_loop.rs:183-244 | the loop with every listener registered, or nothing if and only if a registration fails |
| EventLoop.EventLoop.Release | src/server/event_loop.rs:1316-1371 | the statements that end a process do the step of the model |
| EventLoop.EventLoop.RemoveConnection | src/server/event_loop.rs:1550-1610 | so do those that remove a connection, with the loop over orphaned processes |
| EventLoop.EventLoop.QueueResponseNow | src/server/event_loop.rs:1435-1449 | the response is queued and the interest re-armed, a failure ignored |
| EventLoop.EventLoop.OpenStdin | src/server/event_loop.rs:1017-1060 | the three ways of dealing with a child's stdin |
| EventLoop.EventLoop.WatchStdout | src/server/event_loop.rs:1062-1106 | registering stdout and recording the process, or giving up and answering 500 |
| EventLoop.EventLoop.SpawnCgi | src/server/event_loop.rs:941-1107 | starting a CGI as the program does it is the model's step |
| EventLoop.EventLoop.Dispatch | src/server/event_loop.rs:1471-1532 | the dispatch loop, with its breaks, is the model's recursion |
| EventLoop.EventLoop.ProcessQueued | src/server/event_loop.rs:1465-1548 | draining and re-arming, removing the connection if that fails |
| EventLoop.EventLoop.FinishCgi | src/server/event_loop.rs:1311-1429 | exit status and output decide the response, which is delivered before the queue goes on |
| EventLoop.EventLoop.HandleListenerEvent | src/server/event_loop.rs:441-536 | one accept below the cap, the socket registered and recorded or closed |
| EventLoop.EventLoop.HandleClientReadable | src/server/event_loop.rs:538-775 | one read, its requests queued and drained, a malformed request rejected |
| EventLoop.EventLoop.HandleClientWritable | src/server/event_loop.rs:777-904 | one write, then waiting, closing or back to reading |
| EventLoop.EventLoop.HandleCgiStdoutReadable | src/server/event_loop.rs:1113-1147 | one read from a CGI, its end finishing the process |
| EventLoop.EventLoop.CloseCgiStdin | src/server/event_loop.rs:1198-1218 | both tables and the kernel after closing a stdin |
| EventLoop.EventLoop.HandleCgiStdinWritable | src/server/event_loop.rs:1150-1196 | one write to a CGI, its stdin closed when all is written or writing fails |
| EventLoop.EventLoop.SweepCgiTimeouts | src/server/event_loop.rs:1223-1237 | the loop over the overdue processes collected beforehand |
| EventLoop.EventLoop.SweepPendingReaps | src/server/event_loop.rs:1300-1304 | one try for every pending pid |
| EventLoop.EventLoop.SweepIdleConnections | src/server/event_loop.rs:1253-1294 | the loop over the idle connections collected beforehand |
| EventLoop.SessionSweep.SweepIfDue | src/server/event_loop.rs:270-276 | exactly the live sessions stay, once a minute |
| EventLoop.EventLoop.Handle | src/server/event_loop.rs:333-436 | which handler an event goes to |
| EventLoop.EventLoop.Tick | src/server/event_loop.rs:266-439 | the session sweep if it is due, the other sweeps, the bound on the wait, and the loop over the copied events, of which there are none if the wait fails |
| EventLoop.EventLoop.Run | src/server/event_loop.rs:258-264 | tick after tick |
| EventLoop.EventLoop.Drop | src/server/event_loop.rs:1707-1740 | dropping the loop |
| EventLoop.Serve | src/server/event_loop.rs:168-264 | a loop that could be opened, run for any ticks, is in a reachable state, so all the results above hold of its objects |
| Sessions.SessionStore.Touch | src/server/session.rs:125-141 | a live session is refreshed, an expired one removed, and which it was |
| Sessions.SessionStore.Create | src/server/session.rs:144-156 | a new session under the generated id |
| Sessions.SessionStore.SweepExpired | src/server/session.rs:159-163 | exactly the live sessions stay |
| Sessions.SessionStore.ResolveSession | src/server/http_handler.rs:170-203 | the session a request belongs to and its counter, kept as text |
| Sessions.SweepsInvisible | src/server/session.rs:125-163 | against monotone clocks, runs that differ only in their sweeps tell every request the same |
| Sessions.VisitsCounted | src/server/http_handler.rs:170-203 | the k-th request resolved to a session is told k, and is new exactly if k is 1 |
| Sessions.GeneratedIsId | src/server/session.rs:31-82 | every id generated from 16 bytes is recognised in a cookie |
| Sessions.IdsDiffer | src/server/session.rs:45-82 | different random bytes give different ids |
| Sessions.ResolvedIff | src/server/session.rs:125-141 | a stored session is found exactly within thirty minutes of its last access |
| Sessions.FoundAgain | src/server/http_handler.rs:170-203 | a client that comes back with its id, while others come and go, is told one visit more exactly if it comes within thirty minutes |
| Configuration.AddNames | src/config/validation.rs:89-115 | the loop over names rejects empty, repeated and taken ones and nothing else |
| Configuration.AddPorts | src/config/validation.rs:53-120 | the loop over ports rejects zero, repeated ports and clashes with recorded listeners and nothing else, and records its own |
| Configuration.CheckRoutes | src/config/validation.rs:133-151 | the loop over routes rejects bad and repeated ones and nothing else |
| Configuration.PageIff | src/config/validation.rs:157-192 | an error page may be given exactly for the statuses from 400 to 599 |
| Configuration.FitsIffPairs | src/config/validation.rs:63-115 | the two running tables reject exactly the servers that clash with an earlier one |
| Configuration.ValidateConfig | src/config/validation.rs:13-155 | a configuration is accepted if and only if every server is valid and no two on one address and port clash |
| Routing.MatchesIffCovers | src/server/routing.rs:103-126 | matching is by whole path segments |
| Routing.SelectRouteIsBest | src/server/routing.rs:92-101 | with valid routes the selection is the only longest match, or nothing matches |
| Routing.SelectRoutePermuted | src/server/routing.rs:92-101 | the order of valid routes does not matter |
| Routing.SelectServerServes | src/server/routing.rs:24-56 | if a server there carries the requested name, one that does is selected |
| Routing.NamedIff | src/server/routing.rs:74-85 | a host is matched by its name in any case, with or without a port behind it |
| Routing.LastPortStripped | src/server/routing.rs:74-85 | of the colons in a host only the last one introduces a port |
| Routing.PortIgnored | src/server/routing.rs:24-85 | the port in a Host header makes no difference to the selection |
| Routing.SelectServerIsFirst | src/server/routing.rs:24-56 | the first server bound there that carries the name is selected; without one, or without a name, the first bound there |
| Routing.OneNamePerListener | src/server/routing.rs:40-52 | in a valid configuration at most one server on an address and port carries a name |
| Routing.OnlyWildcardsClash | src/server/routing.rs:58-72 | two servers answer for one name only if one is on the wildcard address and one on the very address |
| Routing.OrderFreeIff | src/server/routing.rs:24-56 | the choice by name is independent of the order of servers exactly when only one answers for the name |
| Routing.AmbiguityHappens | src/server/routing.rs:58-72 | a valid configuration, with a server on 127.0.0.1 and one on the wildcard address, for which it is not |

## Left out

- System calls, sockets, pipes, `fork` and `exec` (src/net): only their possible outcomes, as a `World`, and the kernel state they change; `Epoll::new` is taken to succeed.  A run may go on after a tick whose wait failed, where the program returns.
- `handle_request` as a whole: an arbitrary function of the request and the call number that gives a non-empty response or asks for a CGI.  Sessions, routing and server selection inside it are modelled apart; static files, error pages, cookies, MIME types and the CGI environment are not.
- `build_cgi_response`: the answer built from CGI output is an arbitrary non-empty response; that it looks for two line feeds before two line ends is therefore not visible.
- The sessions in the loop's objects change only by the sweep of `tick`, since `handle_request` is not modelled as a whole; what requests do to them is proved of the store (Sessions).
- `queue_response` is used nowhere in the program and is not modelled; nor are `ConnState` and `CgiState`, which decide nothing.
- Reads return any number of bytes, not at most the 16 KiB of the program's buffer.
- Clocks are milliseconds of one monotone clock that stands still inside a handler; the session store's clock likewise.
- Session ids: the generated id is a parameter, assumed new where visits are counted.
- IPv4 parsing, TOML loading, error message texts and the order in which an invalid configuration's errors are reported: only acceptance is modelled.
- CgiProcess: kept as values in the table that the loop reassigns, not as objects; the program never shares one.
- LoopResults.NoLostWakeup: assumes that `epoll.modify` succeeds on watched descriptors, because the program ignores its failure when it queues a response.
- Response.SelfDelimitingIff: is for requests other than CONNECT, which the program does not tunnel.
- LoopEndings.CgiDeadline: assumes that the kernel returns from a wait no later than asked.
- Sessions.VisitsCounted: is for at most 2^64 - 1 steps, where the 64-bit counter does not overflow.
