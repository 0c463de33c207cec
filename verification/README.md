# FastPySGI connection engine: a Dafny model

FastPySGI is an HTTP/1.1 server for WSGI and ASGI applications, written in C on top of libuv, llhttp and
CPython. This project models the per-connection engine and proves what it guarantees over whole runs:
which requests an application sees, which bytes a client gets, when buffers and items are given back, and
that requests and responses keep their order.

The model follows the form of the source. The state of a connection (`client_t`), a growable buffer, an
`io.BytesIO`, an ASGI sender and a TLS session are classes whose methods update the same fields in the same
order as the C functions; in-place loops work on arrays. Each method is proved against a description that
does not share its shape (a decoder, a parser, a byte-by-byte reading of the input), and the theorems are
about those descriptions.

## Modules

| file | part of the server |
|---|---|
| `Bytes.dfy` | byte strings, character helpers |
| `Xbuf.dfy` | the growable buffer, ownership by the parity of its capacity, the allocator |
| `BytesIO.dfy`, `RequestBody.dfy` | the hand-written `io.BytesIO` write path; the request body stream that is kept across requests |
| `UriDecode.dfy`, `Unicode.dfy` | in-place percent-decoding of paths; when bytes are UTF-8 |
| `Chunked.dfy` | a decoder for section 7.1 of RFC 9112 and the framing bytes the server prints |
| `Head.dfy` | printing a response head, and a parser for it |
| `Wsgi.dfy`, `WsgiWire.dfy` | a WSGI response from the application's return to its last write; what a client makes of its bytes |
| `Asgi.dfy` | an ASGI response, event by event |
| `Tls.dfy` | encrypting, draining and decrypting through the BIOs |
| `Request.dfy`, `Llhttp.dfy` | the parser callbacks on fragments; the parser as a machine over bytes, and `llhttp_execute` |
| `Environ.dfy` | what a whole request, and a stream of requests, amounts to for the application |
| `Exchange.dfy` | why each response of a connection is made, what is written for it and what it leaves behind |
| `Connection.dfy` | the receive buffer, freezing of reads, pipelining, the exchange of requests and responses, timers |
| `ClientView.dfy` | a reader of HTTP responses, and what it reads from such a connection |
| `Answer.dfy` | what the application's response is to that reader, told by the items, headers and lengths the application gave |
| `Cases.dfy` | concrete runs on which requests and responses do not match |

## How the surroundings are modelled

- llhttp is any deterministic machine over bytes that reports the elements of a message in their order and
  ends a message with the last report of a byte (`Llhttp.Ordered`). A fragment is what was collected of an
  element up to the next report or the end of the buffer.
- libuv is the order in which the callbacks are called and the status it passes to them; every such order is
  covered. The model of a connection ends when it is shut down or closed.
- A WSGI application is any object (bytes, generator, iterator, iterable, or none of these) that yields any
  items, some of which may be no bytes or an exception. A call that raises is answered like an object that is
  not iterable. Whether its first item looks like a file read is a parameter. `close` is taken to exist
  on every iterator and not to raise. `Connection` asks an arbitrary function of the messages so far for the next
  answer.
- The SSL layer takes any part of what it is offered and emits any records for it; which of the calls to it, to the
  BIO and to the allocator fail is an arbitrary function of their number.
- The status line of a response and the value of the Date header are parameters; so is the clock. The line is one that
  states the status (`Head.StatusStated`). In `Exchange` the date is a function of the number of the response, and the
  text of the server's own responses one of everything that led to them.

## What came out

Most properties hold as the repository intends. Of the following, those that hold only on a condition have it
proved exactly.

- An ASGI response of several parts is framed correctly if and only if some part is not empty and every
  part is shorter than 2 GiB (`Asgi.AsgiRun`). With only empty parts the wire ends in `0` CRLF, and a part
  whose size is not positive as a C `int` is announced as the last chunk.
- A chunked WSGI response decodes to the application's bytes if and only if the iterator does not break
  while it is streamed and no item is 4 GiB or longer (`WsgiWire.ChunkedRun`). A client takes one that was cut
  off behind any byte, or broke, for a whole body if and only if an item among these bytes has a length divisible
  by 4 GiB, whose size line reads 0 (`WsgiWire.ChunkedCut`); without items of 4 GiB or more it never does
  (`WsgiWire.NeverMistaken`).
- A body shorter than the Content-Length the application declared is not noticed: when all writes succeed the
  connection is kept and the wait for the next request is not timed (`WsgiWire.LengthRun`,
  `Wsgi.Client.Exchange`). A longer one is noticed when it overshoots while being streamed, and then the
  connection is closed.
- A client that reads the responses of a connection one after the other gets the reply to each cause where it was
  written if and only if each of them has no body where none is expected, or ends complete without an item of 4 GiB or
  more (`ClientView.WhatTheClientReads`, `ClientView.ResponseRead`); on a connection that is kept only a short body,
  such an item, or a body behind a status below 200 is in the way: the server sends one there, and clients expect none
  (`ClientView.ClearWhenKept`). This takes headers that keep to their lines and no
  Transfer-Encoding of the application's. Behind a short body the client takes the missing bytes from the next
  response (`ClientView.ShortSwallows`, `Cases.ShortBody`).
- When libuv refuses the server's own response to a request that cannot be served and that would keep the
  connection, the refusal is dropped: nothing is on its way, nothing is read, no timer is started, and the connection
  is stuck. That happens if and only if the first write is refused, the application's response cannot be sent and
  keep-alive is on (`Wsgi.Client.Exchange`). Every other refused write closes the connection.
- With a root_path only a request for that very path is served; every path below it gets 404, because the paths are
  compared over the whole length of the request's (`Request.Parsing.SetPath`).
- `close` is called exactly once on a body that is its own iterator and never on any other body, although an
  iterable may have one (`Wsgi.Client.Exchange`).
- A body of at most 48 items that does not look like a file, does not break and is no longer than declared is always
  announced with its own size, whatever length the application declared (`Answer.WholeBodySent`). In general the length
  told is that of a body whose end is seen before anything is sent, and otherwise the one declared, or else the body is
  chunked (`Answer.DecidedIs`).
- Input that cannot be parsed is answered with the status of the first rule it breaks, and a request that is not served
  is one whose fate says so (`Environ.WhatIsSentIsSeen`, `Environ.BadRequestAnswered`). There are two exceptions. The
  parser does not call back for the bytes in front of invalid input, so a target or value that is too long and runs
  into invalid input within one buffer is answered with 400 instead of 414 or 431. And invalid input between two
  messages is answered with the error left over from the response before, if there is one
  (`Connection.Connection.ReadCb`, `Environ.InvalidAnswered`).
- A Transfer-Encoding header of the application's is passed on, so a response says how it is framed exactly
  once if and only if the application gives none (`Head.OneFraming`).
- Percent-decoding undoes percent-encoding if and only if no escape stands for a byte below 0x20, for 0xFF or
  for `/` (`UriDecode.DecodeUndoesEncoding`). A path is refused with 400 if and only if it has a backslash, is not
  written with proper escapes, or, without a root_path, does not stand for UTF-8 (`Environ.PathRefused`). The refusal of
  an escaped CR after LF cannot be reached with the check level in use (`UriDecode.PrevIrrelevant`).
- The limit on header names depends on how a name is cut into fragments for names of 32763 to 32767 bytes,
  and for no others, because the prefix `HTTP_` is not counted before the first fragment
  (`Request.NameLimit`). Segmentation independence is proved for streams without a name of 32763 bytes or more.
- The k-th response on a connection answers the k-th message exactly while no response up to it was made without
  a message (`Exchange.PositionOf`, `Connection.Connection.SerialExchange`). One is made without a message, and
  the connection kept, if and only if an error is left over between two messages and the bytes that come begin
  none, such as a CR LF between requests (`Connection.Connection.ReadCb`). An error is left over if and only if
  some message was a refused expectation or had a body that broke before it was sent, and every response since
  was made for that error (`Exchange.LeftoverHasSource`, `Exchange.LeavesIs`); the response says 417 or 400 accordingly
  (`Exchange.StaleStatus`).
  `Cases.RefusalThenLineEnd` is such a case, from the first byte of a connection on: one refused expectation, a CR LF,
  two responses.
- How a stream is cut into reads does not matter once a connection has nothing more to do: the application gets the
  messages of the stream up to the first after which the connection is not kept
  (`Connection.WhatTheAppGets`, `Connection.SegmentationIndependent`).
- The response to a message depends on whether more bytes were received behind it if and only if it is the
  application's response to a HEAD request and does not declare a length of 0 (`Exchange.BufferShows`).
- A response without a body (HEAD, 204, 304) that an ASGI application sends in several parts is one head whatever the
  parts are (`Asgi.Sender.SendAll`, `Asgi.Sender.BareResponse`); every part behind the head is a write of no bytes
  at all.
- The bytes copied by growing an `io.BytesIO` stay within 8 times its capacity, which is tighter than the 9 that
  the growth factor suggests (`BytesIO.WriteAll`).

## Model

| member | source | states |
|---|---|---|
| Xbuf.NewCapacity | fastwsgi/xbuf.h:16-25 | the new capacity is odd, holds the need, and fits a C int for every need up to 0x7FF7FFFF; below 1 MiB it is twice the need plus one |
| Xbuf.Xbuf.Resize | fastwsgi/xbuf.h:13-42 | contents survive growth, an old block is freed exactly when the buffer owned it, and a refused allocation changes nothing |
| Xbuf.Xbuf.Expand | fastwsgi/xbuf.h:44-54 | room for the need and 8 more; copying by growth stays below twice the largest need while needs are below 1 MiB |
| Xbuf.Xbuf.Init2 | fastwsgi/xbuf.h:81-89 | preallocated storage gets an even capacity, which marks it as not owned |
| Xbuf.Xbuf.Add | fastwsgi/xbuf.h:91-103 | contents are the old contents and the bytes, NUL-terminated; the blocks of others are untouched |
| Xbuf.Xbuf.Reset | fastwsgi/xbuf.h:112-118 | empties the buffer and keeps its storage |
| Xbuf.Xbuf.Clear | fastwsgi/xbuf.h:120-131 | frees an owned block once and a preallocated one never |
| BytesIO.Stream.Unshare | fastwsgi/pyhacks.c:77-93 | a shared buffer object is left as it is and replaced by a private copy |
| BytesIO.Stream.Resize | fastwsgi/pyhacks.c:95-133 | room above the end position, private storage, copying paid for by growth |
| BytesIO.Stream.Write | fastwsgi/pyhacks.c:140-179 | overwrite at the position, zero-fill a gap, extend; a buffer object that others hold is never changed; refused exactly when closed or exported |
| BytesIO.GrowthFactor | fastwsgi/pyhacks.c:102-120 | each reallocation made by a write grows the capacity by more than 9/8, above the end position |
| BytesIO.WriteAll | fastwsgi/pyhacks.c:140-179 | any run of writes is one overwrite with their concatenation, and growth has copied at most 8 times the capacity |
| BytesIO.OverwriteTwice | fastwsgi/pyhacks.c:160-178 | two overwrites, the second where the first ended, are one |
| BytesIO.OverwriteAt | fastwsgi/pyhacks.c:160-178 | byte for byte: what was written, else what was there, else zeros |
| RequestBody.Body.BeginMessage | fastwsgi/request.c:192-201 | a huge stream is dropped, any other is kept as it is |
| RequestBody.Body.OnBody | fastwsgi/request.c:628-684 | the fragment follows those before it; refused exactly when the limit is passed or the kept stream cannot take it |
| RequestBody.Body.CompleteMessage | fastwsgi/request.c:716-734 | the app gets exactly this request's bytes at position 0 |
| RequestBody.Body.Receive | fastwsgi/request.c:628-734 | a whole request after any number before it: nothing of an earlier, longer body is left, with the exact condition for success |
| UriDecode.DecodeInPlace | fastwsgi/common.c:184-221 | the loop that overwrites its input computes the pure decoder on the original bytes, code for code on failure, and leaves the bytes behind alone |
| UriDecode.DecodeCommutesWithSplit | fastwsgi/request.c:44-54 | decoding succeeds iff it does on every segment, and commutes with splitting at '/' |
| UriDecode.DecodeUndoesEncoding | fastwsgi/common.c:184-221 | decoding undoes any percent-encoding iff every escape is of a byte it gives back |
| UriDecode.DecodeShows | fastwsgi/common.c:184-221 | every proper encoding without an escaped control byte or 0xFF decodes to the bytes it stands for, an escaped '/' as it was written |
| UriDecode.DecodesIff | fastwsgi/common.c:184-221 | a path decodes iff it is such an encoding: malformed escapes are refused |
| Unicode.Utf8Iff | fastwsgi/request.c:83-84 | the check accepts exactly the encodings of sequences of scalar values (section 3 of RFC 3629) |
| UriDecode.EscapedSlashKept | fastwsgi/common.c:184-221 | an escaped '/' stays escaped, whatever the case of its digits |
| UriDecode.PrevIrrelevant | fastwsgi/common.c:205-213 | with a check level of 1 or more the byte before never matters |
| UriDecode.NoEscapes | fastwsgi/request.c:47-54 | a path without '%' is its own decoding, so skipping the call makes no difference |
| Chunked.ParsePrinted | fastwsgi/request.c:1037-1045 | a printed chunk size is read back, whatever follows |
| Chunked.DecodeFrames | fastwsgi/server.c:264-297 | non-empty chunks closed by the last chunk decode to their concatenation (section 7.1 of RFC 9112) |
| Chunked.DecodeUnfinished | fastwsgi/server.c:258-263 | chunks without the last one are never a body |
| Chunked.DecodeCut | fastwsgi/server.c:258-297 | any first bytes of some chunks are a body iff an empty chunk is whole in them |
| Head.AddHeaders | fastwsgi/request.c:947-1005 | the loop over the app's headers prints the kept ones in order and notices Date and Server |
| Head.BuildFields | fastwsgi/request.c:927-1028 | status line, the app's headers, then Date, Server and Connection where they are missing |
| Head.AddFraming | fastwsgi/request.c:1030-1072 | the header that says how the body ends, and the end of the head |
| Head.FramedText | fastwsgi/request.c:927-1072 | the two together are the whole head |
| Head.HeadRoundTrip | fastwsgi/request.c:890-1092 | parsing a printed head, whatever follows it, gives the app's headers in order and the server's own |
| Head.HeadTells | fastwsgi/request.c:890-1092 | a printed head is read as the app's headers but Content-Length and Connection, in order, name and value the app's (a Server value behind the server's own), then Date, Server, Connection and the framing |
| Head.FieldsTell | fastwsgi/request.c:947-1072 | the same for the fields alone |
| Head.StatusStated | fastwsgi/request.c:927-931 | the status is read back from the status line |
| Head.OneConnection | fastwsgi/request.c:1024-1028 | there is exactly one Connection header |
| Head.OneFraming | fastwsgi/request.c:1030-1072 | Content-Length and Transfer-Encoding together occur exactly once iff the app gives no Transfer-Encoding (section 6.3 of RFC 9112) |
| Head.FramingTold | fastwsgi/request.c:1030-1072 | two heads that differ at most in how the body ends are the same text iff it ends the same way |
| Head.CountAppFields | fastwsgi/request.c:973-1000 | the app's Content-Length and Connection are dropped and its other headers all kept |
| Head.ContentLengthRoundTrip | fastwsgi/request.c:1059-1072 | the Content-Length a client reads is the length announced |
| Wsgi.Client.ResetPreload | fastwsgi/request.c:208-219 | every reference in the preload is given back once |
| Wsgi.Client.ResetBody | fastwsgi/request.c:221-238 | nothing of a response is left, and a body that is its own iterator was closed |
| Wsgi.Client.PullChunk | fastwsgi/request.c:1145-1168 | the next non-empty item; every object the iterator gives is one reference taken, and those that are empty or no bytes are given back at once |
| Wsgi.Client.NextChunk | fastwsgi/request.c:1125-1169 | the next non-empty item, the waiting first item of a generator before the others; error 11 exactly when the iterator breaks |
| Wsgi.Client.PreloadRest | fastwsgi/request.c:1222-1250 | the loop preloads exactly as many items as the array and the chunk size of file reads allow |
| Wsgi.Client.BodyPreload | fastwsgi/request.c:1171-1276 | which bodies are refused, which get a Content-Length and which one, and which are chunked |
| Wsgi.Client.GetInfo | fastwsgi/request.c:1096-1123 | the length the headers declare is the last one, and any malformed one is an error |
| Wsgi.DeclaredDecimal | fastwsgi/request.c:1106-1119 | a decimal length is read back up to the largest int64_t, which is refused |
| Wsgi.Client.MakeIterator | fastwsgi/request.c:802-842 | what becomes the iterator for each kind of body; a generator is started first |
| Wsgi.Client.ProcessResponse | fastwsgi/request.c:792-867 | either the body is ready the way DecideFor says, or it is refused and everything is given back |
| Wsgi.Client.BuildResponse | fastwsgi/request.c:890-1092 | the head printed is the text of the right fields and framing; HEAD, 204 and 304 give the body back |
| Wsgi.Client.CreateResponse | fastwsgi/request.c:869-888 | the response has a head, or an error and nothing left |
| Wsgi.Client.FillBufs | fastwsgi/server.c:356-392 | the scatter list never exceeds its 51 entries and holds exactly the payload |
| Wsgi.Client.StreamWrite | fastwsgi/server.c:352-420 | one write of the payload, in state RESP_SEND; refused in that state |
| Wsgi.Client.SendItem | fastwsgi/server.c:283-297 | an item goes out as a chunk whose size line is its size, or bare |
| Wsgi.Client.SendLast | fastwsgi/server.c:268-277 | the last chunk goes out once |
| Wsgi.Client.CountWritten | fastwsgi/server.c:238-256 | the count of written bytes decides: overshoot is an error, equality ends the body and starts the wait for a request |
| Wsgi.Client.WriteCb | fastwsgi/server.c:223-349 | makes the next of the writes to come, or ends the response; closes exactly when it failed, broke, overshot or may not be kept |
| Wsgi.Client.CloseCb | fastwsgi/server.c:95-115 | whatever is left is given back and the body closed |
| Wsgi.Client.SendError | fastwsgi/server.c:436-452 | the error response, framed for a request of this method |
| Wsgi.Client.Respond | fastwsgi/server.c:673-720 | the app's response if it can be sent, the server's own otherwise, and the action that follows, also when libuv refuses the write |
| Wsgi.Client.Drain | fastwsgi/server.c:223-349 | over any order of write results and refusals: exactly how many of the writes to come are made, when the connection is kept, and when the wait for a request is timed |
| Wsgi.Client.Exchange | fastwsgi/server.c:223-349 | over every run of a response, whether it completes, breaks, is cut off or refused by libuv: exactly which of the writes of Writes are made, every reference to an object the iterator gave is given back and each such object was one, `close` was called exactly as often as due, the connection is kept exactly when all writes succeed, the body ends complete or short and keep-alive is on, only a complete one starts the timer, and exactly when the connection is left stuck |
| Wsgi.MadeIs | fastwsgi/server.c:223-349 | writes are made one for each success reported in turn, up to the first that is refused |
| Wsgi.AllSucceed | fastwsgi/server.c:232-236 | when no write fails or is refused, all writes of the response are made |
| Wsgi.BrokenRefused | fastwsgi/request.c:1250-1253 | a body that breaks while it is preloaded is never sent |
| WsgiWire.ChunkedRun | fastwsgi/server.c:258-297 | a client decodes a chunked body, whatever mix of preload and streaming made it, to exactly the app's bytes iff the iterator does not break and no item needs more than 32 bits |
| WsgiWire.ChunkedThenMore | fastwsgi/server.c:258-297 | with anything behind it a chunked body decodes to exactly the app's bytes and leaves just the rest, under the same condition |
| WsgiWire.ChunkedCut | fastwsgi/server.c:230-234 | a chunked response cut off behind any byte, or broken, is taken for a whole one iff an item among these bytes vanishes in 32 bits |
| WsgiWire.NeverMistaken | fastwsgi/server.c:230-234 | without items of 4 GiB or more no part of a chunked body is taken for a whole one |
| WsgiWire.LengthRun | fastwsgi/server.c:245-256 | the body on the wire is the items pulled, each cut to 32 bits of length; its end is seen as complete, overshot or short exactly as their size compares to the length announced |
| WsgiWire.LengthPrefix | fastwsgi/server.c:245-256 | without items of 4 GiB or more the body is a prefix of the app's bytes and its end is judged by its own length |
| WsgiWire.OnlyDeclaredLengthsFail | fastwsgi/request.c:1254-1275 | only a length that the app declared can turn out wrong |
| WsgiWire.ChunkedResponse | fastwsgi/request.c:1037-1045 | parsing the whole response and decoding what follows the head gives the fields and the app's bytes, with the exact condition |
| WsgiWire.LengthResponse | fastwsgi/request.c:1047-1072 | parsing the whole response gives the Content-Length that the body is held to, and the bytes of the items pulled behind it |
| WsgiWire.ParseWrites | fastwsgi/request.c:890-1092 | the writes of a response parse into its head and its body |
| WsgiWire.HeadDependsOnBuffer | fastwsgi/server.c:598-605 | the writes of the response to HEAD are the same with and without a parser reset iff the app declares a length of 0 |
| Asgi.Sender.Append | fastwsgi/asgi.c:761-769 | the array of chunks keeps to its bound |
| Asgi.Sender.Queue | fastwsgi/asgi.c:742-788 | one part gets a Content-Length, several are chunked; the footer ends the last one |
| Asgi.Sender.SetHead | fastwsgi/asgi.c:789-806 | the head held back with the first size, or a size line for the part |
| Asgi.Sender.Send | fastwsgi/asgi.c:715-816 | in any state the chunk array is not overrun; awaited parts put exactly the bytes of Wire on the wire, skipped ones none |
| Asgi.Sender.WriteCb | fastwsgi/server.c:306-346 | in any state the chunk array keeps to its bound; an app that awaits may go on after a part, the response ends after the last, and the connection is closed when no part is awaited |
| Asgi.Sender.SendAll | fastwsgi/asgi.c:715-816 | every sequence of awaited parts ends with exactly the bytes of Wire, also without a body |
| Asgi.AsgiRun | fastwsgi/asgi.c:761-806 | the body of several parts decodes to exactly the app's bytes iff one is not empty and all sizes fit an int |
| Asgi.Sender.MultiPart | fastwsgi/asgi.c:789-805 | the same for the whole response, parsed from its status line on, with the app's headers and the server's |
| Asgi.Sender.BareResponse | fastwsgi/request.c:922-925 | a response without a body is one head with nothing behind it, in however many parts it is sent; its Content-Length is 0 or the one declared |
| Asgi.Sender.SinglePart | fastwsgi/asgi.c:742-806 | a response in one part has its size as Content-Length, and its bytes behind the head iff they are fewer than 4 GiB |
| Tls.Session.DrainBio | fastwsgi/tls.c:45-70 | succeeds iff no read or allocation failed and all of it stays below INT_MAX / 2; then all pending bytes are appended in order, however they are read |
| Tls.Session.Encrypt | fastwsgi/tls.c:373-401 | succeeds iff there is nothing to do, or the handshake is done, the BIO is there, nothing below failed and the size bound holds; every SSL_write is offered at most 2^14 bytes (section 5.1 of RFC 8446), and the records made decrypt to the data |
| Tls.Session.DataEncode | fastwsgi/tls.c:498-525 | succeeds iff there is a first buffer that is not empty, the handshake is done, the BIO is there, nothing below failed and the size bound holds; then enc_out is what was pending and then records that decrypt to the buffers in order |
| Tls.Session.ReadDecrypted | fastwsgi/tls.c:333-371 | succeeds iff there is a session, and the handshake is still going on, or there is room and no SSL_read failed; decrypted bytes are appended in order until none are left or the buffer is full |
| Request.NameLimit | fastwsgi/request.c:395-402 | the limit on header names depends on the fragments exactly for names within five bytes of it |
| Request.FeedSplit | fastwsgi/request.c:292-303 | whether an element comes in one fragment or two makes no difference, limits included |
| Request.Parsing.OnMessageBegin | fastwsgi/request.c:242-280 | a fresh request, its timers started, the wait for it ended; refused while a response is being sent |
| Request.Parsing.OnUrl | fastwsgi/request.c:292-303 | the target grows by the fragment, up to its limit |
| Request.Parsing.SetPath | fastwsgi/request.c:44-88 | the path as the app gets it; with a root path only the path equal to it is served, the others get 404 |
| Request.Parsing.OnUrlComplete | fastwsgi/request.c:306-341 | path and query are those of the target, the path decoded; which targets are refused, among them those whose path is no UTF-8 or is not the root path |
| Request.Parsing.OnProtocolComplete | fastwsgi/request.c:357-374 | only HTTP is served |
| Request.Parsing.OnHeaderField | fastwsgi/request.c:387-407 | the name grows by the fragment, up to its limit |
| Request.Parsing.MangleHead | fastwsgi/request.c:425-450 | the in-place loop computes the environ name, or finds an underscore |
| Request.Parsing.OnHeaderFieldComplete | fastwsgi/request.c:409-455 | headers are counted, names with an underscore left out |
| Request.Parsing.OnHeaderValue | fastwsgi/request.c:457-483 | the value grows by the fragment, up to its limit |
| Request.Parsing.OnHeaderValueComplete | fastwsgi/request.c:495-590 | the header's effect on the environ, the framing, the expectation and the host; what is refused |
| Request.Parsing.OnHeadersComplete | fastwsgi/request.c:593-626 | a host is required; a body that is too long is refused, or its expectation; an interim response that cannot be sent is an error |
| Request.Parsing.OnBody | fastwsgi/request.c:628-684 | the body grows by the fragment, up to its limit |
| Request.Parsing.OnMessageComplete | fastwsgi/request.c:686-757 | the environ the app gets, with a Content-Length for a chunked body; the timers are off; a body of another length than declared is refused |
| Environ.NoSpoofing | fastwsgi/request.c:425-450 | two headers share a key of the environ iff their names differ in case at most, underscores being left out |
| Environ.WhatIsSentIsSeen | fastwsgi/request.c:242-757 | every request, trailers included, reported byte by byte, meets the fate described for it: the app is called once with exactly that environ and the body sent, the expectation is refused, or the request stops with that status and nothing is called |
| Environ.AllIsReports | fastwsgi/server.c:555-577 | reading a stream byte by byte is putting together what the machine reports of it, failures included, while no expectation is refused |
| Environ.EveryRequestServed | fastwsgi/server.c:555-734 | when a stream is requests whose fate is a call, every connection that gets it, cut in any way, calls the app with exactly these, in turn, up to the first after which the connection is not kept |
| Environ.Names | fastwsgi/request.c:497-580 | the five headers with rules of their own are those of these names in any case |
| Environ.KeyRead | fastwsgi/request.c:425-450 | the key of a header, byte for byte: upper case, '_' for '-', behind HTTP_ unless it describes the body |
| Environ.EncodedPath | fastwsgi/request.c:44-88 | a path written with any escapes but those of control bytes and 0xFF that stands for UTF-8 is served without a root path, and PATH_INFO is the bytes it stands for |
| Environ.PathRefused | fastwsgi/request.c:44-88 | which paths get 400 and which 404, exactly |
| Environ.QuietIs | fastwsgi/server.c:651-654 | bytes begin no message iff nothing is reported of them |
| Environ.BadRequestAnswered | fastwsgi/server.c:615-634 | a request that stops, behind others that are served and kept: every connection that gets such a stream, cut in any way, calls the app for the others and no more, and its last response is the text for the status of the fate (501, 414, 400, 404, 505, 431 or 417) |
| Environ.InvalidAnswered | fastwsgi/server.c:615-634 | input the parser finds invalid in a message is answered with 400, and an HTTP version that there is not with 505 |
| Environ.LastWins | fastwsgi/request.c:571-573 | a key of the environ has the value of the last header that gives it |
| Environ.Untouched | fastwsgi/request.c:571-573 | a key that no header gives is as it was |
| Llhttp.AllAppend | fastwsgi/server.c:555-577 | reading a stream in two portions is reading it at once |
| Llhttp.EventsGrow | fastwsgi/server.c:555-577 | more input never takes back a message |
| Llhttp.Parser.Flush | fastwsgi/request.c:1311-1329 | a fragment's callback catches up with the byte-by-byte reading |
| Llhttp.Parser.Take | fastwsgi/request.c:1311-1329 | one report, after the fragment before it |
| Llhttp.Parser.Execute | fastwsgi/server.c:555-577 | a buffer, read in fragments up to the end of a message, leaves exactly the state and the message of reading it byte by byte, and fails with the same status, or, on invalid input, with the error there was; between messages nothing happens exactly when the machine has nothing to report |
| Exchange.LeftoverHasSource | fastwsgi/server.c:651-654 | an error is left over iff some message left one and every response since was made for it |
| Exchange.LeavesIs | fastwsgi/server.c:659-696 | a refused expectation leaves 417, a body that breaks before it is sent leaves 11, and no other message leaves an error |
| Exchange.StaleStatus | fastwsgi/server.c:651-654 | a response that no message asked for says 417 when it goes back to a refused expectation and 400 when to a body that broke |
| Exchange.PositionOf | fastwsgi/server.c:329-345 | a response answers the message of its own number iff none before it was made without a message |
| Exchange.KeptMessages | fastwsgi/server.c:299-346 | every message that another one follows was one after which the connection is kept |
| Exchange.BufferShows | fastwsgi/server.c:598-605 | the response to a message is the same with and without bytes behind it iff the request is not HEAD or the app declares a length of 0 |
| Exchange.CarryOut | fastwsgi/server.c:223-349 | in every order of write results the plan is what becomes of the response: its writes up to the first that fails, and the connection kept, the timer and the error just as planned when none does |
| Connection.Connection.StreamReadStart | fastwsgi/server.c:66-85 | reading is refused while requests wait in the buffer or a response is on its way |
| Connection.Connection.Parse | fastwsgi/server.c:545-577 | what is parsed follows what was parsed before, without loss or repetition |
| Connection.Connection.Advance | fastwsgi/server.c:597-613 | the buffer is frozen exactly when something of it is not parsed |
| Connection.Connection.Answer | fastwsgi/server.c:659-696 | the message that ended is answered, before any other is read, and leaves exactly the error of its response behind |
| Connection.Connection.Proceed | fastwsgi/server.c:651-654 | a response without a message is made exactly when an error is left over |
| Connection.Connection.ReadCb | fastwsgi/server.c:555-734 | at most one response is begun; each resume leaves strictly less to parse; without a message one is begun iff an error was left over between messages and the bytes begin none; input that cannot be parsed is answered with the status of its failure; whether the parser is reset is whether nothing waits |
| Connection.Connection.GiveUp | fastwsgi/server.c:615-634 | input that cannot be parsed is answered with the status of the failure; when the parser found it invalid, with 400 in a message and the error left over between messages |
| Connection.FailureAnswered | fastwsgi/server.c:615-634 | when all messages of a stream are kept, the last response of a connection that has nothing more to do is the one to input that cannot be parsed iff the stream fails, and its text is that for the status of the failure |
| Connection.Connection.AllocCb | fastwsgi/server.c:736-776 | the buffer is reset only when all of it was parsed |
| Connection.Connection.Receive | fastwsgi/server.c:480-577 | received bytes extend the input, and every invariant of the connection holds again |
| Connection.Connection.LineEndAfterRefusal | fastwsgi/server.c:651-654 | a refused expectation followed by CR LF gets two responses, both the text for 417 |
| Cases.RefusalThenLineEnd | fastwsgi/server.c:651-654 | the same from the first byte of a connection on, with a concrete parser machine and input |
| Connection.Connection.WriteNext | fastwsgi/server.c:258-297 | the next write of the response in progress |
| Connection.Connection.WriteLast | fastwsgi/server.c:299-346 | a complete response ends the exchange, and the requests that wait are read from the buffer |
| Connection.Connection.WriteCb | fastwsgi/server.c:223-349 | a new response is begun only when the one before is complete |
| Connection.Connection.InterimCb | fastwsgi/server.c:157-170 | reading goes on only where it may, whenever the interim response is written |
| Connection.Connection.AuxCheck | fastwsgi/server.c:859-891 | fires exactly on a timeout, and never while a request is with the app or its response on its way; a response that no message asked for can be cut off only by the wait for the next request |
| Connection.Connection.SerialExchange | fastwsgi/server.c:329-345 | in every state the k-th response answers the k-th cause, is complete when a later one was begun, and then the connection was kept after it; it answers the k-th message exactly while all before it had one; nothing is read meanwhile |
| Connection.Connection.OwnTextWritten | fastwsgi/server.c:420-452 | whatever is answered without the app is one write, the text for 417, for the error left over, or for the failure |
| Connection.Connection.Faithful | fastwsgi/server.c:555-658 | what the app was told is what comes of the processed input, read byte by byte |
| Connection.WhatTheAppGets | fastwsgi/server.c:555-658 | the app gets the messages of the stream up to the first after which the connection is not kept, and all of these when the connection has nothing more to do |
| Connection.SegmentationIndependent | fastwsgi/server.c:555-658 | two connections that get the same stream cut in any two ways tell their apps the same, pipelined requests included (section 9.3.2 of RFC 9112), also when the server ends them |
| ClientView.ExtentFound | fastwsgi/request.c:1030-1072 | a reader finds in the printed head the framing that the server chose, unless the app gives a Transfer-Encoding |
| ClientView.ResponseRead | fastwsgi/request.c:890-1092 | a client reading a response with anything behind it gets the reply and leaves just the rest, iff nothing is sent where it expects no body, and otherwise the response ends complete without an item of 4 GiB or more |
| ClientView.BareIs | fastwsgi/request.c:922-925 | the server sends no body exactly when the client, by its request and the status it reads, expects none, but for a status below 200 |
| ClientView.ShortSwallows | fastwsgi/server.c:245-256 | behind a body shorter than announced exactly the missing bytes are taken from what follows |
| ClientView.ClearWhenKept | fastwsgi/server.c:299-346 | on a kept connection only a short body, an item of 4 GiB or more, or a body behind a status below 200 hides the end of a response |
| ClientView.OwnTextAlone | fastwsgi/server.c:436-452 | the server's own responses read as one response whatever follows |
| ClientView.WhatTheClientReads | fastwsgi/server.c:299-346 | in every state of a connection a client stays in step over the first k responses iff the end of each can be found |
| Answer.GoodUpTo | fastwsgi/request.c:1145-1168 | an iterator breaks at its first item that is not bytes, and what is behind it is not looked at |
| Answer.LastCounts | fastwsgi/request.c:1096-1123 | the last Content-Length of the app's counts unless one is malformed |
| Answer.MalformedCounts | fastwsgi/request.c:1106-1119 | any malformed one makes the response unusable |
| Answer.ServableIff | fastwsgi/request.c:792-888 | when the app's response is sent and when the server's own is, in terms of the items and the length declared |
| Answer.DecidedIs | fastwsgi/request.c:1171-1276 | the framing in these terms: the size of a body that is seen whole, else the length declared, else chunks; and how many items go out with the head |
| Answer.EndingTold | fastwsgi/server.c:238-263 | how a response ends, by the sizes of the items that are sent |
| Answer.BrokenIs | fastwsgi/request.c:1250-1253 | which bodies break before they are sent |
| Answer.AnswerTold | fastwsgi/request.c:890-1092 | what a client parses of the response: the status line, the app's headers and the server's, and the framing that the items call for |
| Answer.SizedBody | fastwsgi/server.c:258-297 | the body of a response with a length is the items up to the first that reaches it, each cut to 32 bits of length |
| Answer.WholeBodySent | fastwsgi/request.c:1254-1260 | at most 48 items that do not look like a file, do not break and are no longer than declared are read whole, with their size as Content-Length, whatever was declared |
| Answer.WriteByWrite | fastwsgi/server.c:258-297 | the first write has the head and the first few items, each other item one of its own, and the last chunk one |
| Answer.KeepTold | fastwsgi/request.c:1024-1028 | the one Connection header says keep-alive iff client and server want that, and a connection that is kept was told so |
| Answer.PlanTold | fastwsgi/server.c:238-346 | when the connection is kept behind the app's response and when the wait for the next request is timed, by the sizes of the items |
| Answer.RefusedPlan | fastwsgi/server.c:436-452 | a response that cannot be sent is replaced by the text for 500, which keeps the connection iff client and server want that |
| Answer.ErrorTextAlone | fastwsgi/server.c:436-452 | that text is read as one response by itself, also behind HEAD |
| Cases.ShortBody | fastwsgi/server.c:245-256 | one byte where five were announced: the client takes four bytes of the next response |

## Left out

- llhttp, libuv, OpenSSL and CPython themselves: they are the arbitrary machine, callback order, record layer and iterator described above.
- Sockets, listening, signals, worker processes, configuration, logging and the loading of libssl: plumbing.
- lifespan.c and the scheduling of the asyncio loop: they depend on the order of asyncio callbacks.
- UTF-8 and Latin-1 decoding of paths, names and values into str objects: the environ holds bytes, and only whether a path is UTF-8 matters.
- HTTP/0.9 request lines, upgrades and CONNECT tunnels: the parser machine is one that reports a version for every message.
- The interim response to `Expect: 100-continue`, apart from its effect on reading; in `Connection` it can always be sent, and that it could not is a case of Request.Parsing.OnHeadersComplete.
- The TLS handshake, `tls_flush_enc_out` and the raw receive buffer: `Connection` is the plain-TCP one.
- What ASGI apps that do not await a part before the next put on the wire: for them the bound on the chunk array is kept.
- The ASGI `receive` side, `http.response.start` and its headers' Content-Length, and the read timer that resumes after `asgi_done`.
- The ASGI scope: the callbacks are those of a WSGI server, with the prefix `HTTP_` and upper-case names.
- The FileWrapper buffer-size adjustment: it only changes which items the iterator yields.
- Bodies of the server's own error responses.
- Refusal of a write by libuv in `Connection`, where every write is taken: `Wsgi.Client.Exchange` has it, and the connection that it can leave stuck.
- Allocation failure outside `Xbuf` and `Tls`.
- An iterator without `close`, or whose `close` raises: the source then leaves an exception pending, which can make the next request fail.
- Connection.Connection.StreamReadStart: does not model a failure of uv_read_start, after which the source closes the connection.
- Connection.SegmentationIndependent: like Connection.WhatTheAppGets requires that no header name has 32763 bytes or more, because names up to 32767 bytes pass or fail depending on how they are cut (Request.NameLimit).
- ClientView.WhatTheClientReads: requires of each response that its lines are lines and that the app gives no Transfer-Encoding, and of the server's own texts that each is one response (ClientView.OwnTextAlone); interim responses are not read.
- Request.Parsing.OnBody: the stream is a byte sequence here; RequestBody.Body.OnBody has the stream itself and the case that the app closed or exported it.
- Xbuf.Xbuf.Add: requires that the need stays below the largest one whose capacity fits a C int; the source does not check that.
- Tls.Session.DrainBio: does not model that BIO_pending itself fails.
- Tls.Session.DataEncode: requires that the total length leaves room for the 512 bytes added to it in an int.
- Wsgi.Client.Respond: the status line is a parameter, or missing when the status has no name; the status of the app is any integer. An app that returns without having called start_response is not part of this model, because the source then reads a status that is not there.
