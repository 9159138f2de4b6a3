# HIFU plan and command link — a Dafny model

This project models the link between the treatment-planning server and the
HIFU (high-intensity focused ultrasound) device client. The server
(`Server`) sends two kinds of frame:

- a PLAN frame, holding the grouped 3D spots (split into one list per
  axis), the spot order, the five sonication parameters and a receipt string;
- a COMMAND frame: start, stop, pause or resume.

The client (`Client`) routes each frame on its header tag. A COMMAND frame
raises one signal per command. For a PLAN frame the client decodes the
fields, writes the receipt back on the same socket, closes it, and rebuilds
the grouped 3D spots. The server compares the echoed receipt with the one it
sent. On a match it moves its session counter on and clears its plan state.
The client reports its device status in STATUS frames, which the server
decodes.

How each part is modelled:

- A QDataStream is a sequence of typed fields (`Stream.Field`).
- Writing into a buffer is `Stream.Overwrite`. A stream opened WriteOnly on
  a QByteArray does not truncate: the written fields come first, then every
  old byte beyond them. An old field that the write stops inside is kept as
  a `Raw` remnant of its unwritten bytes, so the buffer's size is exactly
  the larger of the old size and the written size. The header is backfilled
  after `seek(0)`.
- A qint64 takes 8 bytes. The width of every other library-encoded field is
  a parameter (`width`).
- Reads of the wrong kind yield zero values and exhaust the stream.
- Socket writes, closes and Qt signals come back from each handler as a
  list of `Effect`s.
- Group keys, coordinates and status values are type parameters `K`, `C`
  and `S`.
- Both objects are classes whose fields the handlers update.
- Loops of the source are loops here. `Server.EncodeSpot` and
  `Client.ConvertSpot` are proved against the functions `SplitInto` and
  `Rebuild`, and the properties of the protocol are lemmas about those
  functions.

Modules:

- `Variable`: the header and command tags, spots and parameters
  (lib4Server/common/variable.h).
- `Stream`: the frame codec.
- `Receipt`: the receipt text.
- `PlanTransfer`: the per-axis split, the rebuild, and the PLAN payload
  layout and decoder.
- `ServerSide`: Server/server.cpp.
- `ClientSide`: Client/client.cpp.
- `Protocol`: both sides together. It contains a whole plan session from a
  fresh server and a fresh client.

Behaviour of the source worth knowing:

- `Client::convertSpot` does not check that the Y and Z lists are as long as
  the X list. A shorter list is read out of range, and a longer one is cut
  short without notice. The receipt has already been echoed by then
  (client.cpp:184). What follows an out-of-range `at(x)` is undefined; a
  longer list is cut short and receivingCompleted is emitted (see
  Findings). The model's client rebuilds
  and acknowledges only a plan whose three axis hashes are aligned: the
  same keys, with lists of equal length.
- The server's `encodeSpot` writes over the per-axis hashes but never
  empties them first. Only a matching receipt clears them
  (server.cpp:241-243). After a plan whose receipt was never confirmed, a
  group removed from the spots before the next `sendPlan` is still sent,
  and the client rebuilds it (`PlanTransfer.StaleGroupRebuilt`).
- For the same reason `m_baOut` keeps an unconfirmed plan's frame until a
  command is sent, since sendCommand clears it too (server.cpp:179). A
  shorter frame encoded over it leaves the old frame's end in place, and
  `m_totalBytes` is the old, larger size (`Stream.Overwrite`).
- The rebuild drops empty groups, because the `append` that creates a
  group's entry is only reached inside the inner loop. The round trip
  therefore gives back `NonEmptyGroups` of the spots, not the spots
  themselves.

## Model

| member | source | states |
|---|---|---|
| Variable.CmdValue | lib4Server/common/variable.h:13-19 | the wire value of every command lies in 1..4 |
| Variable.CmdOf | lib4Server/common/variable.h:13-19 | a wire value names a command exactly when it lies in 1..4, and then it names the command whose value it is |
| Variable.CmdTagsRoundTrip | lib4Server/common/variable.h:13-19 | reading back a command's wire value gives that command, and no two commands share a value |
| Stream.Overwrite | Server/server.cpp:109-139 | a write from offset 0 leaves the written fields at the front, and the buffer's size is the larger of its old size and the written size: the old bytes beyond the write stay |
| Stream.Leftover | Server/server.cpp:109-126 | what a write of n bytes leaves of the old buffer is exactly its size less n, or nothing when the write is longer |
| Stream.LeftoverAfterI64 | Server/server.cpp:138-139 | a write of qint64s over a run of qint64s stops between fields, and everything after them is left whole |
| Stream.OverwriteEmpty | Client/client.cpp:175-180 | writing into an empty buffer leaves exactly the written fields |
| Stream.OverwriteHead | Server/server.cpp:138-139 | rewriting a header of the same number of qint64s after `seek(0)` equals writing the final header with the payload in one pass, and keeps the buffer's size |
| Stream.BackfillKeepsSize | Server/server.cpp:136-139 | backfilling qint64 placeholders with qint64 values keeps the buffer's size, so the size taken before the backfill is the frame's size |
| Stream.SizeAppend | Server/server.cpp:136 | the size of two buffers written one after the other is the sum of their sizes |
| Stream.AllI64Size | Server/server.cpp:115-116 | a run of qint64 fields takes 8 bytes each |
| Receipt.Decimal | Server/server.cpp:207 | `QString::number` of the counter is a non-empty run of digits, after a minus sign for a negative counter |
| Receipt.Digits | Server/server.cpp:207 | the decimal rendering of a counter is a non-empty run of digits |
| Receipt.LeadingIntOfDecimal | Server/server.cpp:207 | the rendered counter is read back exactly from the front of any text that goes on with a non-digit |
| Receipt.ValueOfDigits | Server/server.cpp:207 | the digits of `n` denote `n` |
| Receipt.DigitPrefixOf | Server/server.cpp:207-208 | a run of digits followed by a non-digit is the longest digit prefix of the text |
| Receipt.GenReceipt | Server/server.cpp:201-209 | every receipt starts with the fixed server and client identification and the `Time: ` label |
| Receipt.CounterOfReceipt | Server/server.cpp:207-208 | the session counter is recovered from a receipt, whatever the date and time in it |
| Receipt.DistinctSessionsDistinctReceipts | Server/server.cpp:231 | receipts of two different sessions never match, so a stale echo fails the server's comparison |
| PlanTransfer.ProjectSpec | Server/server.cpp:153-159 | a projected list has one entry per spot, in order, each the spot's coordinate on that axis |
| PlanTransfer.ProjectAppend | Server/server.cpp:153-159 | projecting two runs of spots one after the other gives the two projections one after the other |
| PlanTransfer.ZipSpec | Client/client.cpp:209-216 | the spots built from three lists are as many as the X list, and the i-th takes the i-th entry of each list |
| PlanTransfer.ZipSnoc | Client/client.cpp:209-216 | one more index step of the inner loop appends exactly one spot |
| PlanTransfer.ZipPrefix | Client/client.cpp:209-216 | entries of the Y and Z lists beyond the X list play no part in the rebuild |
| PlanTransfer.ZipProject | Server/server.cpp:153-159 | splitting spots into three lists and zipping them back gives the same spots (decode of encode) |
| PlanTransfer.ProjectZip | Client/client.cpp:209-216 | three lists of equal length zipped into spots project back onto the same lists (encode of decode) |
| PlanTransfer.FillMissing | Client/client.cpp:206-207 | after operator[] has been applied to a set of keys, the hash holds those keys as well, and each one reads as it did before the insertion |
| PlanTransfer.SplitIntoSpec | Server/server.cpp:146-163 | after the split, each group of the spots holds its projection; keys not among the spots keep their old list |
| PlanTransfer.SplitKeepsAligned | Server/server.cpp:160-162 | the split keeps the three axis hashes on the same keys with equal list lengths |
| PlanTransfer.AlignedCovers | Client/client.cpp:206-214 | aligned axis hashes keep every index read of the client's rebuild in range, and operator[] inserts nothing into them |
| PlanTransfer.RebuildSpec | Client/client.cpp:202-216 | the rebuild holds exactly the X keys with non-empty lists, each group as long as its X list, its i-th spot made from the i-th coordinate of each axis |
| PlanTransfer.RebuildFromEmpty | Client/client.cpp:202-216 | starting from no spots, the rebuild's keys and groups are those of the zipped non-empty X lists |
| PlanTransfer.SplitRebuildRoundTrip | Client/client.cpp:199-217 | splitting a grouped spot map into fresh hashes and rebuilding it gives back every non-empty group unchanged |
| PlanTransfer.RebuildOfGroups | Client/client.cpp:202-216 | hashes whose lists zip back into the groups rebuild into the non-empty groups |
| PlanTransfer.ProjectionsCover | Server/server.cpp:146-163 | projections of the groups into fresh hashes are aligned and zip back into the groups |
| PlanTransfer.SplitOfEmpty | Server/server.cpp:146-163 | a split into a fresh hash holds exactly the projections of the groups |
| PlanTransfer.StaleGroupRebuilt | Server/server.cpp:143-163 | a group left in the hashes from an earlier plan, and no longer among the spots, is still sent and rebuilt by the client |
| PlanTransfer.PlanPayload | Server/server.cpp:117-126 | the payload is ten fields ending in the receipt, and it holds no qint64, so the only qint64s of a PLAN frame are its tag and length |
| PlanTransfer.DecodePlan | Client/client.cpp:152-162 | a stream that does not start with a qint64 decodes to the empty plan: every later read yields its zero value |
| PlanTransfer.ReadParameterFields | Client/client.cpp:157-161 | the five sonication parameters are read back in the order they are written |
| PlanTransfer.DecodePlanPayload | Client/client.cpp:152-162 | the client's reads recover the length, the three axis hashes, the spot order, the parameters and the receipt from the payload the server writes, whatever follows it |
| ServerSide.MessagesDistinct | Server/server.cpp:59-82 | each error kind and each command has its own message |
| ServerSide.EncodeCmd | Server/server.cpp:191-198 | a COMMAND frame is two qint64s: the COMMAND tag, and a value that names exactly the command sent |
| ServerSide.SplitSpots | Server/server.cpp:153-159 | the inner loop of encodeSpot yields the X, Y and Z projections of one group |
| ServerSide.PartlySplitDone | Server/server.cpp:146-163 | once every group is done, the partial split is the whole split |
| ServerSide.Server.constructor | Server/server.cpp:9-26 | a new server has an empty buffer, no plan, total bytes 0 and session counter 1 |
| ServerSide.Server.SetCoordinate | Server/server.h:29 | stores the grouped spots |
| ServerSide.Server.SetSpotOrder | Server/server.h:30 | stores the spot order |
| ServerSide.Server.SetParameter | Server/server.h:31 | stores the sonication parameters |
| ServerSide.Server.EncodeSpot | Server/server.cpp:143-167 | each axis hash becomes the split of the spots into it, and alignment of the hashes is kept |
| ServerSide.Server.EncodePlan | Server/server.cpp:107-140 | the receipt is generated from the session counter; the buffer holds the PLAN tag, the length and the payload written over its old content; the length is the buffer's size, which is the old size when that is larger |
| ServerSide.Server.WriteFrame | Server/server.cpp:115-139 | placeholders and payload are written from offset 0, the size taken, and the PLAN tag and size backfilled: the result is the final frame written over the old buffer, with the buffer's size as its length |
| ServerSide.Server.SendPlan | Server/server.cpp:90-105 | encodes the plan as above and writes the whole buffer to the socket |
| ServerSide.Server.SendCommand | Server/server.cpp:169-189 | writes the COMMAND tag and the command's tag with no length, clears the buffer, closes the socket and signals completion |
| ServerSide.Server.ReadReceipt | Server/server.cpp:212-251 | on a matching echo the counter goes up by one and the plan state is cleared; otherwise nothing changes and the receipt error is raised; the socket is closed either way |
| ServerSide.Server.WrittenBytes | Server/server.cpp:254-268 | the send error is reported exactly when the bytes written differ from the frame's length, the success message exactly when they agree |
| ServerSide.Server.Receive | Server/server.cpp:322-341 | a STATUS frame's length and status map become the server's, the tag unchecked; the socket is closed and receivingCompleted emitted |
| ClientSide.Dispatch | Client/client.cpp:111-120 | COMMAND goes to receiveCommand, PLAN to receivePlan, every other tag is dropped |
| ClientSide.CommandSignal | Client/client.cpp:247-266 | each command tag raises exactly its own signal, never receivingCompleted, and unknown tags raise none |
| ClientSide.AppendedSnoc | Client/client.cpp:215 | appending one spot to a group extends the accumulated group by that spot |
| ClientSide.PartlyRebuiltDone | Client/client.cpp:202-217 | once every X key is done, the partial rebuild is the whole rebuild |
| ClientSide.ConvertingDone | Client/client.cpp:202-217 | once every X key is done, the spots, Y and Z hashes are the rebuild and the filled-in hashes |
| ClientSide.Client.constructor | Client/client.cpp:8-15 | a new client has an empty buffer, no plan, no status and total bytes 0 |
| ClientSide.Client.SetStatus | Client/client.h:24 | stores the status map |
| ClientSide.Client.InitVar | Client/client.cpp:124-137 | clears the hashes, spots, spot order and buffer and zeroes the parameters |
| ClientSide.Client.ReadHeader | Client/client.cpp:99-121 | the first qint64 decides: a command frame only raises its signal and closes the socket, a plan frame leaves the state and effects of the plan it holds, any other frame changes nothing |
| ClientSide.Client.ReceiveCommand | Client/client.cpp:232-271 | the socket is closed last; a signal is raised exactly when the tag names a command, and it is that command's signal |
| ClientSide.Client.ReceivePlan | Client/client.cpp:140-196 | the new state holds the decoded fields; for an aligned plan it also holds the rebuilt spots and the receipt alone in the buffer, the receipt is written back before the socket closes, and receivingCompleted follows; any other plan gets no reply, only the close |
| ClientSide.Client.StorePlan | Client/client.cpp:175-195 | stores a decoded plan; echoes its receipt, rebuilds and signals exactly when its axis hashes are aligned; closes the socket either way |
| ClientSide.Client.ConvertSpot | Client/client.cpp:199-217 | the spots become the rebuild of the received hashes; keys missing from the Y and Z hashes are filled in with empty lists |
| ClientSide.Client.ConvertGroup | Client/client.cpp:204-216 | one group of the outer loop is rebuilt and its Y and Z entries filled in |
| ClientSide.Client.AppendSpots | Client/client.cpp:209-216 | the inner loop appends the zip of the three lists to the key's group |
| ClientSide.Client.Send | Client/client.cpp:288-316 | the STATUS frame is the tag, the buffer's size and the status map, written in full and followed by a close |
| Protocol.CommandRoundTrip | Server/server.cpp:191-198 | a COMMAND frame, written over any buffer content, reaches receiveCommand and raises exactly the signal of the command sent |
| Protocol.PlanFrameRead | Client/client.cpp:99-162 | the frame encodePlan leaves, whatever the buffer held before, is routed to receivePlan and decodes to every field the server wrote |
| Protocol.AlignedPlanRebuilt | Client/client.cpp:191-216 | a plan with aligned hashes is rebuilt in full, with the unchanged hashes, and receivingCompleted is raised |
| Protocol.ReplyEchoesReceipt | Client/client.cpp:175-184 | receivePlan writes the receipt back exactly when the plan's hashes are aligned, and the reply then carries exactly that receipt; any other plan gets no write at all |
| Protocol.EmptyReplyRejected | Server/server.cpp:231 | no receipt is the empty string, so an empty reply would fail the server's check |
| Protocol.StatusRoundTrip | Server/server.cpp:329-333 | the server reads back the tag, the length and the status map of the client's STATUS frame, and the client drops a STATUS tag |
| Protocol.AnySession | Server/server.cpp:90-105 | in any session, whatever the hashes and buffer still hold from an unconfirmed plan, a server keeping its hashes aligned makes the client rebuild the split hashes, echo exactly this session's receipt and signal; the server's check passes and its counter goes up by one |
| Protocol.DeliverPlan | Client/client.cpp:140-196 | the first half of any session: the client's spots are the rebuild of the server's split hashes, it holds the server's order and parameters, and its reply is exactly this session's receipt |
| Protocol.OpenSession | Server/server.cpp:90-105 | a fresh server given a plan puts in its buffer the PLAN frame of that plan with the receipt of session 1 |
| Protocol.SessionFrame | Server/server.cpp:107-140 | the first session's frame decodes to the split of the spots, the order, the parameters and the receipt |
| Protocol.PlanSession | Client/client.cpp:140-196 | in a whole session the client ends up with every non-empty group of the server's spots, the spot order and the parameters; it echoes the receipt and signals; the server's check passes and its counter moves to 2 |
| Protocol.ShortPlanDecodes | Client/client.cpp:152-162 | a frame with one X entry and empty Y and Z hashes decodes as such |
| Protocol.ShortPlanOutOfRange | Client/client.cpp:206-214 | for that frame the source's `at(x)` would index an empty Y list; the model rebuilds nothing, writes no receipt and raises no receivingCompleted |
| Protocol.LongPlanTruncated | Client/client.cpp:209-214 | for a plan whose Y list is longer than its X list, the source's rebuild stays in range but drops the extra Y coordinate; the model neither rebuilds nor acknowledges such a plan |

## Left out

- Sockets and the network are left out: connectServer, listen, acceptConnection, getLocalIP, displayError, handleError and bytes. Bytes written arrive as a parameter of `WrittenBytes`, and frames arrive as input sequences. This covers TCP fragmentation too: a frame is taken to arrive whole.
- Connecting and disconnecting the bytesWritten signal around a send plays no part in the model. Any ordering of that signal against the reply is not modelled.
- readSettings and updateSettings (QSettings), the ip and port fields, logging with qDebug, and the destructors are left out: none of them take part in the protocol.
- The byte encodings of Qt_4_6 are left out. The width of a non-qint64 field is the parameter `width`. A QString is length-prefixed text and a QHash a count-prefixed map, which the model keeps as whole values.
- Stream.Overwrite: the old bytes beyond a write are kept at their exact count, but the end of an old field the write stops inside is a `Raw` remnant, not its byte values. Nothing reads those bytes: the client's reads stop at the receipt.
- The voltage is a `real`, so float rounding and the float group keys are not modelled. Keys are compared by equality, as QHash does.
- A QVariant status value is the opaque type `S`.
- The date and time in the receipt come from the system clock (QDate and QTime). They are inputs here.
- readHeader's separate QDataStream on the same socket is modelled as reading on from the rest of the frame.
- The getters (getStatus, getCoordinate, getSpotOrder, getParameter) are not modelled: they just return fields.
- `m_cmdList` only feeds log lines. `ServerSide.CmdMessage` gives its entries, and `MessagesDistinct` proves them distinct.
- The print loop at the end of convertSpot only logs. Its `at(0)` reads stay in range by `RebuildSpec`, because every rebuilt group is non-empty.
- The spot order is carried as sent. Nothing checks it against the spots, and neither does the source.
- The constructors leave `m_writtenBytes` and `m_parameter` uninitialised. The model gives them zero values.
- ServerSide.Server.ReadReceipt: the session counter `m_sendTimeNum` is an unbounded integer, while the source's `int` overflows after 2^31-1 sessions.
- ServerSide.Server.EncodePlan: the length is an unbounded integer, while the source's is a qint64; real frames stay far below its range.
- ClientSide.Client.ConvertSpot: requires that the Y and Z lists reach as far as the X lists. What `QList::at` does out of range is undefined and has no model (see Findings).

## Findings

| source | as written | input that shows it | evidently intended | confidence | as-written member | corrected member |
|---|---|---|---|---|---|---|
| Client/client.cpp:206-214 | receivePlan echoes the receipt and calls convertSpot with no check of the list lengths. convertSpot reads `m_hashY[key].at(x)` and `m_hashZ[key].at(x)` for every index x of the X list, and the emit of receivingCompleted comes after those reads, so an out-of-range one leaves what follows undefined | a PLAN frame whose X hash is `{0: [7]}` and whose Y and Z hashes are empty: `at(0)` is read on an empty list | rebuild and acknowledge only a plan whose three axis hashes are aligned; for any other plan, write no receipt and raise no receivingCompleted, so the server is not told that the plan arrived | not executed | ClientSide.Client.ConvertSpot, Protocol.ShortPlanOutOfRange | ClientSide.Client.StorePlan, Protocol.ReplyEchoesReceipt |
| Client/client.cpp:209-214 | the inner loop runs over the X list only, so Y or Z entries beyond its length are never read, and the plan is still acknowledged | a PLAN frame with X `{0: [7]}`, Y `{0: [1, 2]}` and Z `{0: [3]}`: the client rebuilds `[(7, 1, 3)]`, drops the Y coordinate 2, and echoes the receipt | rebuild and acknowledge only a plan whose three axis hashes have the same keys and lists of equal length, instead of cutting a longer list short | not executed | ClientSide.Client.ConvertSpot, Protocol.LongPlanTruncated | ClientSide.Client.StorePlan, Protocol.ReplyEchoesReceipt |
