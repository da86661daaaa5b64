# A verified model of the asynchronous RPC framework

The framework sends protobuf messages over TCP. A client channel gives every call an id, keeps it in a
table, and writes a length-prefixed header; the server reassembles headers from whatever pieces arrive,
starts the named service method, and answers whenever that method is done, in any order. Servers publish
themselves in a ZooKeeper tree, clients mirror that tree in a cache fed by one-shot watches, and a service
may share a blocking pool of database connections.

The project models these parts and proves what they are for. Code that changes state step by step is a
class whose methods are proved against a specification; what several threads or machines do together is a
transition system, and the theorems hold in every reachable state.

| module | models |
|---|---|
| `Wire` | the encoding primitives: varint, fixed-width numbers, length-delimited records, groups |
| `Messages` | parsing, serializing and merging of any message type given by a schema, nested ones included |
| `Generated` | the generated classes `RpcHeader`, `ResultCode`, `LoginResponse`, pointer by pointer |
| `Framing` | the length prefix, reassembly from chunks, the reference decoder of a stream |
| `Channel` | the class `RPCChannel` |
| `Encodings` | every message, header and frame byte by byte, and every limit in numbers |
| `RpcSystem` | client, byte streams, servers and reconnects as one transition system, and its invariant |
| `RpcTheorems` | what holds in every run: placement, correlation, fresh ids, at-most-once completion, disposal |
| `RpcLosses` | calls that cannot complete: which, and exactly why |
| `RpcProgress` | termination, answers, and when a connection's calls are all completed |
| `RpcSteps` | the class `RPCChannel` takes the steps of `RpcSystem`, whole activations included |
| `Pool` | the connection pool as a monitor, and `Login` on top of it |
| `Discovery` | the cache against a tree that changes while it is read |
| `DiscoveryProgress`, `DiscoveryLimits` | the worker catches up; where the cache goes wrong for good, and exactly when |
| `DiscoveryClient` | the class `ServiceDiscovery`, proved under interference of the other threads |
| `Paths`, `Address`, `Registry`, `Publishing` | znode paths, host strings, registration, and registration composed with discovery |
| `Clients` | the reconnecting and the concurrent client as classes, and their countdowns, over the runs of `RpcSystem` |
| `ClientsProgress` | both clients can complete any number of requests and end |

How the pieces are tied together: the generated classes are proved against the value-level functions of
`Messages`; `RPCChannel` is proved against the functions `AfterCall`, `AfterActivation` and `AfterDone`, and
`RpcSteps` shows that those are steps of `RpcSystem`: `CallMethodSteps` and `FailedCallSteps` for a call,
`ActivationSteps` for a whole `onMessage` of the client with all the calls its closures make, `DispatchSteps`
and `DoneSteps` for the server, with `ServerActivationSteps` for its whole `onMessage`. What is written is stated
apart from what reads it: `Encodings` gives the bytes. Every method of `ServiceDiscovery` is proved to be a run of `Discovery`, where
each request to ZooKeeper is one step and the other threads may take any number of orderly steps before it.
Every method of the two clients is proved to be a move of a transition system around `RpcSystem`, and their
objects are always in a state of one of its runs.

The encoding is that of the public Protocol Buffers Encoding guide (sections "Base 128 Varints", "Message
Structure", "Non-varint Numbers", "Length-Delimited Records", "Submessages" and "Last One Wins"); watches
follow the section "ZooKeeper Watches" of the Apache ZooKeeper Programmer's Guide.

## Properties that fail, and when they hold

- Timely dispatch. `onMessage` returns after a frame whose header does not parse
  (src/RPCChannel.cc:159-162), so complete frames behind it wait until more bytes come: `StuckFrame` is
  such a stream. `TimelyDispatch` gives the exact condition. In the RPC system no such header ever occurs
  (`StreamsNeverBreak`).
- Delivery of every message that was sent. A sender frames headers that its receiver will not take
  (`FrameTakenOnlyIfFits` is the exact condition), and a server sends nothing for an answer that does not
  serialize (src/RPCChannel.cc:176-189). `LongLoginBlocks` is a run that it happens in. `BlockedForever` and
  `AnswersBlockedForever` say what a frame that is too long does in either direction: as long as the connection
  stays open, no call made over it from then on, or not answered until then, is completed. `LostIffBad` says
  that this is the only reason: a connection loses calls, or one of its ends shuts down, only when over this
  connection some frame is too long or some answer does not serialize; an open one loses calls exactly then.
  So `ConnectionDrainsIff`: where every run without new calls ends, all calls that went over an open connection
  to methods of the server are completed, if and only if no frame over it was too long and every answer
  serialized. Correlation, at-most-once completion, id freshness and exactly-once disposal hold all the same.
- The pool's bound. A pool constructed with more connections than its maximum stays above it;
  `BoundedIffStartedBounded` is the exact condition.
- Quiescent consistency of discovery, for two reasons. If the worker refreshes a method and stores the
  result while `init` has listed the same method and not yet stored it, `init` may overwrite the newer
  entry: `OvertakenInitLosesInstance` is a run that loses an instance for good, with no event pending, and
  `OvertakingHarmlessIff` says exactly which overtakings are harmless. And a changed-event on an instance
  makes `handleEvent` store that instance alone: `InstanceDataLosesInstance` is a run that loses the other
  instance, and `InstanceDataRightIffAlone` says that setting an instance's data while nothing is pending for
  its method is harmless if and only if the instance is the only one. That nothing is pending is needed:
  `AloneIsNotEnough` is a run in which the data of a method's only instance is set and the entry ends wrong.
  `QuiescentConsistency` holds for every run without harmful overtakings and without such settings.
- The cached size. `LoginResponse`'s write pass takes the submessage's length from a cache that only the
  size pass refreshes; `Generated.LoginResponse.InternalSerialize` states that the output is right if and
  only if that cache is.
- The reconnecting client's end at 0. Asked for no request at all it still sends one, and if that one is
  answered it quits at -1; `QuitsOnlyAtZero` is the exact condition.

Where comment and code differ, the model follows the code: src/ServiceDiscovery.cc:102 says that a method
node is watched for its data and its children, but its data is watched only while it has no children.

## Model

| member | source | states |
|---|---|---|
| Wire.ReadVarintInverse | src/rpc.pb.cc:229 | a varint of up to ten bytes is read back as the number it encodes, whatever follows it |
| Wire.VarintPrefixFree | example/user.pb.cc:787-791 | no varint is the beginning of another: two length prefixes before the same kind of tail are equal |
| Wire.LittleEndianInverse | src/rpc.pb.cc:238 | fixed-width numbers survive encoding and decoding |
| Wire.ReadRecordInverse | src/rpc.pb.cc:222-290 | a written record, groups inside groups included, is read back with its exact length, whatever follows it |
| Wire.GroupInverse | src/rpc.pb.cc:274-283 | a group ends at its own end tag, whatever records it holds |
| Wire.ParseRecordsInverse | src/rpc.pb.cc:222-290 | any list of records survives encoding and decoding in front of any rest |
| Wire.ParseRecordsConcat | src/rpc.pb.cc:222-290 | if one byte string parses, parsing it with another appended is parsing the two and joining the results |
| Wire.ParseRecordsValid | src/rpc.pb.cc:222-290 | everything that parses consists of valid records |
| Messages.ParseConcat | src/rpc.pb.cc:220-291 | parsing two byte strings in a row is parsing the second into the result of the first, for every message type |
| Messages.ParseSerialized | src/rpc.pb.cc:388-412 | merge law: parsing serialized b into any message a gives b merged into a, submessages recursively |
| Messages.ConcatIsMerge | example/user.pb.cc:836-852 | "Last One Wins": the bytes of a and then of b parse to the merge of b into a |
| Messages.MergedField | src/rpc.pb.cc:388-412 | field by field, a merge takes what the later message sets and else what the earlier one has; submessages that both have are merged the same way; unknown records are joined |
| Messages.RoundTrip | example/user.pb.cc:504-575 | every well-formed message of every type survives serializing and parsing, omitted defaults, empty submessages and negative numbers included |
| Messages.ParseWellFormed | example/user.pb.cc:975-1028 | whatever bytes are accepted, every parsed number is in the range of its field's type, at any depth |
| Messages.Normalise | src/rpc.pb.cc:220-336 | serializing what was parsed from any accepted bytes and parsing again changes nothing, unknown records and groups included |
| Messages.FrameworkSchemas | example/user.pb.cc:551-575 | the laws apply to every message type of the framework |
| Messages.FoldPermuted | src/rpc.pb.cc:225-272 | records of different fields may be applied in any order |
| Messages.ParsePermuted | src/rpc.pb.cc:225-272 | the same over bytes: every permutation of the encoded fields parses to the same message |
| Generated.RpcHeader.Clear | src/rpc.pb.cc:205-218 | leaves the default message |
| Generated.RpcHeader.InternalParse | src/rpc.pb.cc:220-291 | the parse loop accepts exactly the bytes that the reference parser accepts and produces its message, starting from any message |
| Generated.RpcHeader.ParseFromString | src/RPCChannel.cc:158-162 | parses into a cleared header |
| Generated.RpcHeader.InternalSerialize | src/rpc.pb.cc:293-336 | the write pass produces the message's encoding |
| Generated.RpcHeader.ByteSizeLong | src/rpc.pb.cc:338-379 | the size pass, in its own field order, equals the number of bytes the write pass produces |
| Generated.RpcHeader.SerializeToString | src/RPCChannel.cc:37-41 | succeeds exactly below 2 GiB, with the message's encoding |
| Generated.RpcHeader.MergeFrom | src/rpc.pb.cc:388-412 | merges fields and unknown records as the reference merge does and leaves the source alone |
| Generated.RpcHeader.CopyFrom | src/rpc.pb.cc:414-419 | makes the receiver equal to the source, self-copy included |
| Generated.ResultCode.InternalParse | example/user.pb.cc:267-311 | agrees with the reference parser, negative int32 included |
| Generated.ResultCode.InternalSerialize | example/user.pb.cc:313-337 | produces the message's encoding; a negative errcode takes ten bytes |
| Generated.ResultCode.ByteSizeLong | example/user.pb.cc:339-360 | equals the number of bytes written, and is what the cache holds afterwards |
| Generated.ResultCode.MergeFrom | example/user.pb.cc:369-384 | agrees with the reference merge |
| Generated.LoginResponse.InternalMutableResult | example/user.pb.h:1236-1243 | a missing submessage becomes an empty one, a present one is kept |
| Generated.LoginResponse.InternalParse | example/user.pb.cc:734-777 | agrees with the reference parser; a second occurrence of the submessage is merged into the first |
| Generated.LoginResponse.ByteSizeLong | example/user.pb.cc:806-827 | equals the number of bytes written, and leaves the right size in the submessage's cache |
| Generated.LoginResponse.InternalSerialize | example/user.pb.cc:779-804 | the output is the message's encoding if and only if the submessage's cached size is right |
| Generated.LoginResponse.SerializeToString | example/user.pb.cc:779-827 | a size pass followed by a write pass always yields the message's encoding |
| Generated.LoginResponse.MergeFrom | example/user.pb.cc:836-852 | merges the submessage instead of replacing it |
| Generated.CachedPrefix | example/user.pb.cc:785-791 | a submessage written with a length taken from elsewhere is readable as such exactly when the length is its own |
| Framing.BigEndianInverse | src/RPCChannel.cc:52-57 | the length prefix is read back as the length written, for every 32-bit length |
| Framing.FrameTaken | src/RPCChannel.cc:138-163 | the receiver takes exactly the header the sender framed and leaves what follows |
| Framing.FrameTakenOnlyIfFits | src/RPCChannel.cc:142-146 | a frame is taken if and only if it is at most 64 MiB long; a longer one blocks the stream |
| Framing.TakeFrameExtend | src/RPCChannel.cc:138-163 | a decision taken on some bytes is not changed by bytes that come later |
| Framing.BlockedForGood | src/RPCChannel.cc:142-146 | once a stream has led to an invalid length, no bytes that follow make the receiver decode anything more |
| Framing.TakeFromJammed | src/RPCChannel.cc:138-163 | a receiver of well-formed traffic, cut anywhere, waits, takes the oldest frame, or meets an invalid length exactly where a frame is too long; it never finds a header that does not parse |
| Framing.OnMessageDecodes | src/RPCChannel.cc:134-165 | headers dispatched by one activation, followed by the reference decoding of what it left, are the reference decoding of the input |
| Framing.FeedDecodes | src/RPCChannel.cc:134-165 | chunk independence for every stream and every split into arrivals |
| Framing.FeedConsumesPrefix | src/RPCChannel.cc:153-155 | bytes consumed followed by bytes unread are the bytes received |
| Framing.TimelyDispatch | src/RPCChannel.cc:159-162 | every split dispatches the whole reference decoding if and only if no decodable frame lies behind a header that does not parse |
| Framing.StuckFrame | src/RPCChannel.cc:159-162 | a nine-byte arrival after which a complete valid frame stays in the buffer |
| Framing.FramesDecode | src/RPCChannel.cc:50-59 | the frames of any list of headers decode to that list |
| Framing.TakeFromFrames | src/RPCChannel.cc:138-151 | a receiver of whole frames, cut anywhere, waits or takes the oldest one; nothing is invented or skipped |
| Framing.FrameStreamRoundTrip | src/RPCChannel.cc:134-165 | any list of fitting headers, framed, cut into any chunks and fed, is dispatched in order and leaves the buffer empty |
| Encodings.VarintAt | src/rpc.pb.cc:298-301 | byte i of a varint carries the i-th seven bits, with the high bit on all but the last byte |
| Encodings.VarintLength | src/rpc.pb.cc:298-301 | a varint has no more bytes than its number needs |
| Encodings.VarintRead | src/rpc.pb.cc:229 | a varint is read exactly when a byte without the high bit comes within the limit, and then as the seven bits of each byte up to it |
| Encodings.LittleEndianAt | src/rpc.pb.cc:238 | byte i of a fixed-width number has the weight 256 to the power i |
| Encodings.NegativeTakesTen | example/user.pb.cc:313-337 | every negative int32 is encoded in ten bytes |
| Encodings.NarrowMeans | example/user.pb.cc:267-311 | what is read is cut to the field's type: the signed or unsigned low 32 bits, or whether it is not zero |
| Encodings.RequestBytes | src/RPCChannel.cc:28-41 | a request's header byte by byte: no type, tag 17 and the id in eight bytes, then tags 26, 34 and 42 with service, method and payload, empty ones left out |
| Encodings.ResponseBytes | src/RPCChannel.cc:180-189 | a response's header byte by byte: the type 1, the id, the payload, and nothing else |
| Encodings.ResultCodeBytes | example/user.pb.cc:313-337 | a result code byte by byte |
| Encodings.LoginRequestBytes | example/user.pb.cc:551-575 | a login request byte by byte |
| Encodings.LoginResponseBytes | example/user.pb.cc:779-804 | a login response byte by byte; an absent result is not written, an empty one is |
| Encodings.RegisterRequestBytes | example/user.pb.cc:1030-1060 | a register request byte by byte |
| Encodings.FrameBytes | src/RPCChannel.cc:50-59 | the length prefix counts itself and comes most significant byte first |
| Encodings.SuccessFrame | src/RPCChannel.cc:190-197 | the nineteen bytes of the answer "success" to call 7 |
| Encodings.FrameLimit | src/RPCChannel.cc:142-146 | a frame of at most 67108864 bytes is taken and a longer one is refused |
| Encodings.LengthLimits | src/RPCChannel.cc:142-146 | of all four-byte lengths exactly those from 4 to 67108864 are not refused |
| Channel.DispatchRequest | src/RPCChannel.cc:94-131 | the server starts exactly the method the caller named on exactly the caller's message, and drops the request exactly when the method is not registered |
| Channel.RPCChannel.SetConnection | src/include/RPCChannel.h:39-41 | changes the connection and nothing else: table and ids survive a reconnect |
| Channel.RPCChannel.CallMethod | src/RPCChannel.cc:16-63 | the call's whole effect: failed serialization leaves the table alone, a missing connection still registers the call, otherwise one frame is handed to the connection; it fails exactly when the request or the header does not serialize or there is no connection |
| Channel.RPCChannel.RunDone | src/RPCChannel.cc:89-92 | the closure runs with the entry already gone and makes its calls in order: when they serialize, each takes the next id and has its own entry, all other entries are kept, and exactly the frames of their headers are handed to a live connection |
| Channel.AfterCallsMeans | src/RPCChannel.cc:89-92 | what calls made one after the other do to ids, table and stream, in terms of the calls alone |
| Channel.RPCChannel.OnRPCMessage | src/RPCChannel.cc:65-132 | a response completes exactly the call in the table under its id, with the parsed payload, and then its closure's calls are made; a request starts exactly the method it names on the parsed payload; any other header changes nothing |
| Channel.RPCChannel.OnMessage | src/RPCChannel.cc:134-165 | the loop handles exactly the headers the reference activation yields, in order, leaves its rest unread, and shuts down only at an invalid length |
| Channel.RPCChannel.DoneCallback | src/RPCChannel.cc:172-198 | appends exactly one response frame, or nothing when something does not serialize; its bytes are those of `Encodings.ResponseBytes` and `Encodings.FrameBytes` |
| RpcSystem.StepInv | src/RPCChannel.cc:16-209 | every step of client, streams and servers keeps the invariant that places every call, for frames of any length |
| RpcTheorems.EveryCallInOnePlace | src/RPCChannel.cc:43-131 | in every reachable state a call underway is in exactly one place, over byte streams, chunks, reordering and reconnects |
| RpcTheorems.StreamsNeverBreak | src/RPCChannel.cc:134-165 | in every reachable state a receiver waits, holds a whole parseable frame, or meets an invalid length because a frame over this connection was too long; a client takes only responses, each to a call in its table |
| RpcTheorems.Correlation | src/RPCChannel.cc:71-92 | a closure that ran has the response which the named method produced for that call's own request |
| RpcTheorems.HandlerFinishesOnce | src/RPCChannel.cc:129 | when a service method finishes a call, no response to that call existed before |
| RpcTheorems.DoneRunsOnce | src/RPCChannel.cc:72-92 | a closure runs only for a call in the table that has not run, and the entry leaves the table with it |
| RpcTheorems.IdsAreFresh | src/RPCChannel.cc:30-47 | ids strictly increase, registering overwrites no entry and revives no finished call, and a call is in the table before its frame is sent |
| RpcTheorems.ExactlyOnceDisposed | src/RPCChannel.cc:201-209 | after destruction every call was either completed or deleted, never both and never neither, orphaned ones included |
| RpcTheorems.DestroyDisposes | src/RPCChannel.cc:201-209 | the channel can be destroyed exactly when no thread is inside `CallMethod`, and disposes exactly of the calls in its table |
| RpcLosses.LostIffBad | src/RPCChannel.cc:142-189 | in every reachable state: calls are lost or an end has shut down only if over this connection a frame is too long or an answer did not serialize; on an open connection calls are lost if and only if there is such a call, and every such call is lost |
| RpcLosses.LostNeverCompletes | src/RPCChannel.cc:142-189 | a lost call never completes, and some call over its connection has a frame that is too long or an answer that did not serialize |
| RpcLosses.OversizedBlocks | src/RPCChannel.cc:50-59 | sending a frame that is too long blocks the stream and loses the call |
| RpcLosses.LongHeader | src/RPCChannel.cc:50-59 | a payload of 64 MiB makes a header that serializes and is too long for the receiver |
| RpcLosses.LongLoginBlocks | src/RPCChannel.cc:28-63 | a reachable state, for any services, in which a login with a name of 64 MiB has blocked the connection and is lost |
| RpcLosses.BlockedForever | src/RPCChannel.cc:142-146 | a connection whose stream to the server is blocked stays so in every run while it is open, and no call made over it from then on completes |
| RpcLosses.OversizedAnswerBlocks | src/RPCChannel.cc:190-197 | answering with a frame that is too long blocks the stream to the client and loses the call |
| RpcLosses.AnswersBlockedForever | src/RPCChannel.cc:142-146 | once the stream to the client is blocked, in every run while the connection is open no call over it that was still unanswered completes, and those answered later are lost |
| RpcProgress.QuietStepDecreases | src/RPCChannel.cc:65-198 | every delivery, dispatch, completion, send and shutdown decreases a well-founded measure |
| RpcProgress.EndsFrom | src/RPCChannel.cc:65-198 | from any state of the invariant an infinite sequence of states must leave the quiet steps at some later point |
| RpcProgress.QuietRunsEnd | src/RPCChannel.cc:65-198 | from every reachable state, steps without new calls come to an end |
| RpcProgress.SomeQuietStep | src/RPCChannel.cc:65-198 | while a call is underway some step can be taken, and one that loses nothing: no deadlock |
| RpcProgress.RestIsDrained | src/RPCChannel.cc:65-198 | at rest the only calls left in the table were made without a connection, went over a connection that closed, named a method the server lacks, or were lost on a connection over which a frame was too long or an answer did not serialize |
| RpcProgress.RestCompletes | src/RPCChannel.cc:65-198 | a run without new calls that has come to rest has completed every call that was underway when it began unless it was lost, and every such call if over its connection no frame was too long and every answer serialized |
| RpcProgress.ConnectionDrainsIff | src/RPCChannel.cc:65-198 | at rest all calls that went over an open connection to methods of the server are completed and out of the table, if and only if over that connection no frame was too long and every answer serialized |
| RpcProgress.TableEmpties | src/RPCChannel.cc:16-198 | when every call in the table or being made has an open connection and a method of the server, every frame fits and every answer serializes, then at rest the table is empty and every call ever made is completed |
| RpcProgress.CanComeToRest | src/RPCChannel.cc:65-198 | every state of the invariant can come to rest without new calls |
| RpcProgress.CanBeAnswered | src/RPCChannel.cc:65-198 | a call underway on a connection with nothing too long on it can always be brought to its closure |
| RpcProgress.EveryCallCanBeAnswered | src/RPCChannel.cc:16-198 | from every reachable state, a call that fits, over such a connection, to a method the server has, can reach its own closure |
| RpcSteps.CallMethodSteps | src/RPCChannel.cc:28-63 | `CallMethod` is three steps of the system with the same id, table and bytes, with a connection, without one, or with one that has stopped sending |
| RpcSteps.FailedCallSteps | src/RPCChannel.cc:22-41 | a call that does not serialize is the step that burns an id, or none |
| RpcSteps.CompletionSteps | src/RPCChannel.cc:69-93 | handling a response is one step of the system followed by the closure's calls (see `Channel.AfterCallsMeans`) |
| RpcSteps.ActivationSteps | src/RPCChannel.cc:134-165 | one whole `onMessage` of the client is a run of the client's own steps that ends with the same ids, table, completions, connection, unread bytes and sent bytes; one response is taken for each closure that ran, and when their calls serialize exactly these are made, in order, each by taking an id, registering and sending |
| RpcSteps.DispatchSteps | src/RPCChannel.cc:94-131 | handling a request is one step of the system: the same method on the same message |
| RpcSteps.ServerActivationSteps | src/RPCChannel.cc:134-165 | one whole `onMessage` of a server is a run of its own steps that starts the same service methods, for the same calls on the same messages and no others, and leaves the same bytes unread |
| RpcSteps.DoneSteps | src/RPCChannel.cc:172-198 | a finished method's closure is one step of the system with the same bytes, or none when it does not serialize or the connection has stopped sending |
| Pool.StepInv | example/MySQLServer/ConnectionPool.h:52-85 | every atomic piece of the monitor keeps conservation and the no-lost-wake-up invariant, barging and spurious wake-ups included |
| Pool.GetOutcome | example/MySQLServer/ConnectionPool.h:52-76 | null only when a connection could not be created, waiting exactly when none is idle and the pool is full, else a new connection or the one idle longest |
| Pool.PoolConserves | example/MySQLServer/ConnectionPool.h:31-85 | idle and lent connections are distinct and number `currentCount_`; when all are returned all are idle |
| Pool.BoundedIffStartedBounded | example/MySQLServer/ConnectionPool.h:31-55 | `currentCount_` never exceeds `maxSize_` if and only if the constructor did not exceed it |
| Pool.EverySleeperHasAReleaser | example/MySQLServer/ConnectionPool.h:69-85 | while a thread sleeps the pool is full, idle connections do not outnumber woken threads, and if nothing is idle something is lent out |
| Pool.ReleaseServes | example/MySQLServer/ConnectionPool.h:69-85 | whatever barging threads do between a release and the woken thread's return, that thread leaves with a connection, or every connection is lent and a release is still to come |
| Pool.MySQLConnectionPool.constructor | example/MySQLServer/ConnectionPool.h:31-39 | holds each connection that was created exactly once, in the order of creation, and nothing else |
| Pool.MySQLConnectionPool.GetConnection | example/MySQLServer/ConnectionPool.h:52-76 | up to the first wait, one step of the monitor |
| Pool.MySQLConnectionPool.ResumeConnection | example/MySQLServer/ConnectionPool.h:69-75 | from a wake-up to the next wait or the return, one step of the monitor |
| Pool.MySQLConnectionPool.ReleaseConnection | example/MySQLServer/ConnectionPool.h:79-85 | one step of the monitor; releasing nothing does nothing |
| Pool.LoginWith | example/MySQLServer/LoginRegisterServer.cc:27-80 | on every exit path the connection is released exactly once, and the login succeeds exactly on the stored password |
| Pool.HeldAlone | example/MySQLServer/ConnectionPool.h:51-85 | while a thread holds a connection it stays lent and nobody else is given it, in every run |
| Pool.LoginRestores | example/MySQLServer/LoginRegisterServer.cc:27-80 | acquire, at once or after waiting, and release together restore the idle connections, up to growth by one for a thread that did not wait |
| Discovery.AgreesMeans | src/ServiceDiscovery.cc:106-120 | an entry that agrees with the tree has exactly the instances' data, as many as there are, or the node's own data when there are none, and is never empty |
| Discovery.StepInv | src/ServiceDiscovery.cc:83-249 | every step of tree, events, worker and `init` keeps the invariant, but for a harmful overtaking and an instance's new data |
| Discovery.QuiescentConsistency | src/ServiceDiscovery.cc:177-249 | every found method has an event pending or an armed watch and an entry equal to the tree; with no event pending the cache equals the tree |
| DiscoveryProgress.CatchesUp | src/ServiceDiscovery.cc:235-249 | once `init` has returned and the tree stands still, every run of the worker that cannot go on has emptied the queue and left every entry equal to the tree |
| DiscoveryProgress.WorkerStepDecreases | src/ServiceDiscovery.cc:235-249 | the worker gets there: every step it takes decreases a well-founded measure |
| DiscoveryProgress.CanCatchUp | src/ServiceDiscovery.cc:235-249 | from every state of the invariant it can get there |
| DiscoveryLimits.OvertakingHarmlessIff | src/ServiceDiscovery.cc:100-124 | when the worker stores a refresh of the method that `init` has listed, no orderly continuation ends with a wrong entry and nothing pending, if and only if another event is pending or what `init` is about to store will agree with the tree and be watched |
| DiscoveryLimits.OvertakenInitLosesInstance | src/ServiceDiscovery.cc:100-124 | a run that ends with nothing pending for the method, its watch armed and an instance missing from the cache |
| DiscoveryLimits.InstanceDataRightIffAlone | src/ServiceDiscovery.cc:177-223 | an instance's data is set while nothing is pending for its method; whatever the threads and other methods do from then on, whenever nothing is pending for the method again and it had no other change, its entry is that instance's data alone, which agrees with the tree if and only if the instance is the only one, and then the method is watched as before |
| DiscoveryLimits.InstanceRun | src/ServiceDiscovery.cc:177-223 | the worker gets there from every quiet state, and for an only instance the invariant holds again |
| DiscoveryLimits.AloneIsNotEnough | src/ServiceDiscovery.cc:187-223 | from every quiet state of a method with one instance, a run sets that instance's data while it is the only one, and ends wrong with nothing pending: an older event of the method was still in the queue |
| DiscoveryLimits.InstanceDataLosesInstance | src/ServiceDiscovery.cc:187-223 | a run on a method with two instances that loses one for good by setting the other's data |
| DiscoveryClient.KeysDiffer | src/ServiceDiscovery.cc:158 | different methods have different cache keys |
| DiscoveryClient.ServiceDiscovery.ReadInstances | src/ServiceDiscovery.cc:113-119 | reads as many hosts as were listed, each by a step of the system, whatever other threads do in between |
| DiscoveryClient.ServiceDiscovery.Refresh | src/ServiceDiscovery.cc:102-124 | list and read are an orderly run of the system under any interference, and the store is its last step; the invariant is kept by `init` always, by the worker once `init` has returned or when its store overtakes harmlessly |
| DiscoveryClient.ServiceDiscovery.RefreshInstance | src/ServiceDiscovery.cc:200-222 | on an instance's path the method's entry becomes the data of that instance alone, whatever other threads do |
| DiscoveryClient.ServiceDiscovery.InitCache | src/ServiceDiscovery.cc:83-127 | finds every method that was in the tree when it started, except below "zookeeper", while the tree and the worker go on |
| DiscoveryClient.ServiceDiscovery.EnqueueEvent | src/ServiceDiscovery.cc:227-233 | the oldest event in flight goes to the end of the queue and the invariant is kept |
| DiscoveryClient.ServiceDiscovery.HandleEvent | src/ServiceDiscovery.cc:187-223 | a path that names no method changes nothing; on any other path the worker's store for exactly that node comes last; on a method's path the entry is up to date afterwards or another event for it is pending; on an instance's path the entry is that instance's data alone; the queue only grows |
| DiscoveryClient.ServiceDiscovery.HandleNext | src/ServiceDiscovery.cc:235-249 | one turn of the worker takes the oldest event off the queue, and its last step is the store for that event's node; behind it the queue only grows |
| DiscoveryClient.LawfulStep | src/ServiceDiscovery.cc:177-249 | every event, watch and task is for a method that is there and has a path that `handleEvent` takes apart again, after any step, orderly or not |
| DiscoveryClient.ServiceDiscovery.ProcessEvents | src/ServiceDiscovery.cc:235-249 | the worker's loop, with `init` running or not, handles the queue's events oldest first, each by one turn that begins where the one before it stored; it comes back only when stopped with the queue empty, when there is nothing to handle, or after the given number of events; after `init` has returned every handled method is up to date or has an event pending, and then, or when none of its stores overtakes `init` harmfully, the loop is an orderly run that keeps the invariant |
| DiscoveryClient.ServiceDiscovery.PickHost | src/ServiceDiscovery.cc:156-174 | some host of the method's entry, and an error exactly when there is none |
| Paths.Split | src/ServiceDiscovery.cc:7-17 | the non-empty pieces between delimiters |
| Paths.PiecesAt | src/ServiceDiscovery.cc:7-17 | at any delimiter the pieces are those before it and those behind it |
| Paths.PiecesWhole | src/ServiceDiscovery.cc:7-17 | without a delimiter the string is the one piece, unless it is empty |
| Paths.SplitPath | src/ServiceDiscovery.cc:191-197 | splitting a path gives back the names it was built from |
| Paths.PathsDiffer | src/ServiceDiscovery.cc:94-100 | different lists of names make different paths |
| Address.StoiToString | src/RPCServer.cc:104 | every int is read back as it was printed |
| Address.StoiForms | example/LoginRegisterService/RpcClientWithReconn.cc:36 | `std::stoi` in general: white space, a sign, a number and any rest; it throws exactly when the number is no 32-bit int |
| Address.AddressAsPrinted | src/RPCServer.cc:104 | numbers are printed in decimal, an address is its ip, a colon and its port |
| Address.GetAddrElse | example/LoginRegisterService/RpcClientWithReconn.cc:28-36 | a fixed address when there is no colon; else the part before the first colon and the 16-bit number behind it, or an exception when none can be read |
| Address.GetAddrInverse | example/LoginRegisterService/RpcClientWithReconn.cc:27-35 | a client reaches the published address if and only if the ip has no colon and the port is a 16-bit number |
| Registry.ZooKeeper.Create | src/Zookeeperutil.cc:66-82 | succeeds on an existing node, which it leaves alone, or below an existing persistent parent |
| Registry.RpcServer.NotifyService | src/RPCServer.cc:11-45 | a service's table leads from each method name to the first method so named; a second service of the same name is ignored |
| Registry.RpcServer.RegisterMethod | src/RPCServer.cc:95-107 | one turn of the inner loop: creates parent before child, and succeeds if and only if neither node above the instance is ephemeral |
| Registry.RpcServer.RegisterService | src/RPCServer.cc:89-114 | one turn of the outer loop, for the methods in any order |
| Registry.RpcServer.Register | src/RPCServer.cc:85-114 | the loops succeed if and only if no node that must carry a child is ephemeral; then the tree has exactly the planned nodes more, stays prefix-closed, and the recorded paths are the instances |
| Registry.SameTreeInAnyOrder | src/RPCServer.cc:85-114 | the same servers leave the same tree in any order |
| Registry.RegistrableAfter | src/RPCServer.cc:89-107 | one server's registration neither enables nor prevents another's |
| Registry.AllRegister | src/RPCServer.cc:85-114 | from any prefix-closed tree, servers that could each register alone all register one after the other and keep it prefix-closed |
| Registry.InstanceIsOwn | src/RPCServer.cc:100-107 | a server writes an instance below a method exactly when it offers that method, and only under its own address |
| Publishing.InstanceComesFrom | src/RPCServer.cc:97-107 | every instance after registration was there before or leads to a server that offers the method |
| Publishing.RegisteredMethodIsSeen | src/ServiceDiscovery.cc:88-100 | a method that some server offers is in the tree that `init` reads |
| Publishing.PickedHostIsPublished | src/ServiceDiscovery.cc:156-174 | while servers come and go, at every quiet moment a found method has a host, every live instance is among its hosts, and every host leads `getAddr` to a server that offers the method or is the data of an earlier instance; only without instances it is the node's own data |
| Publishing.RegisteredServersAreHosts | src/RPCServer.cc:97-107 | while nothing has come or gone since registration, every server that offers the method is among its hosts |
| Clients.RpcClientWithReconn.OnConnection | example/LoginRegisterService/RpcClientWithReconn.cc:85-111 | is the client's move for a connection that came up or went down: coming up, exactly one login is made and is live; going down, the loop ends exactly when no requests remain, for positive N exactly when all N calls are completed; the count over the whole system stays right |
| Clients.RpcClientWithReconn.OnLoginDone | example/LoginRegisterService/RpcClientWithReconn.cc:125-142 | is the client's move for a response taken off a connection: one more call is completed, the count stays right; while requests remain exactly one more login is made, with the next id, and is live; it asks to disconnect exactly when at least N calls are completed |
| Clients.AnswerIsLive | example/LoginRegisterService/RpcClientWithReconn.cc:125-131 | an answer is only ever for a call that went over the connection that is up, is in the table and never ran |
| Clients.ExactCountdown | example/LoginRegisterService/RpcClientWithReconn.cc:85-142 | over every behaviour of network, servers and connections, every answer counts down by one, completions and remaining requests add up to N, at most one call is live, the latest one is while the connection is up and requests remain, and for positive N the loop quits with all N completed |
| Clients.OrphansStay | example/LoginRegisterService/RpcClientWithReconn.cc:93-105 | every call is completed or in the table, and only the live one can still be completed |
| Clients.QuitsOnlyAtZero | example/LoginRegisterService/RpcClientWithReconn.cc:96-109 | the loop quits only at 0, in every run, if and only if N is at least 1 |
| Clients.RpcClient.OnConnection | example/LoginRegisterService/RpcClientConcc.cc:66-78 | is the client's move: coming up, exactly N logins are made, with the next N ids, all of them live, and none more is completed; going down, none is made and the loop ends |
| Clients.RpcClient.OnLoginDone | example/LoginRegisterService/RpcClientConcc.cc:93-104 | is the client's move for a response taken off a connection: one more call is completed, and it asks to disconnect exactly when these are all N |
| Clients.DisconnectsOnceAtTheLast | example/LoginRegisterService/RpcClientConcc.cc:66-104 | over every behaviour of network, servers and connection, a lost one included, the client disconnects exactly once, at its N-th completion, after which none can follow; with N below 1 never |
| ClientsProgress.CanQuitAtZero | example/LoginRegisterService/RpcClientWithReconn.cc:85-142 | for every positive N and a login that the server can answer, some run completes all N calls and quits at 0 |
| ClientsProgress.CanDisconnect | example/LoginRegisterService/RpcClientConcc.cc:66-104 | for every positive N and such a login, some run completes all N calls and disconnects once |

## Left out

- Discovery.QuiescentConsistency: for orderly runs. Which overtakings are orderly is exact (`DiscoveryLimits.OvertakingHarmlessIff`); setting an instance's data is excluded from them and judged exactly for moments at which nothing is pending for its method (`DiscoveryLimits.InstanceDataRightIffAlone`); at other moments it can do harm even to an only instance (`DiscoveryLimits.AloneIsNotEnough`).
- Messages.RoundTrip: the library's limit of 100 nested messages and groups is not modelled.
- Generated.LoginResponse.MergeFrom: the two messages do not share a submessage, as owned submessages never do.
- Framing.FrameStreamRoundTrip: for headers whose frame is at most 64 MiB; longer ones are covered by `FrameTakenOnlyIfFits` and `BlockedForGood`.
- RpcTheorems.Correlation: ids below 2^63; client and server agree on the messages of the methods they both know.
- RpcProgress.QuietRunsEnd: every started service method can finish by running its closure once.
- Pool.MySQLConnectionPool.GetConnection: the wait loop is cut at its waits into `GetConnection` and `ResumeConnection`, since other threads run in between.
- DiscoveryClient.ServiceDiscovery.HandleEvent: a listing that fails because the instance is gone leaves the source's child vector uninitialized; the model takes it for empty. For a path with fewer than two parts the log line reads parts that do not exist; the model only returns.
- DiscoveryClient.ServiceDiscovery.RefreshInstance: the steps of other threads in between are orderly ones, so no instance's data is set meanwhile.
- DiscoveryClient.ServiceDiscovery.ProcessEvents: the unbounded loop is modelled for any number of turns; waiting is returning. That the worker gets to the end of its queue is `DiscoveryProgress.CatchesUp`.
- DiscoveryClient.ServiceDiscovery.PickHost: the choice is any valid index; the random distribution is not modelled.
- `LoginRequest`, `RegisterRequest` and `RegisterResponse` as classes: they are covered as schemas by the theorems of `Messages`, which hold for every message type.
- Protobuf arenas, reflection, swap and descriptors.
- A service method that finishes after its connection has closed: its response vanishes in the model; the lifetime of the server's channel object is not modelled.
- A response object whose payload did not parse: only that its parse failed is recorded.
- Methods created after `init`, deletion of service and method nodes, ZooKeeper sessions, and host strings of more than 128 bytes.
- The counter of connections in `OnConnection` (src/RPCServer.cc:126-147): one addition and one subtraction.
- Sockets, event loops, timers, signals, sleeps, `Cleanup`, `QueryServiceHost`, MySQL itself, logging and configuration.
