# A model of the gateway, with proofs

The gateway speaks three chat protocols to its clients (OpenAI Chat, Anthropic Messages, OpenAI Responses) and two to
its upstreams. A request is parsed into a neutral form, sent to one of several channels with failover between
channels and keys, and the answer is written back in the client's protocol, as a stream of server-sent events or at
once. This project models that path in Dafny and proves what the pieces promise together.

| module | what it holds |
|---|---|
| `Ir`, `Json`, `CodecExists`, `Text`, `Wrappers`, `Conversation` | stream events and the transcript a client assembles from them; JSON values and Go's struct decoding, and a codec for them; strings; requests |
| `OpenAIStream`, `OpenAIWriter` | the OpenAI chunk parser, the OpenAI stream writer, and reading back what was written |
| `AnthropicWriter`, `AnthropicParser`, `AnthropicRoundTrip` | the Anthropic stream writer with its grammar, the frame parser, and their composition |
| `CrossProtocol`, `OpenAIClient`, `AnthropicToOpenAI` | meaning kept from an OpenAI upstream to an Anthropic client, and the other way round |
| `JsonView`, `OpenAIWire`, `AnthropicWire` | what stream documents say, read off their JSON members without the decoders, and that the decoders agree |
| `ResponsesWriter` | the Responses stream writer and its closing snapshot |
| `Sse`, `AnthropicSse` | the same streams as text: line scanner, framing, the adapters' read loops |
| `Rotation`, `Places`, `Keys`, `Failover`, `Dispatch`, `Liveness`, `AttemptLimit`, `Router` | permutations, round robin, places in lists; key selection and cooldown; the dispatch loops as run functions; their runs described from outside; what runs guarantee; how many attempts a channel can get; the router object |
| `Fold` | folding system messages in place, on an array shared with the caller |
| `OpenAICodec`, `AnthropicCodec`, `AnthropicCodecRoundTrip`, `DataUrl` | request parsers and serialisers, image data URLs |
| `OpenAIRequest`, `AnthropicRequest`, `AnthropicBody` | what request bodies say and which are accepted, and what the bodies sent upstream consist of, member by member |
| `Health`, `Cache`, `CachedChat`, `Handler` | the health checker, the response cache, the cached request path, the stream handler |
| `Gateway` | from the text of an upstream's answer to what the client reads, through all of it |

## How the source is read

- Every object the source updates in place is a class whose methods equal a function of the old state; the theorems
  are about those functions. Loops of the source are loops here.
- What a document or a request means is defined on JSON members in modules of its own, and what a run does on routes,
  keys and answers; parsers, serialisers and dispatch loops are proved to agree with these definitions.
- A *world* gives the upstream replies, the clock, random choices and the fate of writes, in any way whatever; a reply
  may depend on the attempt number, the route and the key.
- JSON text is a codec: a pair of functions where decoding inverts encoding, no text is empty, and objects are printed
  on one line between braces. `CodecExists.ValidCodec` shows that there is one. Numbers are integers and finite
  decimals, which include every finite float64. A response is an opaque value in `Failover`, `Cache` and `CachedChat`.
- Parsers work on JSON values, `Sse` and `AnthropicSse` on text.

## Where code and documentation differ

The model follows the code.

- `internal/router/router.go:198-199` speaks of at most two attempts a channel. Nothing enforces it:
  `AttemptLimit.TwoAttemptLimit` says for which channels it can be exceeded, `AttemptLimit.OneKeyEach` and
  `AttemptLimit.KeylessChannel` show runs.
- `REQUIREMENTS.md:160` promises one retry, on another channel, after a 5xx or network error. The loops go on until
  min(2n,4) attempts are made or an answer is final: `AttemptLimit.OneRetry` says exactly when there can be more
  than one, and when the retry can be on the same channel; `AttemptLimit.SecondRetry` and
  `AttemptLimit.SoleChannelRetries` show runs.
- `internal/protocol/anthropic.go:563` promises tool results inside a user message. They keep the role `tool`
  (`AnthropicCodecRoundTrip.RolesOnTheWire`).
- A retry is meant to resend the conversation. After a fold that went through, it sends the array the fold left
  behind, and `Fold.Retry` says exactly when that is still the conversation.
- Responses deltas carry an `output_index` that is not the position of their item
  (`internal/protocol/responses.go:312`, `internal/protocol/responses.go:340`), and call items in the final snapshot
  have empty arguments (`internal/protocol/responses.go:325-328`). Both are modelled as they are:
  `ResponsesWriter.OutputIndexMeaning` says when the index is right, `ResponsesWriter.SnapshotLosesArguments` when the
  snapshot's calls are those of the stream.
- The cache key leaves out the protocol of the request (`CachedChat.ProtocolsShareEntries`).

## Model

| member | source | states |
|---|---|---|
| OpenAIWire.OpenAIToAnthropic | internal/protocol/openai.go:445-478 | For every list of chunk documents closed by the end marker, read off their JSON members (every delta text, index, id, name and arguments of every tool_calls entry, the last non-empty finish_reason, the last usage object whatever choices come with it): parsed, written by the Anthropic writer and read again, text, calls in order, canonical finish reason and usage (absent when both counts are 0) are those; an empty id becomes `toolu_` and the block number, no two calls share a block, and the "delta before start" error never occurs |
| OpenAIWire.DocItems | internal/protocol/openai.go:445-478 | Any document in a data line is refused iff a member the parser reads has the wrong kind; otherwise it says its usage and then, choice by choice, finish reason, text and each tool entry with all its fields |
| OpenAIWire.ChunksSay | internal/protocol/openai.go:445-478 | Over any list of chunks what is read item by item is what the JSON members say |
| OpenAIWire.WrittenChunks | internal/protocol/openai.go:496-549 | Every chunk written for a client carries the id and model of its stream and has one choice, number 0, whose tool entries are functions |
| CrossProtocol.ItemsToAnthropic | internal/protocol/openai.go:445-478 | The same on items: any decodable lines closed by the end marker keep their meaning through the Anthropic writer and back |
| CrossProtocol.AnthropicClientMeaning | internal/protocol/anthropic.go:324-483 | For every event list, whatever its order, an Anthropic client that reads the finished stream assembles the transcript of the events |
| CrossProtocol.TranslationMatches | internal/protocol/anthropic.go:352-383 | Renaming tool indices to block numbers and adding the closing stops keeps the transcript, event by event |
| CrossProtocol.ParserUnderstands | internal/protocol/openai.go:445-478 | The events of the OpenAI parser assemble to what its chunks say by an independent definition: concatenated text, first fragments as heads, joined arguments, last finish reason, last usage |
| CrossProtocol.ParserStartsFirst | internal/protocol/openai.go:461-473 | The OpenAI parser announces every tool before its first arguments |
| AnthropicToOpenAI.AnthropicUpstreamToOpenAIClient | internal/upstream/anthropic.go:81-110 | The other direction, from any text an Anthropic upstream sends, with whatever documents in it, readable to its end or not: the OpenAI client assembles what the readable part says (text, calls, finish reason, usage, defined on the JSON members of the documents; `tool_use` is told as `tool_calls`, `max_tokens` as `length`, any other reason as `stop`) iff its tool_use blocks have distinct indices |
| AnthropicWire.EventDecodes | internal/protocol/anthropic.go:740-763 | Any document is taken as an event iff its members have the right kinds, and each member is read as it is |
| AnthropicToOpenAI.EventsToClient | internal/protocol/anthropic.go:783-841 | The same for any list of decoded events, closed normally or by an error |
| AnthropicToOpenAI.EventsHeard | internal/protocol/anthropic.go:783-841 | For any list of decoded events the parser keeps exactly the started blocks, the last stop reason and the last usage; its events say what the upstream said, with arguments only after their start, and end with the done |
| AnthropicToOpenAI.PayloadsHeard | internal/upstream/anthropic.go:81-104 | Reading fails exactly at a payload that cannot be decoded or at an error event before message_stop, and keeps the events before it |
| OpenAIClient.OpenAIClientMeaning | internal/protocol/openai.go:496-570 | For every event list whose arguments follow their starts, as those of both parsers do, closed normally or by an error, late events included: an OpenAI client assembles the transcript of the events iff no tool is started a second time |
| OpenAIClient.RepeatedStartsMerge | internal/protocol/openai.go:464-467 | Otherwise the client has one call for each index, fewer than the events have starts |
| Gateway.FromOpenAIUpstream | internal/api/chat.go:172-209 | End to end: when a streamed request succeeds and its last call answered with this text from an OpenAI upstream, the client of each of the three protocols reads what the chunk documents of the text say, up to the end marker or the first payload that is no chunk; without an end marker an empty done closes it |
| Gateway.BodyFails | internal/upstream/openai.go:87-106 | Reading an OpenAI stream fails iff some payload is neither a chunk nor the end marker |
| Gateway.FromAnthropicUpstream | internal/api/chat.go:172-209 | The same for an Anthropic upstream whose tool_use blocks have distinct indices |
| Gateway.OpenAIEventsMean | internal/protocol/openai.go:445-478 | For any items, with an end marker anywhere or nowhere: the parser's events, closed, assemble to what the items before the marker say |
| OpenAIWriter.Retraction | internal/protocol/openai.go:496-583 | For every upstream list of data lines, readable or not, aborted or not: reading back what the writer wrote gives the parsed events cut after their first done, or closed by an empty done when none came |
| OpenAIWriter.WrittenItems | internal/protocol/openai.go:496-549 | What the parser finds in the writer's payloads is the wire form of the events up to the first done |
| OpenAIWriter.RetractItems | internal/protocol/openai.go:445-478 | Parsing inverts writing on everything the parser can produce |
| OpenAIStream.OpenAIStreamParser.Feed | internal/protocol/openai.go:445-478 | One line of the stream: the new parser state and the events are those of the flat run over the line's items, and an unreadable line changes nothing (what the items are is said by `OpenAIWire.DocItems`) |
| OpenAIStream.OpenAIStreamParser.FeedTool | internal/protocol/openai.go:461-473 | One tool fragment: a start the first time its index appears, a delta when it has arguments |
| OpenAIWriter.OpenAIChatStreamWriter.WriteEvent | internal/protocol/openai.go:496-549 | The lines written for one event and the done flag, nothing after done |
| OpenAIWriter.OpenAIChatStreamWriter.WriteError | internal/protocol/openai.go:552-560 | An error chunk and the end marker, once |
| OpenAIWriter.OpenAIChatStreamWriter.Finish | internal/protocol/openai.go:563-570 | The end marker if none was written |
| Sse.FramingRoundTrip | internal/upstream/openai.go:87-106 | At line level: reading framed records gives exactly the payloads written, up to the first record whose data line exceeds the 1 MB buffer, and the scanner fails iff there is one (lines are measured in UTF-8 bytes) |
| Sse.ScanMeaning | internal/upstream/openai.go:87-90 | The scanner cuts any text into its lines, the last with or without a newline, up to the first of 1 MB or more, and stops there |
| Sse.LinePayloadMeaning | internal/upstream/openai.go:91-99 | A line gives a payload iff it is a `data:` field with something in it, blanks anywhere around, and then just that |
| Sse.ReadStream | internal/upstream/openai.go:87-109 | The scan loop with its parser computes the reading of the whole body |
| Sse.TextRetraction | internal/upstream/openai.go:86-109 | Retraction on text: a body read, written to the client as text and read again gives the completed events up to the first line that does not fit the scanner; all of them, without failure, iff every line fits |
| AnthropicSse.ReadStream | internal/upstream/anthropic.go:81-110 | The same loop with the Anthropic parser |
| AnthropicSse.TextRoundTrip | internal/protocol/anthropic.go:486-496 | Frames written with their event line and data line are read back as the same frames, with the same failure, up to the first line that does not fit; reading fails there |
| AnthropicSse.ClientReadsMeaning | internal/protocol/anthropic.go:486-496 | From the text of the finished stream the Anthropic client reads the events up to the first line that does not fit; without failure, and with the meaning of the events, iff every line fits |
| AnthropicRoundTrip.RoundTrip | internal/protocol/anthropic.go:783-841 | For every event list: write, close and read back gives the translation of the completed list, and the reader fails iff the stream was closed by an error before any done |
| AnthropicRoundTrip.WellFormedRoundTrip | internal/protocol/anthropic.go:443-483 | For lists that start each tool before its deltas and send none after its stop: the decoded list is the original under an injective renaming of index to block, one stop for each tool left open just before the done |
| AnthropicRoundTrip.NothingRejected | internal/protocol/anthropic.go:365-368 | The writer returns its error exactly for arguments whose index no earlier event started, before any done |
| AnthropicParser.FrameDecodes | internal/protocol/anthropic.go:740-763 | Every frame's payload decodes to the event it stands for |
| AnthropicParser.StartMembers | internal/protocol/anthropic.go:412-425 | The first frame carries id, model, role, empty content and zero counts under their names |
| AnthropicParser.AnthropicStreamParser.Feed | internal/protocol/anthropic.go:783-841 | One frame: the new state and the events or the error; text is decoded even after the parser has stopped |
| AnthropicWriter.WriterGrammar | internal/protocol/anthropic.go:303-496 | For every sequence of WriteEvent, WriteError and Finish, rejected events and late calls included: message_start with the id and model of the stream first and once, blocks numbered 0,1,2,…, every delta in a block of its kind, no text block open when a block starts, each started block stopped once before the only message_delta, message_stop or an error last and nothing after |
| AnthropicWriter.EndingFrames | internal/protocol/anthropic.go:457-483 | A done ends the message with its reason in Anthropic's words, the counts of its usage or zeros, and message_stop |
| AnthropicWriter.RunInv | internal/protocol/anthropic.go:303-496 | The fields of the writer agree with what its frames establish, on every run |
| AnthropicWriter.EndedIsFinal | internal/protocol/anthropic.go:325-327 | After the end no call changes anything |
| AnthropicWriter.AnthropicStreamWriter.WriteEvent | internal/protocol/anthropic.go:324-389 | The whole new state for each kind of event, and the error return |
| AnthropicWriter.AnthropicStreamWriter.WriteError | internal/protocol/anthropic.go:392-402 | An error frame ends the stream, once |
| AnthropicWriter.AnthropicStreamWriter.Finish | internal/protocol/anthropic.go:405-410 | The closing frames if the stream has not ended |
| AnthropicWriter.AnthropicStreamWriter.Close | internal/protocol/anthropic.go:443-454 | The search loop removes the block from the open list and writes its stop, or does nothing |
| AnthropicWriter.AnthropicStreamWriter.CloseAll | internal/protocol/anthropic.go:461-466 | The loop over a copy of the open list closes every block in opening order |
| ResponsesWriter.StreamEndsInSnapshot | internal/protocol/responses.go:370-396 | For every event list then Finish: item ids pairwise distinct, the snapshot's ids are exactly the announced ones, its text is all deltas that name its message item, and it is the last and only terminal frame |
| ResponsesWriter.ClientTranscript | internal/protocol/responses.go:290-350 | Text deltas name the announced message item and each argument delta the item of the latest start of its index, so that a client assembles the transcript of the events |
| ResponsesWriter.RunInv | internal/protocol/responses.go:265-350 | Buffer, ids and output list agree with the frames written, on every run |
| ResponsesWriter.SnapshotLosesArguments | internal/protocol/responses.go:320-328 | The call items of the closing snapshot never have arguments; they are the calls that were streamed iff none of those has arguments |
| ResponsesWriter.FinishedReads | internal/protocol/responses.go:290-396 | A client reads from every finished stream what its events say: text, calls item by item, usage, closed by an empty done if they have none |
| ResponsesWriter.RejectedExactly | internal/protocol/responses.go:333-337 | The writer returns its error exactly for arguments whose index no earlier event started, before any done |
| ResponsesWriter.OutputIndexMeaning | internal/protocol/responses.go:310-342 | The output_index of a delta is the place of the item it names exactly when, for text, no call was started after the first text, and, for arguments, the latest start of their index was the first item of all |
| ResponsesWriter.ResponsesStreamWriter.WriteEvent | internal/protocol/responses.go:290-350 | The whole new state for each kind of event, and the error return |
| ResponsesWriter.ResponsesStreamWriter.Close | internal/protocol/responses.go:370-396 | The message item goes to the front of the snapshot |
| Dispatch.ChatMeaning | internal/router/router.go:70-120 | Every plain run, told without the functions that compute it: attempts at the places of two rounds of the order, at most min(2n,4); each selects a key, calls iff there is one and the type is empty, openai or anthropic, and gives the upstream's answer; 401 and 429 mark that key and stay, a missing key or a retryable error moves on, anything else is the end; channel, error and response are those of the last attempt |
| Dispatch.ChatStreamMeaning | internal/router/router.go:125-183 | The same for every streaming run: the sink gets the last call's events one by one up to the first it refuses, which is a local error, and a run that has handed something over stops |
| Failover.AttemptsAndEnding | internal/router/router.go:70-120 | Every run makes between 1 and min(2n,4) attempts along order++order and goes on until they are spent or an answer is neither rate limiting nor a channel failure; such an answer is the last attempt and is returned as it is; with routes the error is never "model not found" |
| Failover.StreamAttemptsAndEnding | internal/router/router.go:125-183 | The same for every streaming run, in every world and with every sink; it stops also after an event |
| Failover.StreamIsMuted | internal/router/router.go:133-181 | Every streaming run makes the attempts of a plain run in a world where calls emit nothing and errors after an event are final; only the last outcome can differ |
| Failover.ErrorsOfChat | internal/upstream/openai.go:30-56 | Plain calls: a request that cannot be built and HTTP errors below 500 end the request unchanged; 401 and 429 stay on the channel; a 5xx, a network error and a 2xx answer that cannot be decoded go on to the next place while attempts are left |
| Failover.ErrorsOfChatStream | internal/upstream/openai.go:60-110 | Streaming calls: a line that cannot be decoded ends the request, as does any error after an event; the rest as for plain calls |
| Failover.SimulationOfChat | internal/router/router.go:125-183 | Under the same world, with no event before a failure, ChatStream makes the same attempts, leaves the same pool and ends in the same way as Chat |
| Failover.EmissionHasOneSource | internal/router/router.go:133-181 | Everything the client was handed comes from the last call, as a prefix of its events, and all of them on success |
| Router.NotFoundMeaning | internal/router/router.go:186-193 | The model is reported missing, by Chat and by ChatStream, iff no enabled model of that name or alias sits on an active channel |
| Router.RoutesMeaning | internal/store/models.go:239-263 | A request asks for its non-empty redirect or its own model; its routes are one for each enabled model row of that name or non-empty alias on an active channel, in row order, with the fields of those rows; with none the model is missing |
| Router.Router.Dispatch | internal/router/router.go:76-119 | The nested loops end with the same channel, error, response and pool as the run function |
| Router.Router.DispatchStream | internal/router/router.go:133-182 | The same for the streaming loops, with the events handed over |
| Router.Router.Chat | internal/router/router.go:70-120 | Redirect, route lookup and dispatch together |
| Router.Router.ChatStream | internal/router/router.go:125-183 | Redirect, route lookup and streaming dispatch together |
| Router.Router.CallStream | internal/router/router.go:136-160 | Events go to the sink one by one until one is refused |
| Router.Router.ResolveRoutes | internal/router/router.go:186-205 | Routes and order, or the error; the counter moves only when there is a route |
| Liveness.FailoverLiveness | internal/router/router.go:70-120 | A healthy supported channel in the order answers and is reported whenever the attempts that earlier channels (supported, or without any key; their limited keys and one each) and its own limited keys can use stay below min(2n,4) |
| Liveness.StreamCooldownHolds | internal/channel/manager.go:278-318 | The same cooldown property for every streaming run |
| Liveness.StreamLiveness | internal/router/router.go:125-183 | The streaming loop reaches it too |
| Liveness.LeadCanUseTheWholeBudget | internal/router/router.go:198-203 | Nothing is reserved for later channels: a leading channel with as many rate-limited keys as the budget uses all of it, and the request fails however healthy the others are |
| AttemptLimit.TwoAttemptLimit | internal/router/router.go:198-203 | The intended limit of two attempts a channel, counted over all routes of the channel: with decryptable keys, some world breaks it iff there are two routes or more and either a callable route of the channel (known type, a key) is at one of the first two places or three of the first four places are the channel's |
| AttemptLimit.BreakNeeds | internal/router/router.go:198-203 | In any run, three attempts on one channel imply that condition, whatever the keys |
| AttemptLimit.OneRetry | internal/router/router.go:194-203 | The intended single retry on another channel after a 5xx or a network error: with decryptable keys, some world makes more than one further attempt iff there are two routes or more and one of the first two places is callable, more than one further call iff two of the first three are, and retries on the same channel iff a callable place within the budget is followed by a place of the same channel |
| AttemptLimit.StreamLimits | internal/router/router.go:133-181 | The same four conditions for streaming runs |
| AttemptLimit.StreamNeeds | internal/router/router.go:133-181 | In any streaming run, with any client, a broken limit implies its condition |
| AttemptLimit.SecondRetry | internal/router/router.go:82-117 | Two channels with one key each: a 5xx of the first can be followed by two calls of the second |
| AttemptLimit.SoleChannelRetries | internal/router/router.go:194-197 | With a single route the retry after a 5xx is on the same channel |
| AttemptLimit.EverythingDown | internal/router/router.go:82-117 | With every channel down or without a key the attempts go through the places in turn until all min(2n,4) are spent |
| AttemptLimit.NeighboursMeaning | internal/router/router.go:194-197 | Neighbouring places carry one channel for a single route, and when the two routes share a channel |
| AttemptLimit.OneKeyEach | internal/router/router.go:82-117 | Two channels with one key each, the first rate limited and the second failing: the first gets three of the four attempts |
| AttemptLimit.KeylessChannel | internal/router/router.go:82-93 | A channel with two routes and no key gets all four attempts in every world |
| AttemptLimit.TwoRoutes | internal/store/models.go:239-246 | A channel with a model of the asked name and another one of that alias gives two routes |
| AttemptLimit.LookupSharesTypes | internal/store/models.go:239-263 | Whatever a lookup finds, routes of one channel share its type |
| Liveness.CooldownHolds | internal/channel/manager.go:278-318 | When the cooldown outlasts the request, no key that answered 429 or 401 is selected again, and there are at most as many such answers as keys |
| Keys.SelectionMeaning | internal/channel/manager.go:278-312 | One selection, key by key: available are the channel's rows without a cooldown or with one before now, in order; round robin picks at the channel's counter and moves it by one even if the key does not decrypt, any other strategy picks at random and moves nothing; the rest of the pool stays |
| Keys.MarkMeaning | internal/channel/manager.go:315-318 | A cooldown is set to now plus the duration on the rows of the key, and on no others |
| Keys.SelectionIsReady | internal/channel/manager.go:278-312 | A selected key belongs to the channel, decrypts and is not cooling; the two "no key" errors mean exactly: none configured, all cooling |
| Keys.Manager.SelectKey | internal/channel/manager.go:278-312 | The filter loop, the choice and the counter |
| Keys.Manager.MarkKeyFailed | internal/channel/manager.go:315-318 | The key's rows get the new deadline, nothing else changes; a failed write is ignored |
| Keys.Manager.SetCooldown | internal/channel/manager.go:66-70 | Only a positive duration is taken over |
| Keys.RotationIsFair | internal/channel/manager.go:298-303 | Any m consecutive selections over an unchanged set of m available keys return each key exactly once |
| Router.OrderIsPermutation | internal/router/router.go:247-266 | The channel order is a permutation of 0..n-1 under both strategies and every shuffle |
| Rotation.PermutationCovers | internal/router/router.go:247-266 | A permutation has each of 0..n-1 exactly once |
| Router.RoundRobinIsFair | internal/router/router.go:253-257 | Requests resolved one after the other with the counters the one before left, other models and unreadable requests in between: each readable request for a model resolves, and any n of these in a row, n being its number of routes, lead with each route exactly once |
| Router.RoundRobinGoesRound | internal/router/router.go:262-264 | Under round robin the resolved order goes round from its first place |
| Router.EveryOrderIsPossible | internal/router/router.go:258-260 | Under any other strategy every order of the routes comes out for some random choices |
| Router.Router.ChannelOrder | internal/router/router.go:247-266 | The array, the shuffle in place and the rotated reading compute the order, and under round robin the counter moves |
| Router.Router.Shuffle | internal/router/router.go:259 | Fisher-Yates in place on the array |
| Fold.FoldMeaning | internal/protocol/ir.go:111-149 | For any conversation, message by message: without a non-empty system text or a user message nothing changes; otherwise exactly the messages that are not system messages stay, in order and as they are, but for the first user message, whose content has all system texts in front, separated by blank lines: joined to a single text by a blank line, as a part of their own before anything else |
| Fold.FoldSystemIntoUser | internal/protocol/ir.go:111-149 | In place, on the shared array: exits leave everything as it was; otherwise the result is the edited conversation without system messages, and the caller's array holds those followed by the old tail |
| Fold.FilterInPlace | internal/protocol/ir.go:140-146 | The filter over its own backing array: kept messages, then what was there before |
| Fold.PrefixUser | internal/protocol/ir.go:128-139 | The cases of the prefix, as `Fold.FoldMeaning` describes them, one of which writes into a content array that other messages may share |
| Fold.PrepareReq | internal/router/router.go:209-216 | The caller's view is unchanged iff the channel takes system messages or the fold exits |
| Fold.FoldedTwice | internal/protocol/ir.go:111-149 | A second fold changes nothing |
| Fold.FoldIsVisible | internal/protocol/ir.go:140-146 | A fold that goes through always leaves the caller a different conversation |
| Fold.Retry | internal/router/router.go:209-216 | For a freshly parsed conversation a retry sends what a first attempt would have sent iff the attempt before it was on a channel that takes system messages or there was nothing to fold |
| Fold.PrepareAll | internal/router/router.go:76-117 | Over a whole run: all attempts send what a first attempt would iff there is nothing to fold or every attempt but the last is on a channel that takes system messages |
| Fold.FoldsDiffer | internal/protocol/ir.go:111-149 | Folding what an earlier fold left never sends what the earlier one sent, however content arrays are shared |
| Fold.TrailingSystemIsFoldedTwice | internal/protocol/ir.go:140-146 | For `[user, system]` the system message survives in the caller's array and a retry folds it in again |
| Fold.LeadingSystemDoublesTheUser | internal/protocol/ir.go:140-146 | For `[system, user]` the caller's array ends up with the user message twice, and a retry sends it twice |
| OpenAIRequest.ParsedMeaning | internal/protocol/openai.go:73-159 | Any document is accepted iff its members have the right kinds, it names a model, and each content is null, a string or a list of text and image parts; it is then read member by member, a tool without a type being a function |
| OpenAIRequest.SerializedMeaning | internal/protocol/openai.go:205-313 | The body for any request, member by member: null, string or list content, calls and tools of their type, optional members only with something to say, and tool_choice by its full table |
| OpenAICodec.RoundTrip | internal/protocol/openai.go:73-126 | parse∘serialise is the identity up to normalised tool_choice and the default tool type, for every request that names a model, and an error exactly for one that does not |
| OpenAICodec.TextRoundTrip | internal/protocol/openai.go:205-231 | The same on the body text |
| OpenAICodec.UpstreamReadsTheClient | internal/protocol/openai.go:73-126 | Every client body that is accepted reaches an OpenAI upstream with all its fields, tool_choice normalised |
| OpenAICodec.CanonicalIsStable | internal/protocol/openai.go:205-231 | The canonical form is a fixed point and is sent the same way |
| OpenAICodec.NormalizedIsStable | internal/protocol/openai.go:243-277 | Normalising changes exactly the forms an OpenAI upstream refuses, removes all of them, and is idempotent |
| OpenAICodec.ContentRoundTrip | internal/protocol/openai.go:296-313 | String, array and null content come back as the same parts |
| OpenAICodec.ParseOpenAIChatRequest | internal/protocol/openai.go:73-109 | The parsing loops compute the specified request or the first error |
| OpenAICodec.ParseContent | internal/protocol/openai.go:129-159 | The content loop, with its error on the first unknown part |
| OpenAICodec.SerializeOpenAIChatRequest | internal/protocol/openai.go:205-231 | The serialising loops compute the specified body |
| OpenAICodec.ContentPartsToAny | internal/protocol/openai.go:296-313 | The loop over parts and its two short forms |
| AnthropicRequest.ParsedMeaning | internal/protocol/anthropic.go:35-225 | Any document is accepted iff its members have the right kinds, it names a model and limits its tokens, and all blocks are of known types with usable images; it is then read member by member: system text, tool results as messages of their own before the rest of their message, parts in order, calls of assistants only |
| AnthropicRequest.SystemBlocks | internal/protocol/anthropic.go:88-101 | A system given as blocks: the request starts with one system message of the text blocks' texts separated by blank lines, and has none iff that is empty |
| AnthropicBody.SerializedMeaning | internal/protocol/anthropic.go:526-677 | The body for any request, member by member: the system messages' texts separated by blank lines, one message for each other one in order with its blocks, 1024 tokens by default, image sources, tool inputs, and tool_choice by its full table |
| AnthropicCodecRoundTrip.SerialiseParseSerialise | internal/protocol/anthropic.go:526-637 | serialise∘parse∘serialise = serialise iff the request names a model, only assistant messages make tool calls, and base64 images have a media type and data; system and tool messages are free |
| AnthropicCodecRoundTrip.MessageTwice | internal/protocol/anthropic.go:126-181 | The same for one message: it comes back as it was sent iff the protocol carries it; never as more than one message |
| AnthropicCodecRoundTrip.ParsedBack | internal/protocol/anthropic.go:35-77 | The request that comes back: system text as one message, tools typed, max_tokens filled in |
| AnthropicCodecRoundTrip.ClientBodySurvives | internal/protocol/anthropic.go:35-77 | For requests parsed from a client body only incomplete images can break it |
| AnthropicCodecRoundTrip.BlocksBack | internal/protocol/anthropic.go:136-171 | The blocks of a message read back: parts in order, calls kept for the assistant and dropped otherwise, the first image error |
| AnthropicCodecRoundTrip.BlockJsonInjective | internal/protocol/anthropic.go:566-612 | Different blocks are sent differently |
| AnthropicCodecRoundTrip.NormalizedIsStable | internal/protocol/anthropic.go:642-677 | Normalising changes exactly the OpenAI forms and is idempotent |
| AnthropicCodecRoundTrip.RolesOnTheWire | internal/protocol/anthropic.go:548 | Only the roles user and assistant are sent iff the conversation has no other role but system: tool messages go out with role `tool` |
| AnthropicCodec.ParseAnthropicMessage | internal/protocol/anthropic.go:126-181 | One message into 0..n: tool results first, then the content, the calls joined to the last message of the role |
| AnthropicCodec.GatherBlocks | internal/protocol/anthropic.go:140-171 | The loop over blocks, with the first error |
| AnthropicCodec.ParseAnthropicMessagesRequest | internal/protocol/anthropic.go:35-77 | The loops give the request that `AnthropicRequest.ParsedMeaning` describes, or the error for a missing model, missing max_tokens or the first bad message |
| AnthropicCodec.ParseSystem | internal/protocol/anthropic.go:80-102 | The system text, a string or the joined texts of blocks, as `AnthropicRequest.SystemBlocks` describes it |
| AnthropicCodec.ParseBlockContent | internal/protocol/anthropic.go:206-225 | The text of a tool result |
| AnthropicCodec.AnthropicContentToAny | internal/protocol/anthropic.go:566-612 | The block loops and the three short forms |
| AnthropicCodec.SerializeAnthropicMessagesRequest | internal/protocol/anthropic.go:526-560 | The loops over messages, system content and tools compute the specified body |
| DataUrl.JoinSplit | internal/protocol/anthropic.go:184-203 | Joining a split URL gives it back iff its source is complete; it fails iff a base64 source has no data |
| DataUrl.SplitExactly | internal/protocol/anthropic.go:615-637 | A URL splits into a media type and data iff it is `data:`, a comma-free media type, `;base64,` and the data; every other URL is a link as it is |
| DataUrl.SplitJoined | internal/protocol/anthropic.go:615-637 | Splitting a joined source gives it back whenever the media type has no comma |
| DataUrl.SplitMeaning | internal/protocol/anthropic.go:615-637 | What splitting can produce |
| Health.DownIffFailing | internal/channel/health.go:53-90 | A checked channel that starts active is down iff its trailing run of failed pings has reached the threshold; its counter is that run's remainder and stays below the threshold |
| Health.HistoryHolds | internal/channel/health.go:53-90 | The same from any starting status and counter; the counter part holds even when status writes fail |
| Health.UncheckedUntouched | internal/channel/health.go:60-63 | Disabled and untyped channels are never written and lose their counter |
| Health.RoundByChannel | internal/channel/health.go:53-90 | A round does to each channel what it would do to it alone |
| Health.HealthChecker.CheckOnce | internal/channel/health.go:53-90 | The loop over the listed channels: table and counters after the round |
| Health.HealthChecker.Start | internal/channel/health.go:38-50 | One round after the other |
| Cache.CacheRefinesLog | internal/cache/cache.go:54-99 | Under a monotone clock the cache answers what the log of accepted writes says: a hit iff the last accepted write is at most ttl ago, with its value; never more than max entries; a write is accepted iff fewer than max keys are live; live entries are never dropped |
| Cache.KeptStep | internal/cache/cache.go:86-97 | A purge drops expired entries only and leaves room iff fewer than max keys are live |
| Cache.Manager.Get | internal/cache/cache.go:54-74 | Hit, miss, and the lazy removal |
| Cache.Manager.Set | internal/cache/cache.go:77-99 | The write, the purge of a full map, the refusal |
| Cache.Manager.Purge | internal/cache/cache.go:88-94 | The loop over the map |
| Cache.KeyInjective | internal/cache/cache.go:45-51 | Two keys are equal iff token and body are: the framing decimal, zero byte, body is injective |
| CachedChat.TurnMeaning | internal/api/chat.go:93-156 | One request: refused and streamed ones leave the cache alone; a hit iff the cache holds a live, readable answer for token and body that the protocol can present; otherwise the router's answer, stored with its expiry when there is room, other entries going only if expired |
| CachedChat.HitsAreEarlierAnswers | internal/api/chat.go:98-111 | In every run of requests a hit repeats what an earlier request with the same token and body produced, at most ttl ago |
| CachedChat.ProtocolsShareEntries | internal/api/chat.go:100 | The protocol is not part of the key: after a fresh answer the same token and body is a hit through any protocol iff it comes within ttl and the protocol can present the answer |
| CachedChat.Server.Handle | internal/api/chat.go:95-118 | Lookup, fall-through when a hit cannot be presented, dispatch |
| CachedChat.Server.HandleNonStream | internal/api/chat.go:132-156 | Only an answer that could be sent is cached |
| Handler.StreamEndsOnce | internal/api/chat.go:172-209 | For the three writers, whatever is handed over and however dispatch ends: one status, set at most once, one log record; a stream that has begun has status 200 and exactly one terminal marker with nothing after it, and reports an error iff dispatch failed before any done; one that has not begun is empty and its status is the logged one |
| Handler.StatusAndLog | internal/api/chat.go:192-267 | The log record: the channel dispatch ended on; 404 for a missing model, 501 for an unknown type, the upstream's status or 502, else 500 before the stream began; 0 after; 200 with the last usage of a done for a success. A stream that fails without a done ends in the upstream's message |
| Handler.RefusalIsReported | internal/api/chat.go:182-191 | An event the writer refuses is the last one handed over, and the client is told of an error unless it had its done |
| Handler.HandleStream | internal/api/chat.go:172-209 | Status, log and writer state after the whole handler, routing included |
| Handler.Receive | internal/api/chat.go:182-191 | The callback over all events: status before the first, usage of the last done that has one |
| Handler.Settle | internal/api/chat.go:192-208 | The three ways to finish |
| Handler.WriteRouteError | internal/api/chat.go:291-314 | The status written is the status logged |

## Left out

- HTTP, sockets, flushing, timeouts, TLS and headers other than the status: every write to the client succeeds.
- JSON text beyond the codec: case-insensitive member names, number formats, integer width, duplicate members.
- Raw JSON in tool arguments is compared as parsed values; spacing inside it is not modelled.
- Tool parameters that are not valid JSON, for which marshalling a request fails.
- Texts of error messages, and the JSON bodies of error responses; only statuses and the kind of error are kept.
- The layout of Responses frames as JSON, and parsing Responses requests: no main result depends on them.
- Plain (non-stream) response parsing and serialising: field copies.
- Content slices with spare capacity in `FoldSystemIntoUser`: prepending always makes a new array here.
- Wrap-around of the rotation counters.
- Concurrent requests: the router, the manager, the health checker and the cache take one call at a time, as under their locks.
- Admin edits during a health round, and channel rows added or removed between rounds.
- SQL, migrations, log storage, model synchronisation, protocol detection, capability probing, sessions, encryption: tables are sequences, decryption succeeds or not by a flag on the key.
- sha256 stands as an arbitrary function; where keys must not collide it is assumed injective.
- Ids made up by the gateway (`msg_…`, `chatcmpl-…`) are parameters; response ids filled in by a serialiser are part of the `present` parameter of `CachedChat`.
- Log records keep channel, status and token counts; time, latency and error text are not modelled.
- Handler.HandleStream: feeds the writer after the dispatch what the original feeds it during the dispatch, and therefore does not model what a client sees while a call is still running.
- AttemptLimit.TwoAttemptLimit: assumes that the channel's keys decrypt; with undecryptable keys the limit can be exceeded only under the same condition (`AttemptLimit.BreakNeeds`), and the converse then depends on the rotation counter.
- AttemptLimit.OneRetry: assumes the same of all keys; `AttemptLimit.RetriesNeed` does not.
- Gateway.FromOpenAIUpstream: covers streams that succeed; how a failing one ends is in `Handler.StreamEndsOnce`, what its client has read in `OpenAIWriter.Retraction` and `AnthropicRoundTrip.RoundTrip`.
- Liveness.FailoverLiveness: takes the keys of the healthy channel to be decryptable, and the key table readable once the channel is reached.
