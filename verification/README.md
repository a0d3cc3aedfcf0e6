# A verified model of myteams

myteams is a chat server and a terminal client. The server keeps users, private conversations and teams with
channels, threads and replies; it serves many clients from one `poll` loop, answers line-based commands, and writes
everything to a JSON file when it stops and reads it back when it starts. The client validates what is typed, sends
command frames, cuts the server's byte stream into frames and routes them.

This project models five parts of that program and proves what holds of them over all inputs and all runs.

- **Save and load** (`Numbers`, `Json`, `JsonGrammar`, `JsonReading`, `JsonTermination`, `Save`, `SaveRoundTrip`,
  `SaveContent`, `SaveExact`, `SaveInjective`): the printer, the recursive parser with its cursor, when it returns, what
  the file holds under each key, and the round trip of a whole database, including the passage of timestamps through a
  double.
- **The server** (`Model`, `Lookup`, `Commands`, `Delivery`, `ServerState`): all thirteen commands as effects on the
  database, the requesting session and everyone's output, and the steps of the loop as a state machine. `Server`
  (module `ServerClass`) and `Batch` hold the imperative server, each method proved against that state machine.
  `Service` says that a turn of the loop serves every reported client.
- **The commands' laws** (`Outcomes`, `MessageLaws`, `ContextLaws`, `CreationLaws`, `SessionLaws`): for every command
  and every case, the new database and session and the exact frames of every client, written out word by word and
  stated by the stored entities, not by the functions that compute them.
- **The invariant** (`Invariant`, `Preservation`, `CommandsKeep`, `FramesKeep`, `Runs`, `Safety`): one inductive
  invariant kept by accepts, reads, partial writes, disconnections, flag updates and restarts, and what it means.
  `Departures` and `Guarantees` add what one command promises to the other clients.
- **Streams** (`Framing`, `TcpClient`, `EndToEnd`): frames and command lines are independent of how bytes are cut into
  reads and writes, in both directions, over whole runs.
- **Text and protocol** (`Text`, `Tokens`, `ClientCommands`, `Protocol`, `Router`): both tokenisers, the quoting, the
  client's validation, the bracketed list blocks and the router that follows them. `Agreement` relates what the client
  lets through to what the server still refuses.

Users, teams, channels, threads, replies and messages live by value inside vectors in the program, so they are
datatypes here and pointers into vectors are positions. The server, the client's transport, its reader, its router, the
JSON parser and the word stream are classes. New identifiers, the clock, accepted descriptors, chunk sizes and the
number of bytes a write takes are parameters. A frame is a list of parts (bare words, quoted fields) with a function to
its text; the frame texts, limits and constants are the program's own.

Facts about the program that the proofs turned up:

- A timestamp survives a restart exactly when it is a multiple of the spacing of doubles at its size and within their
  range; everything up to 2^53 does, and 2^53 + 1 does not (`Numbers.ToDoubleExact`,
  `Numbers.FirstInexactTime`). One restart rounds the others for good: no later one changes anything
  (`SaveExact.LaterGenerations`).
- The parser returns on every text but those in which it begins an array element of which nothing can be read, such as
  `[x`; there it repeats for ever (`JsonTermination.DivergesExactly`).
- The client accepts and sends `/login " x"`, on which the server asks for the last character of an empty string
  (`ClientCommands.LeadingSpaceReachesServer`). Apart from frames with a lone opening quote, the two tokenisers agree on
  every frame the client sends (`ClientCommands.SentFrame`).
- A field survives quoting and tokenising exactly when it holds no quote and no backslash and only isolated spaces
  (`Tokens.FieldRoundTrip`).
- A private message to oneself is stored twice in a row (`MessageLaws.SendDelivers`).
- The client lets through arguments that the server then refuses: empty ones, a `/create` with one argument outside a
  thread, and a team or channel description of 256 to 512 characters (`Agreement.RefusedExactly`).
- The client refuses a line with a quote that is never closed; the server, given such a line, keeps the arguments before
  it (`Tokens.NeverClosedAfter`).

Where the code and `.github/norm-rfc.md` differ, the model follows the code: every 404 answer but those of `/create` and
`/user` carries the kind of what was not found; subscriptions are answered `200 SUBSCRIBE` and `200 UNSUBSCRIBE`; `/use` answers one `200 OK` for each level that
validates, so a refused channel follows an earlier success; `/send` checks its arguments before it checks the session;
subscription events are the lower-case frames `user_subscribed` and `user_unsubscribed`, which the client's router
drops.

## Model

| member | source | states |
|---|---|---|
| `Json.JsonParser.ParseValue` | server/saveManager/JsonParser.cpp:103-135 | On every text on which it returns, the recursive cursor parser gives the specified value and stops at the specified position; every character is read at a position of the text or at its terminator. |
| `Json.JsonParser.ParseArray` | server/saveManager/JsonParser.cpp:69-82 | The array loop collects the specified elements and each turn strictly advances, so it ends. |
| `Json.JsonParser.ParseObject` | server/saveManager/JsonParser.cpp:84-101 | The object loop collects the specified members, later keys winning, and each turn strictly advances. |
| `Json.JsonParser.ParseStr` | server/saveManager/JsonParser.cpp:49-59 | Any escaped character is taken literally, up to the closing quote or the end of the text. |
| `Json.JsonParser.ParseNum` | server/saveManager/JsonParser.cpp:61-67 | The digit, fraction and exponent scans find the specified number and its end; where there is none, nothing is consumed. |
| `JsonGrammar.ScanNumberOver` | server/saveManager/JsonParser.cpp:61-67 | The printed digits of every integer are read back as that integer and the cursor stops behind them. |
| `JsonGrammar.ParseDoc` | server/saveManager/JsonParser.cpp:103-135 | Any value tree of the printed grammar, with any whitespace between its tokens, is parsed to that tree and the cursor stops exactly behind it. |
| `JsonGrammar.ParseText` | server/saveManager/JsonParser.cpp:39-41 | The same for a whole text with whitespace around the value. |
| `JsonGrammar.SameTextSameValue` | server/saveManager/JsonParser.cpp:39-135 | Two documents with the same text have the same value: the printed grammar is unambiguous. |
| `JsonReading.AnyStringRead` | server/saveManager/JsonParser.cpp:49-59 | On every text that starts with a quote: it is cut into plain and escaped characters up to the closing quote, the end, or a last lone backslash; the value is these characters, and the cursor stops where the program leaves it. |
| `JsonReading.NumberRead` | server/saveManager/JsonParser.cpp:61-67 | Every decimal number, with or without sign, fraction and exponent, is read to its last character as the digits before and behind the point, scaled by the exponent less the digits behind the point. |
| `JsonReading.TruncatedTowardsZero` | server/saveManager/JsonSerializer.cpp:111-141 | The cast of the read double to a timestamp drops the part behind the point, on both sides of zero. |
| `JsonTermination.ItemStuck` | server/saveManager/JsonParser.cpp:74-79 | An array iteration gets stuck if and only if nothing can be read at its start or its value never ends. |
| `JsonTermination.DivergesExactly` | server/saveManager/JsonParser.cpp:61-135 | On every text, the parser does not return if and only if it begins an array element, at any depth, of which nothing can be read. |
| `JsonTermination.ReturnsWithoutArrays` | server/saveManager/JsonParser.cpp:84-135 | It returns on every text without an opening square bracket. |
| `JsonTermination.DivergesOutsideGrammar` | server/saveManager/JsonParser.cpp:61-82 | The shortest text on which it does not return. |
| `Numbers.PrintedDouble` | server/saveManager/JsonSerializer.cpp:111-141 | A printed integer is read as its own double and cast back to the integer that this double is. |
| `Numbers.NearestIsPrecise` | server/saveManager/JsonParser.cpp:61-67 | Any decimal fraction, scaled by powers of two to 53 significant bits or to the subnormal limit, is rounded by at most half a unit of the last bit. |
| `Numbers.RoundedIsExact` | server/saveManager/JsonSerializer.cpp:111-141 | What an integer is rounded to is a double, and rounding it again changes nothing. |
| `Numbers.ExactIsMantissa` | server/saveManager/JsonSerializer.cpp:111-141 | The integers that are doubles are exactly the 53-bit mantissas times powers of two, in range. |
| `Numbers.NearestDouble` | server/saveManager/JsonParser.cpp:61-67 | No double is nearer to an integer in range than the one it is read as. |
| `Numbers.ToDoubleExact` | server/saveManager/JsonSerializer.cpp:111-141 | A timestamp comes back from a double unchanged if and only if it fits the spacing of doubles at its size. |
| `Numbers.SmallTimesExact` | server/saveManager/JsonSerializer.cpp:111-141 | Every timestamp in [-2^53, 2^53] comes back unchanged. |
| `Numbers.FirstInexactTime` | server/saveManager/JsonSerializer.cpp:111-118 | 2^53 + 1 does not come back. |
| `Save.EscapeJson` | server/saveManager/JsonSerializer.cpp:15-29 | The loop quotes a string, escaping exactly quotes and backslashes. |
| `Save.JsonArray` | server/saveManager/JsonSerializer.cpp:31-39 | The loop prints the elements in order, separated by single commas. |
| `Save.JsonMapOfArrays` | server/saveManager/JsonSerializer.cpp:41-49 | The loop prints one array for each key, in key order. |
| `Save.SaveDatabase` | server/saveManager/saveManager.cpp:16-30 | The written text is the printed document of the database; `SaveContent.FileHolds` says what stands in it under every key. |
| `Save.LoadDatabase` | server/saveManager/saveManager.cpp:32-49 | On every text on which the parser returns, loading appends the users and teams that the reader takes from it; `SaveContent.LoadTakes` says what each field is. |
| `SaveContent.FileHolds` | server/saveManager/JsonSerializer.cpp:51-109 | The file of every database parses to an object that holds exactly its users and teams, in order, with every field of every user, message, team, channel, thread and reply under its own key and no other keys; everybody is offline. |
| `SaveContent.LoadTakes` | server/saveManager/JsonSerializer.cpp:111-189 | For every content on which the parser returns: what was in the database stays in front, one user and one team follow for each element of the two lists, and every field of every entity is the text, number or list under its own key, empty or zero where there is none; nobody is connected. |
| `SaveRoundTrip.SaveThenLoad` | server/saveManager/saveManager.cpp:16-49 | For every database, the saved text parses, and loading it into an empty database gives the same users, conversations, teams, channels, threads, replies and subscribers in the same order, everyone offline, timestamps rounded to doubles. |
| `SaveExact.RestartKeepsData` | server/saveManager/saveManager.cpp:16-49 | What is loaded is the saved data with all counts zero if and only if every stored timestamp is a double. |
| `SaveExact.LaterGenerations` | server/saveManager/saveManager.cpp:16-49 | For every database, one restart gives what any number of restarts gives, and every file from the second on is the same byte for byte. |
| `SaveInjective.FileDetermines` | server/saveManager/saveManager.cpp:16-30 | Two databases have the same file if and only if they differ at most in who is connected. |
| `SaveInjective.SaveAgain` | server/saveManager/saveManager.cpp:16-49 | Saving what was loaded writes the same text byte for byte if and only if every stored timestamp is a double. |
| `SaveExact.SaveIgnoresSessions` | server/saveManager/JsonSerializer.cpp:100-109 | The text does not depend on who is connected. |
| `Tokens.ParseTokens` | client/protocol/TokenParser.cpp:11-44 | The nested stream loops compute the tokens of the words, or fail exactly on an unclosed quote. |
| `Tokens.ParseArgs` | server/commands/commandHandling/commandHandling.cpp:28-54 | The server's loops compute the specified arguments wherever they are defined. |
| `Tokens.ArgsUndefinedExactly` | server/commands/commandHandling/commandHandling.cpp:28-54 | The server's parse is undefined if and only if a quote-opening word is a lone quote. |
| `Tokens.ArgsFollowTokens` | server/commands/commandHandling/commandHandling.cpp:28-54 | Where both succeed, the server's arguments are the client's tokens. |
| `Tokens.NeverClosedAfter` | server/commands/commandHandling/commandHandling.cpp:28-54 | Behind complete tokens, a quote that no later word closes makes the client refuse the whole text, while the server keeps exactly the arguments before it. |
| `Tokens.RefusedIsNeverClosed` | client/protocol/TokenParser.cpp:11-44 | The other way round: every text the client refuses is complete tokens followed by such a quote. |
| `Tokens.RenderedTokens` | client/protocol/TokenParser.cpp:11-44 | For every frame of bare words and quoted fields without quotes, with any whitespace, both tokenisers return those words and those fields with whitespace runs collapsed; the server's is undefined exactly when a field starts with whitespace. |
| `Tokens.QuoteProtocolField` | server/utils/utils.cpp:11-21 | The loop escapes quotes and backslashes and puts quotes around. |
| `Tokens.FieldRoundTrip` | server/utils/utils.cpp:11-21 | A quoted field is tokenised back to itself if and only if it has no quote, no backslash and only isolated spaces. |
| `ClientCommands.HasUnquotedArgs` | client/protocol/CommandLineDispatcher.cpp:18-41 | The scan refuses exactly the texts that are not a run of quoted fields. |
| `ClientCommands.QuotedRunIsFields` | client/protocol/CommandLineDispatcher.cpp:18-41 | Every accepted text is a rendering of quoted fields. |
| `ClientCommands.FieldsAreQuotedRun` | client/protocol/CommandLineDispatcher.cpp:18-41 | Every rendering of quoted fields is accepted. |
| `ClientCommands.ValidateArgs` | client/protocol/CommandLineDispatcher.cpp:79-99 | The validation finds the first of: unquoted text, unclosed quote, wrong count, first argument that is too long. |
| `ClientCommands.DispatchCommandLine` | client/ClientApplication.cpp:62-100 | The outcome for a typed line, in the program's order of checks. |
| `Agreement.ValidExactly` | client/protocol/CommandSchemas.hpp:32-114 | Arguments pass validation if and only if they are quoted fields in the number and within the lengths of their command, which are written out for all thirteen commands. |
| `Agreement.RefusedFor` | client/protocol/CommandLineDispatcher.cpp:79-99 | Each refusal is given exactly for its reason: a bare word, an open quote, a wrong count, or the first argument over its written-out limit. |
| `Agreement.DispatchExactly` | client/ClientApplication.cpp:62-100 | Blank, help, unknown and known commands are told apart by the first word of the line alone. |
| `Agreement.RefusedExactly` | server/commands/create/create.cpp:158-322 | Of everything the client lets through, the server answers 400 to exactly these: an empty name, text or identifier, a creation with too few arguments for its context, and a team or channel description over 255 characters. |
| `Agreement.SentRefusedExactly` | client/ClientApplication.cpp:62-108 | The same from the typed line to the server's answer. |
| `ClientCommands.SentFrame` | client/ClientApplication.cpp:62-108 | Every frame sent is the left-trimmed line with a bare supported command as its first word, and the server derives exactly that command and the validated arguments unless a quote-opening word is a lone quote. |
| `ClientCommands.WellFormedLine` | client/protocol/CommandLineDispatcher.cpp:64-99 | Every command with separated, acceptable quoted fields is sent unchanged, and the server reads the same command and fields from it if and only if no field starts with whitespace. |
| `ClientCommands.QuotedCommandRefused` | client/protocol/CommandLineDispatcher.cpp:64-99 | A command name in quotes never passes validation. |
| `ClientCommands.LeadingSpaceReachesServer` | client/ClientApplication.cpp:62-108 | A line the client sends on which the server's parse is undefined. |
| `Framing.ServerReader.HandleReadable` | client/ClientApplication.cpp:130-173 | One read: frames routed, stop at a disconnecting frame, oversize failure, and a retained buffer of at most 65536 bytes without a newline. |
| `Framing.DrainAppend` | client/ClientApplication.cpp:140-172 | Cutting a stream anywhere changes neither the frames, nor the stop, nor the failure. |
| `Framing.FeedAllIsOneFeed` | client/ClientApplication.cpp:130-173 | Any sequence of reads ends where one read of the whole stream ends. |
| `Framing.WirePrefix` | server/client/client.hpp:50-56 | Any prefix of the queued bytes is some whole frames and a proper part of the next. |
| `Framing.FramesDelivered` | client/ClientApplication.cpp:130-173 | For any prefix of the written bytes and any cutting into reads, the client has routed exactly the complete frames, in order, and holds the rest. |
| `Framing.LinesOverReadsIsOne` | server/server.cpp:88-119 | The server's command lines over any reads are those of the whole stream. |
| `Framing.CommandsDelivered` | server/server.cpp:88-119 | The server handles exactly the command frames whose bytes are complete. |
| `Transport.TcpClient.SendAll` | client/network/TcpClient.cpp:103-105 | Queued bytes grow by the data; written bytes and unsent bytes together are all bytes ever queued. |
| `Transport.TcpClient.FlushPendingWrites` | client/network/TcpClient.cpp:107-121 | Under arbitrary short writes the flush ends, nothing is lost or reordered, and it reports blocking exactly when bytes are left. |
| `Transport.TcpClient.HasPendingWrites` | client/network/TcpClient.cpp:123-125 | True exactly when something queued is unsent. |
| `Transport.TcpClient.SendCommandFrame` | client/ClientApplication.cpp:102-108 | One frame and its line end are queued behind everything else. |
| `Protocol.FrameHasNoNewline` | server/utils/utils.cpp:11-21 | A frame of normal fields has no line break in its text. |
| `Protocol.PlainFrameTokens` | client/protocol/TokenParser.cpp:11-44 | A frame of plain fields is tokenised part by part as it was composed. |
| `Protocol.ListBlockBracketed` | server/commands/list/list.cpp:15-96 | A list answer is one complete block of its kind. |
| `Router.ServerMessageRouter.RouteFrame` | client/protocol/ServerMessageRouter.cpp:141-181 | The new list context and the handler of a frame, as functions of its tokens. |
| `Router.RouterFollowsBlocks` | client/protocol/ServerMessageRouter.cpp:152-168 | After any well-bracketed history the router's context is the kind of the open block, or empty. |
| `Router.ListLineRouted` | client/protocol/ServerMessageRouter.cpp:152-168 | In such a history every list line goes to the handler of its block's kind, and nothing else goes to a list handler. |
| `Lookup.SearchUser` | server/database/Database.cpp:20-27 | The scan returns the first user with the identifier, or nothing if there is none. |
| `Lookup.SearchUserByName` | server/database/Database.cpp:29-36 | The same by name. |
| `Lookup.SearchTeam` | server/database/Database.cpp:38-45 | The first team with the identifier. |
| `Lookup.SearchChannel` | server/database/Database.cpp:47-60 | The first channel with the identifier inside the first team with its identifier. |
| `Lookup.SearchThread` | server/database/Database.cpp:62-78 | The thread inside the first channel with the identifier over all teams, and in no other channel. |
| `Lookup.SubscribeRefinesInsert` | server/models/Team.cpp:14-20 | Adding a subscriber is set insertion, keeps the list duplicate-free and its order. |
| `Lookup.RemoveSubscriber` | server/models/Team.cpp:22-29 | In place, the list loses exactly that user and reports whether it had it. |
| `Lookup.WithoutCutsOne` | server/models/Team.cpp:22-29 | Removal from a duplicate-free list cuts one position and keeps the others in order. |
| `Delivery.DeliverBuffers` | server/client/client.hpp:50-56 | Each client's buffer grows by exactly its own frames in order; its session and read buffer do not change. |
| `Outcomes.ApplyShare` | server/client/client.hpp:50-56 | After a command each client has its own frames behind what was pending, and only the requester another session. |
| `ServerClass.Server.SendToAllOf` | server/server.cpp:237-251 | Whatever the order in which clients are visited, the chosen ones get the frame and nobody else. |
| `ServerClass.Server.NotifySubscribers` | server/server.cpp:253-276 | The subscribers' clients get the frame; an unknown team sends nothing. |
| `ServerClass.Server.Login` | server/commands/login/login.cpp:22-82 | New state and output are those of the login step, whose cases `SessionLaws` writes out. |
| `ServerClass.Server.Logout` | server/commands/logout/logout.cpp:16-33 | New state and output are those of the logout step (`SessionLaws.LogsOut`). |
| `ServerClass.Server.Send` | server/commands/send/send.cpp:20-58 | New state and output are those of the send step, whose cases `MessageLaws.SendRefused` and `MessageLaws.SendDelivers` write out. |
| `ServerClass.Server.ListMessages` | server/commands/messages/messages.cpp:25-64 | The block of the conversation with the named user. |
| `ServerClass.Server.ListAllUsers` | server/commands/users/users.cpp:14-29 | The block of all users with their status. |
| `ServerClass.Server.SubscribeTeam` | server/commands/subscribe/subscribe.cpp:14-52 | New subscriber list, event to the subscribers, then the answer; a second subscription only answers. |
| `ServerClass.Server.UnsubscribeTeam` | server/commands/unsubscribe/unsubscribe.cpp:14-48 | New subscriber list, event to those who remain, then the answer. |
| `ServerClass.Server.ShowSubscribed` | server/commands/subscribed/subscribed.cpp:16-75 | The block of one's teams or of a team's subscribers. |
| `ServerClass.Server.UseContext` | server/commands/use/use.cpp:16-111 | New context and output are those of the use step, whose levels `ContextLaws` writes out. |
| `ServerClass.Server.Create` | server/commands/create/create.cpp:158-322 | New state and output are those of the creation step for the context, whose cases `CreationLaws` writes out. |
| `ServerClass.Server.ListInContext` | server/commands/list/list.cpp:15-130 | The output is that of the list step, whose levels `ContextLaws` writes out. |
| `ServerClass.Server.ShowInfo` | server/commands/info/info.cpp:15-120 | The description of what the context names. |
| `ServerClass.Server.HandleCommand` | server/commands/commandHandling/commandHandling.cpp:73-85 | A line becomes its command's step; unknown commands and empty argument lists do nothing. |
| `ServerClass.Server.ParseLoop` | server/server.cpp:88-104 | Every complete line is handled in order and the cursor stops behind the last one. |
| `ServerClass.Server.HandleRead` | server/server.cpp:106-119 | One read is the read step of the state machine. |
| `ServerClass.Server.HandleWrite` | server/server.cpp:121-131 | One partial write moves exactly its bytes from the buffer to the wire. |
| `ServerClass.Server.DisconnectClient` | server/server.cpp:133-161 | The session is released, the entry and the client are removed, then the others are told. |
| `ServerClass.Server.UpdatePollFlags` | server/server.cpp:163-177 | In any order of visiting, output is watched exactly for clients with pending output. |
| `ServerClass.StopAndStart` | server/server.cpp:215-231 | Saving at the end of a run and loading at the next start is the restart step. |
| `MessageLaws.SendRefused` | server/commands/send/send.cpp:20-41 | 400 for missing, empty or too long arguments, then 401 for an unknown sender, then 404 for an unknown receiver; nothing is stored and nobody else hears of it. |
| `MessageLaws.SendDelivers` | server/commands/send/send.cpp:42-58 | The message ends the sender's and the receiver's conversation (twice if they are the same), every other conversation, user field and team stays, each client logged in as the receiver gets the event, and the sender then 200. |
| `MessageLaws.MessagesShown` | server/commands/messages/messages.cpp:16-64 | The requester gets one line for each stored message of the conversation, in order, with sender, time and body. |
| `MessageLaws.UsersShown` | server/commands/users/users.cpp:14-29 | One line for each user, in order, with 1 exactly for those who are connected. |
| `MessageLaws.UserShown` | server/commands/user/user.cpp:15-37 | The named user with the status, or 401, 400 or 404. |
| `ContextLaws.UseOutside` | server/commands/use/use.cpp:16-44 | 401, 400 for more than three identifiers, the empty context without any, 404 for an unknown team. |
| `ContextLaws.UseTeam` | server/commands/use/use.cpp:26-64 | A team that one does not subscribe to is refused; by itself it is installed with one 200; a channel that is not its own is refused after one 200. |
| `ContextLaws.UseChannelOf` | server/commands/use/use.cpp:46-83 | A channel of the team is installed with two 200s; a thread that is not its own is refused after them. |
| `ContextLaws.UseThreadOf` | server/commands/use/use.cpp:66-111 | A thread of the channel is installed with three 200s. |
| `ContextLaws.UseInstallsExactly` | server/commands/use/use.cpp:87-111 | The new context is exactly the arguments if and only if the team exists, the client subscribes to it, and the channel and the thread are inside it; otherwise it is the old one. |
| `ContextLaws.ContextRefused` | server/commands/list/list.cpp:98-130 | Who is not logged in gets 401, and 404 if the team of the context is unknown. |
| `ContextLaws.OutsidersRefused` | server/commands/info/info.cpp:88-120 | Who does not subscribe to the team of the context gets 403. |
| `ContextLaws.TeamsListed` | server/commands/list/list.cpp:86-96 | Outside every context the requester gets the begin frame, one line for each team in order, and the end frame. |
| `ContextLaws.ChannelsListed` | server/commands/list/list.cpp:64-84 | In a team: one line for each of its channels in order, with identifier, name and description. |
| `ContextLaws.ThreadsListed` | server/commands/list/list.cpp:39-62 | In a channel: one line for each of its threads in order, with author, time, title and body. |
| `ContextLaws.RepliesListed` | server/commands/list/list.cpp:15-37 | In a thread: one line for each of its replies in order, with the thread, author, time and body. |
| `ContextLaws.ThreadDescribed` | server/commands/info/info.cpp:48-65 | `/info` in a thread gives every field of that thread. |
| `ContextLaws.ChannelDescribed` | server/commands/info/info.cpp:31-46 | In a channel, that channel. |
| `ContextLaws.TeamDescribed` | server/commands/info/info.cpp:15-29 | In a team, that team. |
| `ContextLaws.SelfDescribed` | server/commands/info/info.cpp:67-86 | Outside every context, the user. |
| `CreationLaws.TeamRefused` | server/commands/create/create.cpp:177-196 | 400 for missing, empty or too long texts, 409 exactly for a taken team name. |
| `CreationLaws.TeamCreated` | server/commands/create/create.cpp:197-207 | Otherwise one team is appended with the new identifier, the two texts, its creator as the only subscriber and no channels; the creator gets 201, then every client the event. |
| `CreationLaws.ChannelRefused` | server/commands/create/create.cpp:209-234 | The refusals for a channel: texts, then a name taken in that team. |
| `CreationLaws.ChannelCreated` | server/commands/create/create.cpp:235-242 | One channel is appended to the team of the context and nothing else changes; 201 to the creator, then the event to every client logged in as a subscriber. |
| `CreationLaws.ThreadRefused` | server/commands/create/create.cpp:244-273 | The refusals for a thread: texts, then a title taken in that channel. |
| `CreationLaws.ThreadCreated` | server/commands/create/create.cpp:274-284 | One thread is appended to the channel of the context, with author and time; the same audience. |
| `CreationLaws.ReplyCreated` | server/commands/create/create.cpp:286-322 | One reply is appended to the thread of the context, with author and time; the same audience. |
| `CreationLaws.StrangerCreatesNothing` | server/commands/create/create.cpp:42-56 | Who left the team of the context gets 403 and creates nothing. |
| `CreationLaws.CreateThenUse` | server/commands/use/use.cpp:16-83 | A team, channel or thread just created can be entered at once: `/use` with its identifier installs the level below the context. |
| `SessionLaws.LoginRefused` | server/commands/login/login.cpp:63-77 | 400 without a name, 401 when already logged in, 400 for an empty or too long name. |
| `SessionLaws.NewUserLogsIn` | server/commands/login/login.cpp:22-43 | A new name becomes a new user with one session; the client is answered, then everybody is told. |
| `SessionLaws.KnownUserLogsIn` | server/commands/login/login.cpp:45-60 | A known name becomes one more session of its user. |
| `SessionLaws.LogsOut` | server/commands/logout/logout.cpp:16-33 | One session less; everybody is told if no other client is logged in as that user, then the client is answered. |
| `SessionLaws.LosesConnection` | server/server.cpp:133-161 | A lost connection ends its session in the same way, the client is gone, and each remaining buffer grows by the event or not at all. |
| `SessionLaws.Subscribes` | server/commands/subscribe/subscribe.cpp:26-52 | A new subscriber is appended and is among those told; an old one is only answered. |
| `SessionLaws.Unsubscribes` | server/commands/unsubscribe/unsubscribe.cpp:26-48 | A subscriber is cut out at its position and those who stay are told. |
| `SessionLaws.OwnTeamsShown` | server/commands/subscribed/subscribed.cpp:16-29 | The lines are those of exactly the teams that the user subscribes to, in order. |
| `SessionLaws.SubscribersShown` | server/commands/subscribed/subscribed.cpp:31-52 | One line for each subscriber of the team, in order, with the status. |
| `SessionLaws.UnknownIgnored` | server/commands/commandHandling/commandHandling.cpp:73-85 | A line without a command, or with any other word, changes nothing and is not answered. |
| `CommandsKeep.ExecuteKeepsDb` | server/commands/create/create.cpp:177-322 | Every command keeps unique names and identifiers, limits, subscriber lists and conversations, and only appends. |
| `CommandsKeep.ExecuteKeepsSessions` | server/commands/login/login.cpp:22-82 | Every command keeps every user's count equal to the live sessions and every client's context resolvable. |
| `CommandsKeep.UseContextOk` | server/commands/use/use.cpp:16-111 | A context that is installed resolves, and its thread is found inside its own channel although the search covers all teams. |
| `FramesKeep.ExecuteFrames` | server/commands/list/list.cpp:15-96 | Every command queues either single frames or one whole list block for the requester, all well-formed, and all but 404 answers of at most eight parts of at most 512 characters. |
| `FramesKeep.ShareBracketed` | server/server.cpp:233-276 | Each client's share of that output is well-bracketed. |
| `Runs.StepKeeps` | server/server.cpp:73-231 | Every step keeps the whole invariant and removes or rewrites nothing stored. |
| `Runs.RunKeeps` | server/server.cpp:215-231 | The invariant holds after every possible run, restarts included. |
| `Runs.RestartKeeps` | server/saveManager/saveManager.cpp:16-49 | A restart loads exactly the stored data with all counts zero, and the invariant holds. |
| `Runs.StartOk` | server/server.cpp:45-66 | A server started on a good database satisfies the invariant. |
| `Safety.RunCounts` | server/models/User.hpp:30-38 | After every run each count is the number of clients logged in as that user, and every logged-in client is an existing user. |
| `Safety.RunConversations` | server/models/User.cpp:14-16 | After every run two users hold the same conversation, all of it between these two. |
| `Safety.RunContexts` | server/database/Database.cpp:38-78 | After every run a context names an existing team, a channel of it and a thread of that channel. |
| `Safety.RunNames` | server/commands/create/create.cpp:177-207 | After every run user names and team names are unique and within their limits. |
| `Safety.RunTeams` | server/commands/create/create.cpp:209-284 | After every run channel names are unique in their team, titles in their channel, subscribers are known and listed once, and names, descriptions, titles, bodies and replies are within their limits. |
| `Safety.RunKeepsMessages` | server/commands/send/send.cpp:30-49 | Between any two points of a run every conversation is a prefix of its later self. |
| `Safety.RunKeepsThreads` | server/commands/create/create.cpp:209-322 | Between any two points of a run channels, threads and replies stay where they are, unchanged, with more behind them. |
| `Safety.RunPoll` | server/server.cpp:163-231 | At every wait the poll set has the server first and each client exactly once, and watches output exactly where some is pending. |
| `Departures.AnnouncedExactly` | server/commands/logout/logout.cpp:21-33 | Over all commands, every client is told that a user is gone if the command ends that user's last session, and otherwise nobody is. |
| `Departures.DisconnectAnnouncedExactly` | server/server.cpp:138-160 | The same for a disconnection and every remaining client. |
| `Departures.LogoutAnnounces` | server/commands/logout/logout.cpp:16-33 | The exact output of a logout in terms of live sessions. |
| `Guarantees.CreationNotifies` | server/commands/create/create.cpp:98-153 | Creating a channel, thread or reply either changes nothing and refuses the creator alone, or answers the creator and then tells every client logged in as a subscriber. |
| `Guarantees.NotifiedBuffers` | server/server.cpp:253-276 | After such a creation each client's buffer has grown by its own answer, then its own event, or not at all. |
| `Guarantees.OutsiderChangesNothing` | server/commands/commandHandling/commandHandling.cpp:73-85 | Before it logs in, a client changes nothing and nobody else hears of it. |
| `Guarantees.OnlySubscribersChange` | server/commands/create/create.cpp:42-56 | Only a subscriber's command changes what a team holds. |
| `Guarantees.SubscriberLinesComplete` | server/commands/subscribed/subscribed.cpp:41-50 | Every subscriber has a line, so the skip of unknown users never happens. |
| `Guarantees.StoreMessageEndsBoth` | server/commands/send/send.cpp:48-49 | A stored message ends exactly the two conversations it belongs to. |
| `Guarantees.SameMessagesShown` | server/commands/messages/messages.cpp:52-63 | Both ends of a conversation are shown the same list. |
| `Batch.WaitForEvents` | server/net/Poller.cpp:41-55 | The loop reports the descriptors with events in the order of the poll set. |
| `Batch.ProcessEvent` | server/server.cpp:179-213 | One reported event is the specified run of steps. |
| `Batch.Turn` | server/server.cpp:221-229 | One turn of the loop (flags, wait, events) keeps the invariant and is the run of its batch. |
| `Batch.BatchOnKnown` | server/server.cpp:200-231 | In a batch the new connection comes first, under a new descriptor, and every other step is on a connection that was there at the wait. |
| `Batch.BatchKeepsConnections` | server/server.cpp:179-231 | At every point of a batch a descriptor connected at the wait is still that connection, or gone. |
| `Service.ReportedExactly` | server/net/Poller.cpp:41-55 | A wait reports exactly the entries with something to report, in the order of the poll set. |
| `Service.TurnServes` | server/server.cpp:179-213 | Of all the steps of a turn, those on one reported client are exactly what its report calls for: the end of the connection, or a read and then a write; the server's descriptor gives the new connection. |
| `EndToEnd.ClientRoutesPrefix` | client/ClientApplication.cpp:130-173 | In every good state, whatever bytes have arrived in whatever pieces, the client has routed exactly the queued frames whose bytes are complete (all of them once everything has arrived), holds the rest, and its router stands in the block these frames leave open; only 404 echoes need a size limit of their own. |
| `EndToEnd.RunRoutesPrefix` | server/server.cpp:121-131 | The same over every run from a start on a good database. |
| `EndToEnd.QueuedFrameHandled` | client/protocol/ServerMessageRouter.cpp:141-181 | Every plain frame ever queued arrives token by token: a list line at the handler of its list, every other frame at the handler of its status or event; only list markers and the two lower-case subscription events are dropped. |
| `EndToEnd.TypeLines` | client/ClientApplication.cpp:62-108 | Typing lines queues exactly the frames of those that pass validation, in order. |
| `EndToEnd.ServerHandlesSent` | client/ClientApplication.cpp:62-108 | Whatever part of the client's bytes arrives, the server's command lines are exactly the completely arrived frames sent for the typed lines. |
| `EndToEnd.SentFrameArgs` | server/commands/commandHandling/commandHandling.cpp:28-54 | Each of them is read as a supported command and the arguments it was validated with. |
| `EndToEnd.LinesForConnection` | server/server.cpp:88-119 | Interleaved with any other events, the command lines handled for a connection depend only on its own bytes. |
| `EndToEnd.RunHandlesSent` | server/server.cpp:88-119 | From its acceptance on, in any run, the server handles for a connection exactly the completely arrived frames its client sent, in order, each read as the command and arguments it was validated with. |

## Left out

- Save.LoadDatabase: the cast of an infinity, a NaN or a double of 2^63 or more to a timestamp is undefined in C++; the model takes zero for the first two and the integer for the last.
- Runs.RunKeeps: a line on which the server's argument parser is undefined has no step, identifiers drawn are fresh, non-empty and of at most 36 characters, accepted descriptors are new, and the clock stays within 2^53.
- EndToEnd.ClientRoutesPrefix: is stated for a client that is not told to disconnect and 404 answers below the client's size limit, since these echo an argument of any length; all other frames are proved to be below it.
- Safety.RunNames: reply identifiers are not claimed to be unique, since the program never looks a reply up.
- Framing.ServerReader.HandleReadable: which frames end the client is a predicate on the frames routed so far, not the pending-command logic of the status handler.
- Sockets, `poll`, signals, address resolution, connection timeouts and failing system calls.
- The logging library of the server and of the client, help and usage text, and `main`.
- The message handlers of the client: field-count checks and printing.
- `User` team lists: kept by the file format, but no command updates them, so nothing is claimed about them.
- JSON's Unicode escapes and named control characters: the program does not know them, and neither does the model.
- Fields with quotes or backslashes across the wire, except that they do not come back.
