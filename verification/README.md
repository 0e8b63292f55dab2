# ft_irc server: a verified model

This project models an IRC server written in C++98 around one `poll` loop, and
proves what its registries, its byte streams and its commands promise.

## What is modelled

**The state as a value.** `ServerState` holds one record per client (account,
joined channels, input buffer, output buffer, disconnect request), the nickname
index, the channels (members, operators, invitations, flags, history) and the
order of the descriptors in poll. `Commands`, `Connection` and `EventLoop` give
what every command, socket event and round of the loop does to that state, with
the branches and error replies of the code; an operation either completes
(`Done`) or stops where an exception left it (`Threw`). A few records that the
program does not keep (everything accepted, sent, received and served, the last
password offered, the number of welcomes, where a history replay began) are
carried along so that properties can speak of them.

**The invariant** `ServerState.Inv` ties the indexes together, and
`RunLaws.Healthy` adds that every connected member has been shown its channels
and that every connection agrees with a reference line splitter. All of it is
kept by every event (`RunLaws.StepHealthy`), so it holds in every state of every
run from the bot's start.

**Effects.** `ChannelEffects`, `MessageEffects`, `JoinEffects`, `RegistrationLaws`
and `VisitLaws` say of every command and every visit what it changes, whom it
tells which line, and what is answered instead, in terms of the state before it
and of literal messages. `WireLaws` follows the bytes to the peer.

**Runs.** A property that fails is shown to fail at the end of a run from the
start of the server: `Scenes` builds such runs out of legal lines (a server with
password "p", clients that register and join "#a"), `Failures` and `LateFlag`
carry them to the failure.

**The objects.** `ClientObject.Client`, `ChannelObject.Channel` and
`ServerObject.Server` are classes whose methods update their fields in place, as
the program's do, with `BotObject`, `Dispatcher`, `ServerReplies`,
`ServerConnections` and `ServerLoop` for the code that works on them: the
handlers, the loops over sets and maps, the index loops over the shrinking poll
vector, the line-processing loop, start and shutdown. A ghost field `st` holds
the state as a value; `Server.Valid()` says that the objects are that state, that
poll lists each client once and that POLLOUT is armed exactly while output is
pending. Each method is proved to turn `st` into what its specification function
says, and to report an exception exactly when the function does. A set that the
program walks in pointer order is walked in an arbitrary order; for NAMES, whose
text shows it, the order is part of the state (`Walks.Walk`, any enumeration of
each set without repetition) and may change whenever a client connects.

**The pure parts.** `Codec` (printer and parser of one line), `Framing` (cutting
a byte stream into lines), `ChannelModes` and `UserLimit` (the MODE compiler),
`Names` (packing of nicknames), `CommaList` and `IrcCasemap`, each with the
methods that the program has and a reference definition they are proved against.

## Where the code and its documentation differ

- The comment of `isValidNickname` (src/Server.cpp:310-320) announces a maximum
  of 9 characters; the code has no limit, and the model follows the code:
  `RegistryLaws.NicknameLengthIsFree` for every length,
  `RegistryLaws.TenLettersAccepted` for a client that asks for ten. The NAMES result
  is therefore stated for whatever names there are, and says exactly when they fit.
- The printer is partial, so a disconnection, a NAMES reply or any announcement
  can be cut short by an exception. `CodecLaws.PrintsExactly`,
  `DisconnectLaws.QuitLineFits` and `DisconnectLaws.DisconnectCompletes` say exactly
  when. A client reaches that step with one legal line: `QuitLaws.QuitVisit` says for
  which reasons a member's own QUIT completes, and `QuitLaws.QuitEndsTheRun` that for
  every other one the exception leaves the loop of the server, and then its shutdown;
  `Failures.LongQuitEndsTheRun` is a run from the start in which that happens.
- `ReplyLaws.SendNamesCompletes` and `ReplyLaws.JoinCompletes` say exactly when a NAMES
  reply and a JOIN come to their end. One member with a long nickname, which it may
  take by a legal NICK, keeps everybody else out of a channel: a run of this is
  `Failures.LongNickKeepsOut`.
- MODE accepts a key with spaces as its last argument, and a channel with such a key
  and a limit has a 324 reply that nobody can be sent (`ModeLines.SpacedKeyIsAccepted`,
  `ModeLines.SpacedKeyIsUnprintable`); `ModeLines.QueryPrintsExactly` says exactly when
  there is one. A change whose announcement has no room stays applied, unannounced
  (`ModeLines.AnnouncedExactly`; `Failures.KeyStaysUntold` is a run).
- A message survives printing and parsing exactly when its command has no
  lower-case letter and, without a prefix, does not open with ':'
  (`CodecLaws.RoundTrip`; `CodecLaws.ColonCommandMisread` is the failing family).
- Printing what was parsed gives the same message back exactly under the condition
  of `CodecLaws.Canonicalisation`.
- A client that the second loop of `run` flags after its index has passed stays until
  the next round; `LateFlag.FlaggedRemains` is a run from the start in which this
  happens. `Forecast.SweepForeseen` says before the loop who will be gone, who will
  stay and who will stay flagged, and `Forecast.SweepIsClean` when nobody does.

## Model

| member | source | states |
|---|---|---|
| IrcCasemap.NormalizeCopy | src/IrcCasemap.cpp:24-31 | the in-place loop folds every byte and nothing else |
| IrcCasemap.EqualIsLetterwise | src/IrcCasemap.cpp:33-35 | two strings are equal exactly when section 2.2 of RFC 2812 calls them equal letter by letter |
| IrcCasemap.NormalizeIdempotent | src/IrcCasemap.cpp:24-31 | a folded key is its own key |
| Codec.SerializeMessage | src/IrcMessage.cpp:60-112 | the appending code makes the checks in order and prints what the grammar prescribes, or fails with the first error |
| Codec.AppendParams | src/IrcMessage.cpp:79-104 | the parameter loop, whatever is already printed |
| Codec.ParseLine | src/MessageParser.cpp:29-93 | the cursor loops read any line as the recursive grammar does; the missing-command branch is unreachable |
| Codec.CollectParams | src/MessageParser.cpp:70-91 | the parameter loop reads middles and one trailing parameter |
| CodecLaws.PrintsExactly | src/IrcMessage.cpp:60-112 | serialization succeeds exactly on well-formed fields whose computed length is within 512 bytes |
| CodecLaws.SerializedShape | src/IrcMessage.cpp:60-112 | a wire form is a safe non-empty line of at most 510 bytes followed by CR LF |
| CodecLaws.RoundTrip | src/IrcMessage.cpp:60-112 | printing then parsing gives the message back, trailing flag as printed, exactly when it is reparsable |
| CodecLaws.ColonCommandMisread | src/MessageParser.cpp:43-66 | an unprefixed command that opens with ':' never comes back |
| CodecLaws.ParsedMessagePrints | src/MessageParser.cpp:29-93 | what was read can be printed within the bytes it took, field by field |
| CodecLaws.Canonicalisation | src/IrcMessage.cpp:60-112 | an accepted line of at most 510 bytes prints within two bytes more and parses to the identical message, exactly under the stated condition |
| CodecLaws.CommandIsRaised | src/MessageParser.cpp:8-68 | the command of any accepted line is a token of it, behind spaces or a prefix, with exactly its letters a to z raised to A to Z |
| CodecLaws.EverySpelling | src/MessageParser.cpp:8-68 | every mixture of cases of a command is read as that command, with the parameters that follow |
| CodecLaws.ParsesExactly | src/MessageParser.cpp:29-68 | a line is refused exactly when it is unsafe or holds at most a prefix between its spaces |
| Framing.DrainConcat | src/Server.cpp:1593-1658 | processing a prefix of the bytes first and the rest later is processing them at once |
| Framing.ChunkIndependence | src/Server.cpp:1593-1658 | however TCP cut the stream, lines, verdict and residue are those of a splitter that sees it whole; the two length limits never disagree and the overflow branch never fires |
| Framing.QuittingCutsShort | src/Server.cpp:1593-1658 | whoever stops reading earlier has had a prefix of the lines |
| Framing.StripsOneCR | src/Client.cpp:243-268 | one CR in front of the LF goes with it, and nothing else |
| StreamLaws.StreamRoundTrip | src/Client.cpp:243-268 | any sequence of printable messages, cut anywhere, framed and parsed, is the same sequence |
| UserLimit.ParsePositiveUserLimit | src/commands/CommandDispatcher.cpp:34-62 | accepts exactly the digit strings whose value lies in 1..SIZE_MAX and returns it, no step leaving size_t |
| UserLimit.FormatParses | src/commands/CommandDispatcher.cpp:64-69 | a printed limit is read back |
| UserLimit.FormatOfValue | src/commands/CommandDispatcher.cpp:64-69 | printing what was read gives the same text exactly without leading zeros |
| UserLimit.Decimal | src/commands/CommandDispatcher.cpp:34-69 | limits are read and printed in base ten |
| CommaList.SplitCommaSeparatedValues | src/commands/CommandDispatcher.cpp:463-485 | the searching loop cuts at every comma |
| CommaList.SplitThenJoin | src/commands/CommandDispatcher.cpp:463-485 | nothing is lost, empty entries included, and no value holds a comma |
| CommaList.JoinThenSplit | src/commands/CommandDispatcher.cpp:463-485 | values keep their positions, which pairs channels with keys |
| ChannelModes.ParseChannelModeOperations | src/commands/CommandDispatcher.cpp:1079-1130 | the loop with its sign and argument index reads the mode string as the grammar does, or names the unknown letter |
| ChannelModes.PrintLetters | src/commands/CommandDispatcher.cpp:1311-1328 | a sign is printed only where it changes |
| ChannelModes.PrintArguments | src/commands/CommandDispatcher.cpp:1330-1337 | the arguments of the operations that take one, in order |
| ModeLaws.ParseConsumesPrefix | src/commands/CommandDispatcher.cpp:1079-1130 | one operation per letter in order, arguments consumed exactly as a prefix of those supplied |
| ModeGrammar.ParsesExactly | src/commands/CommandDispatcher.cpp:1079-1130 | a mode string is accepted exactly when its letters are i, t, k, o and l and each o and each added k and l has an argument that is not empty; each operation carries the sign in force |
| ModeLaws.ValidateExactly | src/commands/CommandDispatcher.cpp:1139-1210 | operations pass exactly when every o names a member, every added k has a key and every added l a number in 1..SIZE_MAX, removals always; the result is the operations with members' own spellings and numbers, or the error of the first that fails |
| ModeGrammar.SignsAlternate | src/commands/CommandDispatcher.cpp:1303-1328 | the announced letters are those of the operations, with a sign exactly where it changes |
| ModeLaws.ValidatedIsReady | src/commands/CommandDispatcher.cpp:1139-1210 | no setter's guard rejects a validated operation |
| ModeLaws.LastWriterWins | src/commands/CommandDispatcher.cpp:1216-1260 | after applying, each setting and each operator bit is what the last operation naming it says |
| ModeLaws.ApplyTwice | src/commands/CommandDispatcher.cpp:1216-1260 | applying a validated command again changes nothing |
| ModeLaws.ApplyKeepsOk | src/Channel.cpp:92-260 | flag and value pairs stay consistent and operators stay members |
| ModeLaws.BroadcastReplays | src/commands/CommandDispatcher.cpp:1303-1346 | the announced letters and arguments parse back to the operations, validate to the same targets and numbers, and change nothing again |
| ModeLaws.QueryRebuilds | src/commands/CommandDispatcher.cpp:1274-1291 | the flag string and values gathered for a query, given to a fresh channel, rebuild the same settings |
| ModeLines.QueryPrintsExactly | src/commands/CommandDispatcher.cpp:1267-1296 | the 324 reply can be printed exactly when its key is a middle, or one line with no limit after it, and the whole has room |
| ModeLines.QueryAnswered | src/commands/CommandDispatcher.cpp:1358-1389 | a query, with or without an empty mode string, completes exactly when that reply can be printed |
| ModeLines.QueryLineRebuilds | src/commands/CommandDispatcher.cpp:1267-1296 | the printed 324 line, parsed by the client that asked, holds the channel and a mode string with arguments that rebuild its settings |
| ModeLines.SpacedKeyIsAccepted | src/commands/CommandDispatcher.cpp:1139-1210 | "+lk" with 5 and "a b" is accepted |
| ModeLines.SpacedKeyIsUnprintable | src/commands/CommandDispatcher.cpp:1267-1296 | and after it every query of the channel throws |
| ModeBroadcast.AnnouncementReplays | src/commands/CommandDispatcher.cpp:1303-1346 | the printed MODE line itself, parsed as a command on the channel, yields the applied operations and changes nothing |
| ModeLines.WireParams | src/MessageParser.cpp:70-91 | the parameters of a line can always be printed again |
| ModeLines.AnnouncedExactly | src/commands/CommandDispatcher.cpp:1303-1346 | an accepted MODE from such a line is announced exactly when the sender's prefix is clean and the line has room; otherwise it stays applied and an exception is all that is left |
| DispatchLaws.ModeAllOrNothing | src/commands/CommandDispatcher.cpp:1410-1435 | an operator's MODE is obeyed exactly when its string parses and all its operations are acceptable; then each flag and operator bit is as its last writer says, otherwise nothing changes; members, invitations, topic, history and other channels untouched |
| DispatchLaws.ModeRefused | src/commands/CommandDispatcher.cpp:1079-1210 | one that is not obeyed is answered 472, 461, 401 or 441 for the first thing wrong with it |
| ChannelEffects.ModeGoesBy | src/commands/CommandDispatcher.cpp:1358-1436 | who is answered what before any mode is looked at; a query needs no membership |
| ChannelEffects.ModeAnnounced | src/commands/CommandDispatcher.cpp:1303-1346 | an obeyed MODE is announced to every member once, under the operator's prefix, when its line prints |
| Names.PackingIsExact | src/Server.cpp:740-813 | the payloads in order list every name once, every break is forced, and payloads fit exactly when every name fits |
| NamesLaws.EveryMemberDisplayed | src/Server.cpp:763-780 | for every order in which the members can be walked, each is listed once, with '@' exactly for operators |
| NamesLaws.NumericLength | src/Server.cpp:864-885 | a numeric reply is as long as its empty form plus its text, and exists exactly when that fits |
| NamesLaws.NamesReply | src/Server.cpp:755-805 | for every order of the members and a channel of any size: the payloads hold each displayed name once, every break is forced, and all 353 lines are sent exactly when every name fits beside the reply's overhead |
| ReplyLaws.SendNamesCompletes | src/Server.cpp:740-813 | the whole NAMES reply, its overhead and end marker included, is sent exactly when 41 bytes more than target and channel name, and 25 more than these and each displayed member, fit in 512 |
| ReplyLaws.JoinCompletes | src/commands/CommandDispatcher.cpp:498-542 | the JOIN of a client that is let in completes exactly when its announcement, the topic and the whole NAMES reply have room, as can be computed before it |
| JoinEffects.JoinExactly | src/commands/CommandDispatcher.cpp:498-542 | a JOIN that lets its client in and completes: every member, the newcomer included, is told; then the newcomer is sent 331 or 332, one 353 for each payload, 366 and the history, in this order |
| Primitives.OfferKeeps | src/Server.cpp:1445-1477 | an offered line is accepted whole at the end or not at all, and nothing accepted is lost on its way to the socket |
| Primitives.BroadcastKeeps | src/Server.cpp:1488-1505 | a broadcast keeps the whole invariant and touches nothing but output |
| Primitives.AssignNickRefuses | src/Server.cpp:373-400 | a valid nickname is refused exactly when another client owns an equal one |
| Primitives.AssignNickKeeps | src/Server.cpp:373-400 | an assigned nickname keeps the index the inverse of the clients' nicknames |
| Primitives.ChanUpdateKeeps | src/Channel.cpp:30-260 | changing topic, operators, invitations or flags within their bounds keeps the invariant |
| Membership.FindOrCreateEnterable | src/Server.cpp:532-552 | a found or created channel can be entered without breaking the invariant |
| Membership.EnterKeeps | src/Server.cpp:566-578 | joining, also a channel just created, keeps both sides of the membership and every other registry fact |
| Membership.LeaveKeeps | src/Server.cpp:593-614 | leaving, and the disappearance of an emptied channel, keep the invariant |
| Membership.DetachKeeps | src/Server.cpp:620-648 | after detaching, the client is in no channel and in no invitation list, and the invariant holds |
| Membership.ForgetKeeps | src/Server.cpp:1010-1024 | removing a detached client from index, map and poll keeps the invariant |
| Membership.AcceptKeeps | src/Server.cpp:152-182 | a fresh descriptor enters map and poll without breaking the invariant |
| ChannelLog.PostKeeps | src/commands/CommandDispatcher.cpp:1591-1611 | storing and delivering a message keeps every member's log complete, the author's included |
| ChannelLog.OfferAllShows | src/Server.cpp:823-832 | unless the replay overflowed, the lines shown are exactly the history |
| ChannelLog.ReplayKeeps | src/Server.cpp:823-832 | a replay keeps the invariant and puts the member on record |
| CommandLaws.PassKeeps | src/commands/CommandDispatcher.cpp:235-256 | PASS keeps everything, and cannot touch a registered client |
| CommandLaws.NickKeeps | src/commands/CommandDispatcher.cpp:263-312 | NICK keeps the invariant, refused, silent or announced |
| CommandLaws.UserCommandKeeps | src/commands/CommandDispatcher.cpp:319-343 | USER keeps everything, and cannot touch a registered client |
| CommandLaws.TryRegisterAfter | src/Server.cpp:1133-1142 | registering happens after PASS, NICK and USER, once, and keeps everything |
| CommandLaws.SendNamesQuiet | src/Server.cpp:740-813 | a NAMES reply changes nothing but output, also when it is cut short |
| CommandLaws.BotJoinKeeps | src/Bot.cpp:125-142 | the bot's own entry, which skips every access check, keeps the invariant |
| CommandLaws.BotKickedKeeps | src/Bot.cpp:532-545 | the bot's return after a KICK, also into a channel that vanished with it, keeps the invariant |
| CommandLaws.JoinOneKeeps | src/commands/CommandDispatcher.cpp:498-542 | one JOIN keeps the invariant; an exception on the way can cost only that client its replay |
| CommandLaws.JoinKeeps | src/commands/CommandDispatcher.cpp:560-595 | the same for a list of channels and keys |
| CommandLaws.PartKeeps | src/commands/CommandDispatcher.cpp:666-697 | PART of a list of channels keeps everything |
| DispatchLaws.InviteKeeps | src/commands/CommandDispatcher.cpp:746-843 | INVITE keeps everything, the bot's immediate entry included |
| DispatchLaws.KickKeeps | src/commands/CommandDispatcher.cpp:852-947 | KICK keeps everything, the bot's return included |
| DispatchLaws.TopicKeeps | src/commands/CommandDispatcher.cpp:959-1065 | TOPIC keeps everything |
| DispatchLaws.ModeKeeps | src/commands/CommandDispatcher.cpp:1358-1436 | MODE keeps everything |
| DispatchLaws.MessageKeeps | src/commands/CommandDispatcher.cpp:1509-1615 | PRIVMSG and NOTICE keep everything, the bot's answer included |
| DispatchLaws.DispatchKeeps | src/Server.cpp:1123-1126 | any line of any client, completed or thrown, keeps the invariant, sets no client back and costs nobody else a replay |
| Flagging.LengthCheckIsIdle | src/Server.cpp:1445-1477 | for a line within 512 bytes an offer is accepted, refused for a full buffer, or of no effect; the length check is never taken |
| Flagging.DispatchHeard | src/Server.cpp:1123-1126 | anything but a QUIT, completed or thrown, makes a disconnect request for any client only for a full output buffer: every line offered has been printed, replayed histories included |
| Flagging.OthersAreOnlyFlooded | src/Server.cpp:1123-1126 | whatever one client sends, another is flagged by it for a full output buffer only |
| Authorisation.NonOperatorsAreHarmless | src/commands/CommandDispatcher.cpp:160-230 | whatever a client sends, completed or thrown: a channel of which it is no operator keeps its settings, operators, other members and their invitations, and under +t its topic; its history at most grows by the client's own messages as a member; it disappears only if the client was alone in it |
| Authorisation.LinesAreHarmless | src/Server.cpp:1628-1655 | the same for the bytes of any line |
| ChannelRuns.VisitGuards | src/Server.cpp:1226-1280 | the same for a visit with any number of lines and the disconnection it may end in, as long as somebody else is in the channel |
| ChannelRuns.ChannelsOutlastStrangers | src/Server.cpp:1189-1310 | along any stretch of a run in which no operator of a channel is served, and nobody alone in it, the channel stays with its settings, history and, under +t, its topic, and gains no operator or invitation |
| Authorisation.InviteSpares | src/commands/CommandDispatcher.cpp:746-843 | INVITE, with the bot's entry it can cause, changes no channel of which its sender is no operator |
| Authorisation.KickSpares | src/commands/CommandDispatcher.cpp:852-947 | KICK, with the bot's return it can cause, neither |
| Authorisation.JoinOneEnters | src/commands/CommandDispatcher.cpp:498-542 | one JOIN makes its client a member exactly where it was one already or limit, invitation and key do not keep it out, even when a reply throws |
| Authorisation.JoinLetsInExactly | src/commands/CommandDispatcher.cpp:560-595 | a completed JOIN of a list makes its client a member of exactly the channels it was in and those that some name opens with the key at its position; a thrown one of no others |
| Authorisation.JoinOneRefused | src/Server.cpp:665-701 | a client that is kept out is sent 471 if the channel is full, else 473 if it lacks an invitation, else 475; 403 for an invalid name, nothing if it is in already |
| ChannelEffects.PartExactly | src/commands/CommandDispatcher.cpp:609-652 | a member's PART that prints takes exactly it out of the channel, which vanishes with its last member, and everyone who was in it is told; one that does not print changes nothing; 403 and 442 otherwise |
| ChannelEffects.PartLeavesExactly | src/commands/CommandDispatcher.cpp:666-697 | a completed PART of a list leaves its client in exactly the channels it did not name |
| ChannelEffects.KickExactly | src/commands/CommandDispatcher.cpp:852-947 | a permitted KICK that prints takes exactly its target out of the channel, its operators and invitations, and everyone who was in it, the target included, is told; one that does not print changes nothing |
| ChannelEffects.BotKickExactly | src/commands/CommandDispatcher.cpp:852-947 | the bot leaves likewise, and is back in its home channel as an operator |
| ChannelEffects.KickRefusedWith | src/commands/CommandDispatcher.cpp:852-930 | 461, 403, 401, 442, 482 and 441, in this order |
| ChannelEffects.InviteExactly | src/commands/CommandDispatcher.cpp:746-843 | a permitted INVITE leaves exactly its target invited, also when it throws; it completes exactly when both of its lines print, and then the sender has had 341 and the target the invitation |
| ChannelEffects.BotInviteExactly | src/commands/CommandDispatcher.cpp:746-843 | the bot, invited, is in |
| ChannelEffects.InviteRefusedWith | src/commands/CommandDispatcher.cpp:746-825 | 461, 403, 401, 442, 443 and 482, in this order |
| ChannelEffects.TopicExactly | src/commands/CommandDispatcher.cpp:959-1065 | a member without a text is sent 331 or 332; under +t only an operator may change the topic; then the text is stored, and told to everyone in the channel when the line prints |
| ChannelEffects.TopicRefusedWith | src/commands/CommandDispatcher.cpp:959-990 | 461, 403 and 442, in this order |
| MessageEffects.ChannelMessageExactly | src/commands/CommandDispatcher.cpp:1553-1615 | a member's PRIVMSG that prints is the channel's last line from then on and is offered to every other member; the bot may answer them all |
| MessageEffects.ChannelNoticeExactly | src/commands/CommandDispatcher.cpp:1553-1615 | a NOTICE is offered to every other member and stored nowhere |
| MessageEffects.ChannelMessageRefused | src/commands/CommandDispatcher.cpp:1553-1580 | 403 or 404 for those who are not in the channel, silence for a NOTICE |
| MessageEffects.UserMessageExactly | src/commands/CommandDispatcher.cpp:1509-1544 | a message to a nickname is offered to its owner alone, as addressed; 401, or silence for a NOTICE; the bot answers a PRIVMSG to its sender |
| MessageEffects.ClipIsLongest | src/Bot.cpp:467-485 | the bot says the longest beginning of its text that leaves the line within 512 bytes |
| MessageEffects.BotTextExactly | src/Bot.cpp:175-214 | under its own prefix, to those it is meant for |
| MessageEffects.PingExactly | src/commands/CommandDispatcher.cpp:349-361 | PONG with the token as a whole, to the sender alone |
| MessageEffects.CapExactly | src/commands/CommandDispatcher.cpp:397-452 | an empty list for LS, NAK with the request for REQ, in any case of letters; nothing else is answered |
| ConnectionLaws.ProcessBufferSound | src/Server.cpp:1593-1658 | serving a buffer keeps the registries; lines and residue are the framer's while the connection is to stay open, and it is to close exactly when the function says so |
| ConnectionLaws.ProcessBufferReads | src/Server.cpp:1593-1658 | whatever ends the loop: lines, verdict and residue are those of the framer told at which line the connection asked to close; it is a line too long, or a request after at least one line, and never an overflow |
| ConnectionLaws.ReceiveReads | src/Server.cpp:920-1004 | after any bytes the lines served are the first of those the splitter finds in everything received, with its verdict, and the connection is closed for a line too long exactly when the splitter finds one there |
| ConnectionLaws.ReceiveSound | src/Server.cpp:920-1004 | after any recv the connection agrees with the splitter or is to close; the 8192-byte branch cannot be taken |
| ConnectionLaws.FramedIsIdle | src/Server.cpp:941-960 | between reads a connection holds no LF and fewer than 512 bytes |
| ConnectionLaws.FlushSound | src/Server.cpp:1360-1429 | any partial write moves a prefix of the pending bytes, any failure asks for a disconnection, the invariant stays |
| DisconnectLaws.DisconnectSound | src/Server.cpp:1043-1121 | completed, exactly that client is gone; completed or not, the rest is sound and was not read from |
| DisconnectLaws.DisconnectFreesOwnNick | src/Server.cpp:1010-1024 | a disconnection frees precisely the entry of its own client |
| DisconnectLaws.DisconnectChannels | src/Server.cpp:620-648 | the client is out of every channel; those in which it was alone are gone, nothing else about the others has changed |
| Forecast.DisconnectParts | src/Server.cpp:1043-1121 | exactly the client is gone, and exactly those who share a channel with it have been offered its QUIT line once |
| DisconnectLaws.DisconnectCompletes | src/Server.cpp:1078-1098 | it completes exactly for a stranger, a client in no channel, or a printable QUIT line; otherwise the client stays, flagged |
| DisconnectLaws.QuitLineFits | src/Server.cpp:1078-1095 | the QUIT line is printable exactly when prefix and reason are clean and leave room for 10 more bytes |
| QuitLaws.QuitVisit | src/Server.cpp:1226-1280 | a visit in which the next complete line of a registered member, however it was cut into reads and whatever follows it, is a QUIT with any reason completes exactly when the prefix is clean and prefix, reason and 10 more bytes fit in 512; otherwise it throws |
| QuitLaws.QuitEndsTheRun | src/Server.cpp:1189-1310 | when it does not, the round is left by an exception, whatever arrives and whoever is served besides, and with it the loop; the drain of the shutdown over the state left behind throws as well |
| Failures.LongQuitEndsTheRun | src/commands/CommandDispatcher.cpp:383-390 | a run from the start, in which a client registers and joins a channel, after which any legal QUIT line with 498 bytes of reason or more does so |
| Failures.KeyStaysUntold | src/commands/CommandDispatcher.cpp:1303-1346 | a run after which an operator's legal MODE line with a key of 493 bytes or more sets the key for good, closes the operator and tells the other member nothing but that |
| Failures.LongNickKeepsOut | src/Server.cpp:740-813 | a run after which a member takes a nickname of 484 to 497 bytes, and the next client to join its channel is disconnected over the NAMES reply |
| RegistryLaws.LookupIsSearch | src/Server.cpp:440-453 | the index answers a nickname with exactly the client a linear search would find |
| RegistryLaws.NicknamesUnique | src/Server.cpp:373-400 | no two clients have nicknames that the casemap identifies |
| RegistryLaws.RefusedNickChangesNothing | src/commands/CommandDispatcher.cpp:266-298 | a malformed or taken nickname changes nothing but output |
| RegistryLaws.AcceptedNickIsFound | src/commands/CommandDispatcher.cpp:263-312 | any other NICK is carried out, and the client is found under it |
| RegistryLaws.NickGrammar | src/Server.cpp:310-362 | nicknames are the characters 0x41 to 0x7D, digits and '-', the latter two not at the start |
| RegistryLaws.NicknameLengthIsFree | src/Server.cpp:321-362 | a nickname goes on being one with exactly the tails made of the allowed characters, of any length |
| RegistryLaws.TenLettersAccepted | src/Server.cpp:310-362 | a client that asks for a free nickname of ten letters has it and is found under it |
| RegistryLaws.FanOutReaches | src/Server.cpp:1512-1552 | the audience computed from joined sets is exactly the real members of the client's channels |
| RegistryLaws.FanOutOnce | src/Server.cpp:1512-1552 | each of them, and the client itself, is offered the line exactly once, and has it at the end of its output if it is open and has room; nobody else anything |
| RegistryLaws.MembersSawEverything | src/Server.cpp:823-832 | replayed lines followed by live ones are the channel's whole history in order, minus the member's own later lines |
| RunLaws.BootHealthy | src/Bot.cpp:48-142 | the bot's start leaves a healthy server |
| RunLaws.BootCompletes | src/Bot.cpp:48-142 | the bot's start cannot fail |
| RunLaws.StepHealthy | src/Server.cpp:1189-1310 | every accept, visit and sweep keeps the server healthy; even an exception leaves the registries sound |
| RunLaws.TraceHealthy | src/Server.cpp:1189-1310 | every state of every run is healthy, with the same password |
| RunLaws.RegistriesAgree | src/Server.cpp:532-648 | in every reachable state the facts about keys, members, operators, invitations, joined sets and registration agree |
| RunLaws.PollListsClients | src/Server.cpp:1043-1121 | in every reachable state poll lists each client once and nobody else |
| RunLaws.ConnectionsGrow | src/Server.cpp:1189-1310 | along a run a connection only moves forward |
| RunLaws.RegistrationIsFinal | src/Server.cpp:1123-1142 | registration implies the right PASS, a nickname and USER, never reverts, is welcomed once, and freezes user name and password flag |
| RegistrationLaws.RegistersInAnyOrder | src/commands/CommandDispatcher.cpp:235-343 | PASS with the right password, NICK with a free valid nickname and USER with its names, each once and in any order, register a client exactly when all three have completed, under these names |
| RegistrationLaws.RegisterExactly | src/Server.cpp:1133-1142 | whoever has given all three and is not registered is registered and welcomed, and nobody else |
| RegistrationLaws.WelcomeExactly | src/Server.cpp:1144-1179 | the five lines of the welcome, literally and in order |
| RegistrationLaws.NickAnnounced | src/commands/CommandDispatcher.cpp:263-312 | a carried-out NICK is told under the earlier name, by a registered client whose nickname really changes |
| RegistrationLaws.NickRefusedWith | src/commands/CommandDispatcher.cpp:263-298 | 431, 432 and 433 |
| RegistrationLaws.CommandTable | src/commands/CommandDispatcher.cpp:90-152 | the fifteen commands, their parameters and the eight for registered clients only |
| RegistrationLaws.SpellingFound | src/commands/CommandDispatcher.cpp:160-175 | a supported command is found in whatever case it was sent |
| RegistrationLaws.GateExactly | src/commands/CommandDispatcher.cpp:160-230 | 421, 451, 431, 409, 411 and 412 for what does not get to a handler |
| RegistrationLaws.QuitExactly | src/commands/CommandDispatcher.cpp:383-390 | the reason given, or "Client Quit"; an earlier request stands |
| RegistrationLaws.BootExactly | src/Bot.cpp:48-142 | the server starts with "marvin" alone in "#bot", its operator, under the topic that introduces it |
| RunLaws.OutputConserved | src/Server.cpp:1445-1477 | sent and pending bytes are the accepted lines in order, within the limit; nothing is accepted after the first disconnect request and its reason stays |
| WireLaws.FlushExactly | src/Server.cpp:1360-1429 | of at most 16384 pending bytes handed to send exactly those that it reported leave the buffer; the connection goes on unless it failed |
| WireLaws.WireConserved | src/Server.cpp:1360-1429 | in every run what the peer has received since it was accepted, computed from what each send reported, followed by what is pending, is the accepted lines in order |
| VisitLaws.VisitExactly | src/Server.cpp:1226-1280 | a visit that reads nothing flushes, or ends the connection for the first thing that went wrong: invalid descriptor, end of stream, errors of recv and send, socket error, hangup; its channels are told that reason, and it completes exactly when their line prints |
| VisitLaws.BadLineIsHarmless | src/Server.cpp:1628-1641 | a line that cannot be read changes nothing and its connection goes on |
| VisitLaws.GoodLineIsDispatched | src/Server.cpp:1628-1653 | any other line is dispatched; an exception keeps what was done and closes the connection, for "Client disconnected" unless it had a reason |
| VisitLaws.LongLineEnds | src/Server.cpp:1606-1616 | a line too long closes it for that reason |
| VisitLaws.WakingExactly | src/Server.cpp:1195-1309 | waits that bring nothing change nothing; the first that brings something ends the loop, or runs a round after which it goes on unless that threw or a signal was seen |
| VisitLaws.AcceptingExactly | src/Server.cpp:205-228 | accepting pauses when accept fails and resumes with the next completed disconnection, unless the server is shutting down |
| RunLaws.ConnectionsFramed | src/Server.cpp:1593-1658 | in every reachable state a connection's served lines and residue are the splitter's on everything received |
| RunLaws.RoundIsRun | src/Server.cpp:1221-1304 | a round of the loop is a stretch of a run |
| Forecast.SweepForeseen | src/Server.cpp:1282-1304 | the second loop, computed before it: it completes exactly when the QUIT line of everyone flagged at its turn prints; then it leaves exactly the others, and flagged among them are exactly those that the farewells of the whole loop flood |
| Forecast.SweptExactly | src/Server.cpp:1282-1304 | a client is gone after the loop exactly when it was flagged at its turn |
| Forecast.SweepIsClean | src/Server.cpp:1282-1304 | the loop removes exactly those flagged before it and leaves nobody flagged exactly when everyone else has room for the QUIT lines of the flagged clients it shares a channel with |
| LateFlag.FlaggedRemains | src/Server.cpp:1282-1304 | a run after which a legal line is followed by a round that ends with a flagged client still connected |
| Shutdown.CloseClientsDrains | src/Server.cpp:1689-1693 | the drain ends with no client left, or at an exception, the registries sound |
| Forecast.CloseClientsExactly | src/Server.cpp:1689-1693 | the drain completes exactly when, in the order of descriptors, each client's QUIT line prints with the reason foreseen for it: its own, the overflow caused by the lines before it, or the shutdown |
| Shutdown.ShutdownEmptiesEverything | src/Server.cpp:1688-1709 | after drain and bot stop the channel and nickname maps are empty before the explicit clears |
| ClientObject.FindLF | src/Client.cpp:244 | the first LF |
| ClientObject.Client.constructor | src/Client.cpp:6-22 | a client that has said nothing |
| ClientObject.Client.AppendToInputBuffer | src/Client.cpp:79-81 | bytes join the end of the input buffer, nothing else changes |
| ClientObject.Client.AppendToOutputBuffer | src/Client.cpp:87-89 | bytes join the end of the output buffer, on record as accepted |
| ClientObject.Client.RequestDisconnect | src/Client.cpp:182-194 | the first reason wins and is never empty |
| ClientObject.Client.RemoveSentOutput | src/Client.cpp:209-216 | a prefix leaves the buffer for the wire, all of it when more was reported |
| ClientObject.Client.JoinChannel | src/Client.cpp:218-220 | the folded name joins the set |
| ClientObject.Client.LeaveChannel | src/Client.cpp:222-224 | the folded name leaves the set |
| ClientObject.Client.ExtractNextLine | src/Client.cpp:243-268 | the next line, an incomplete residue or an oversized fragment, taken off the buffer as the framer specifies |
| ChannelObject.Channel.constructor | src/Channel.cpp:4-17 | a channel without members, modes or history |
| ChannelObject.Channel.SetTopic | src/Channel.cpp:30-32 | the topic, nothing else |
| ChannelObject.Channel.AddMember | src/Channel.cpp:38-43 | one more member |
| ChannelObject.Channel.RemoveMember | src/Channel.cpp:49-56 | out of members, operators and invitations |
| ChannelObject.Channel.AddOperator | src/Channel.cpp:92-97 | only a member becomes an operator |
| ChannelObject.Channel.RemoveOperator | src/Channel.cpp:103-108 | the privilege goes, the membership stays |
| ChannelObject.Channel.InviteClient | src/Channel.cpp:125-130 | only a non-member is invited |
| ChannelObject.Channel.RemoveInvitation | src/Channel.cpp:136-141 | the invitation goes |
| ChannelObject.Channel.SetInviteOnly | src/Channel.cpp:168-170 | the +i flag |
| ChannelObject.Channel.SetTopicRestricted | src/Channel.cpp:186-188 | the +t flag |
| ChannelObject.Channel.SetKey | src/Channel.cpp:207-213 | a non-empty key and its flag together |
| ChannelObject.Channel.RemoveKey | src/Channel.cpp:218-221 | key and flag together |
| ChannelObject.Channel.SetUserLimit | src/Channel.cpp:242-248 | a positive limit and its flag together |
| ChannelObject.Channel.RemoveUserLimit | src/Channel.cpp:257-260 | limit and flag together |
| ChannelObject.Channel.AddHistoryMessage | src/Channel.cpp:266-271 | a non-empty line joins the end of the history |
| ServerObject.IsValidNickname | src/Server.cpp:321-362 | the loop accepts exactly the nickname grammar, without a length limit |
| ServerObject.IsValidChannelName | src/Server.cpp:414-438 | the loop accepts exactly the channel-name grammar |
| ServerObject.Server.constructor | src/Server.cpp:236-244 | a server whose poll list is the listening socket and that knows nobody |
| ServerLoop.StartServer | src/Server.cpp:23-41 | it starts exactly for a port in 1..65535, a password and a listening socket, refusing in that order; started, it is healthy and the bot is its only client, as the specification of the start says |
| ServerObject.Server.UpdateClientPollEvents | src/Server.cpp:1321-1346 | the one entry of the client is re-armed to match its buffer; the two logic errors are unreachable |
| ServerObject.Server.QueueMessage | src/Server.cpp:1445-1477 | the client's output becomes what the specification of one offer says, and POLLOUT agrees with it |
| ServerObject.Server.QueueMessageToMembers | src/Server.cpp:1488-1505 | every recipient is offered the line once, whatever the order of the walk |
| ServerObject.Server.ShareChannel | src/Server.cpp:1527-1545 | the inner walk finds a common channel exactly when there is one |
| ServerObject.Server.QueueMessageToRelatedClients | src/Server.cpp:1512-1552 | the source and each related client are offered the line once |
| ServerObject.Server.QueueNumericReply | src/Server.cpp:1574-1583 | the reply is printed and offered, or its exception leaves the state alone |
| ServerObject.Server.RemoveNicknameIndexEntry | src/Server.cpp:1010-1024 | only the client's own entry can go |
| ServerObject.Server.AssignNickname | src/Server.cpp:373-400 | the index and the client change together, or a taken name changes nothing |
| ServerObject.Server.FindClientByNickname | src/Server.cpp:440-453 | the folded lookup |
| ServerObject.Server.FindChannel | src/Server.cpp:505-518 | the folded lookup |
| ServerObject.Server.FindOrCreateChannel | src/Server.cpp:532-552 | an existing channel, a new one under the folded key, or nothing for an invalid name |
| ServerObject.Server.AddClientToChannel | src/Server.cpp:566-578 | both sides of the membership, the consumed invitation and the first operator |
| ServerObject.Server.RemoveChannelIfEmpty | src/Server.cpp:607-614 | an empty channel, and only that, disappears |
| ServerObject.Server.RemoveClientFromChannel | src/Server.cpp:593-602 | both sides of the departure, and the emptied channel |
| ServerObject.Server.FlushClientOutput | src/Server.cpp:1360-1429 | what send took leaves the buffer, POLLOUT follows, and each failure has its reason |
| ServerObject.Server.Register | src/Server.cpp:152-182 | the new client is in the map and in poll |
| ServerObject.Server.Unregister | src/Server.cpp:1097-1113 | the client is out of the map and its entry out of poll |
| ServerReplies.ValidateChannelJoinAccess | src/Server.cpp:665-701 | limit, invitation and key are checked in that order and the first failure is replied |
| ServerReplies.SendChannelTopic | src/Server.cpp:711-726 | 331 or 332 |
| ServerReplies.SendNamePayloads | src/Server.cpp:755-805 | the loop that flushes at each overflow sends exactly the packed payloads, in the order in which it walks the members, whatever that is |
| ServerReplies.SendChannelNames | src/Server.cpp:740-813 | payloads and end marker in that order, or the exception where it strikes |
| ServerReplies.SendChannelHistory | src/Server.cpp:823-832 | every stored line is offered in order, and the replay is on record |
| ServerReplies.SendWelcomeMessages | src/Server.cpp:1144-1179 | the five welcome replies in order |
| ServerReplies.TryRegisterClient | src/Server.cpp:1133-1142 | registered and welcomed exactly when complete and not yet registered |
| ServerConnections.DetachOne | src/Server.cpp:625-638 | one channel loses the client and its invitation |
| ServerConnections.DetachFromAll | src/Server.cpp:620-641 | the first loop, in any order, leaves every channel without the client and collects the emptied ones |
| ServerConnections.DetachClientFromChannels | src/Server.cpp:620-648 | after the second loop the emptied channels are gone |
| ServerConnections.AcceptClient | src/Server.cpp:126-203 | a fresh descriptor becomes a client; one already known changes nothing |
| ServerConnections.BidFarewell | src/Server.cpp:1063-1095 | the stored reason wins, and whoever shares a channel is told once |
| ServerConnections.DisconnectClient | src/Server.cpp:1043-1121 | registries, objects and poll lose the client together, or the exception leaves it flagged; a second call has no effect |
| BotObject.SendText | src/Bot.cpp:175-214 | the clipped text is offered, or nothing |
| BotObject.JoinChannel | src/Bot.cpp:125-142 | entry, announcement, operator at home, greeting |
| BotObject.HandleKick | src/Bot.cpp:532-545 | back home, into a new channel if it vanished |
| Dispatcher.HandlePass | src/commands/CommandDispatcher.cpp:235-256 | the flag follows the comparison, and a mismatch is replied |
| Dispatcher.HandleNick | src/commands/CommandDispatcher.cpp:263-312 | refusals, silent and announced changes, with the prefix from before |
| Dispatcher.HandleUser | src/commands/CommandDispatcher.cpp:319-343 | user and real name, or the refusal |
| Dispatcher.JoinClientToSingleChannel | src/commands/CommandDispatcher.cpp:498-542 | one JOIN with its refusals and its four replies |
| Dispatcher.HandleJoin | src/commands/CommandDispatcher.cpp:560-595 | the loop pairs channels and keys by position and goes on after a refusal |
| Dispatcher.PartClientFromSingleChannel | src/commands/CommandDispatcher.cpp:609-652 | announced before the departure |
| Dispatcher.HandlePart | src/commands/CommandDispatcher.cpp:666-697 | the loop over the channels with a shared reason |
| Dispatcher.HandleInvite | src/commands/CommandDispatcher.cpp:746-843 | the checks in order, then the invitation, its two messages and the bot's reaction |
| Dispatcher.HandleKick | src/commands/CommandDispatcher.cpp:852-947 | the checks in order, then announcement, departure and the bot's reaction |
| Dispatcher.HandleTopic | src/commands/CommandDispatcher.cpp:959-1015 | report, refusal or change |
| Dispatcher.ApplyTopicChange | src/commands/CommandDispatcher.cpp:1046-1065 | stored, then announced to every member |
| Dispatcher.ValidateChannelModeOperations | src/commands/CommandDispatcher.cpp:1139-1210 | the rewritten operations, or the reply to the first one that fails |
| Dispatcher.ApplyChannelModeOperations | src/commands/CommandDispatcher.cpp:1216-1260 | the setters in order have the effect of the whole command |
| Dispatcher.NotifyChannelModeChanges | src/commands/CommandDispatcher.cpp:1303-1346 | the printed operations are announced to every member |
| Dispatcher.SendChannelModeIs | src/commands/CommandDispatcher.cpp:1267-1296 | the flags in itkl order and their values |
| Dispatcher.HandleMode | src/commands/CommandDispatcher.cpp:1358-1436 | query, refusals or the whole change |
| Dispatcher.SendMessageToUser | src/commands/CommandDispatcher.cpp:1509-1544 | delivery, the silent or replied refusal, the bot's answer |
| Dispatcher.SendMessageToChannel | src/commands/CommandDispatcher.cpp:1553-1615 | PRIVMSG is stored and delivered to every other member, NOTICE only delivered |
| Dispatcher.HandlePing | src/commands/CommandDispatcher.cpp:349-361 | PONG with the token |
| Dispatcher.HandleCap | src/commands/CommandDispatcher.cpp:397-452 | LS, NAK or silence |
| Dispatcher.HandleQuit | src/commands/CommandDispatcher.cpp:383-390 | the reason, or the default one, as a disconnect request |
| Dispatcher.ExecuteCommand | src/commands/CommandDispatcher.cpp:160-230 | the gate's refusals in order, then the handler |
| Dispatcher.DispatchCommand | src/Server.cpp:1123-1126 | the command, then the attempt to register |
| ServerLoop.ProcessClientBuffer | src/Server.cpp:1593-1658 | the loop ends and serves the buffer as specified, with parse errors survived and exceptions closing the connection |
| ServerLoop.ReceiveClientData | src/Server.cpp:920-1004 | what each result of recv leads to |
| ServerLoop.VisitDescriptor | src/Server.cpp:1226-1280 | receive, flush, and a disconnection with the right fallback reason |
| ServerLoop.VisitEveryDescriptor | src/Server.cpp:1224-1280 | the index loop ends and visits each descriptor that was in poll exactly once, in order, despite removals |
| ServerLoop.SweepEveryDescriptor | src/Server.cpp:1282-1304 | the second index loop ends and treats each descriptor once |
| ServerLoop.RunRound | src/Server.cpp:1195-1309 | accepting and both loops, and the server stays healthy |
| ServerLoop.Run | src/Server.cpp:1189-1310 | the loop over what poll returns: interrupted and timed-out waits are repeated, errors of poll and of the listening socket and a round's exception leave it, a shutdown signal ends it, and the server is healthy in between |
| ServerLoop.StartBot | src/Bot.cpp:48-123 | the virtual client, its reserved nickname and its home channel |
| ServerLoop.StopTheBot | src/Bot.cpp:71-91 | out of every channel in any order, the nickname freed, the client gone |
| ServerLoop.DrainClients | src/Server.cpp:1689-1693 | the loop ends, and reports an exception exactly when the specification does |
| ServerLoop.CloseAllFds | src/Server.cpp:1688-1709 | completed, it leaves no client, nickname, channel, bot or descriptor, and nothing was left to clear |

## Left out

- Socket creation, bind, listen, fcntl and host resolution: foreign calls. A connection arrives as a descriptor and a host name; a descriptor that could not be configured is closed at once and changes nothing.
- `errno` values: they are the cases of `Waking`, `RecvResult`, `SendResult` and `Arrival`.
- Signals: whether a shutdown was requested is a parameter, the same for all disconnections of one round. It decides whether accepting resumes, and ends the loop after the round.
- Console output, `main`, the parsing of port and password arguments.
- What the bot answers to a text command, CTCP included: a parameter (`BotAnswer`), one for each line a connection sends; its clipping, delivery and membership reactions are modelled.
- `Client *`: channels and the nickname index hold descriptors, so a dangling pointer is a descriptor without a client, which the invariant excludes. Destruction of objects is their removal from `Server.Objects`.
- Exhausted memory and other exceptions of the standard library.
- `Client::isOperator`, the copy operations of `Client`, and `CommandDispatcher::canJoinChannel`: nothing calls them.
- `CodecLaws`, `Framing` and all text: `char` stands for a byte, and nothing depends on values above 127.
- ServerObject.Server.Find, ServerObject.Server.FindKey and the other queries of the class that only read a field for their callers have no row.
