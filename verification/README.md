# MinecraftDiscordBot, modelled in Dafny

MinecraftDiscordBot polls a Minecraft server with the Server List Ping
protocol. It turns each answer into a server state and a list of players.
It then tells a Discord server who joined or left, and shows the state in
the bot's presence and in a status embed. The repository holds three
generations of this poll-and-diff logic, and all three share one ping
client:

- `minecraft.py`: the ping client. It sends the handshake and status
  request, reads the VarInt-framed response and builds the `Server`,
  `Players` and `Player` records from the JSON status document.
- `server.py`: the newest tracker. `Sender` says where notices go. `State`
  classifies each poll as offline, sleeping, starting or online and
  collects pending logins and logouts in sets. `state_changed` answers "did
  anything change" once per poll. `Tracker.update` renders the login
  message and the presence.
- `minecraftpinger.py`: a bot cog. Status codes are 0 offline, 1 online
  and 2 starting. The roster is an ordered list. Login and logout lines are
  packed into chunks of at most 2000 characters.
- `main.py`: the first script. Its module globals `status`, `players`,
  `player_names` and `refresh_embed` follow the same scheme.

The model has one module per concern:

| file | module | models |
|---|---|---|
| base.dfy | `Base` | bytes, `Option`, Python exceptions as `Exc`, `Result`, JSON values, `dict.get` and `d[key]` |
| text.dfy | `Text` | `str(n)`, `sep.join`, `str.split` and their round trip |
| discord.dfy | `Discord` | the presence values handed to the chat client |
| varint.dfy | `VarInt` | `read_var_int` over the bytes still to arrive, and a reference encoder |
| wire.dfy | `Wire` | the socket: chunks still to arrive, bytes sent |
| minecraft.dfy | `Minecraft` | the status record, the handshake frame, response reading, `ping` |
| batcher.dfy | `Batcher` | the ordered list diff and the 2000-character batcher used by both older bots |
| tracker.dfy | `Tracking` | `server.py`: `Sender`, the `State` class, the `Tracker` class |
| pinger.dfy | `PingerCog` | `minecraftpinger.py`: the `Cog` class |
| mainbot.dfy | `MainBot` | `main.py`: its globals as the `Bot` class |

Each stateful class (`Wire.Socket`, `Tracking.State`, `PingerCog.Cog`,
`MainBot.Bot`) has fields that its methods reassign. `Tracking.Tracker` is
the exception: its fields are constant, and its `Update` changes the fields
of the `State` it holds. Each method is proved against a pure function of the old fields. Examples are
`Tracking.UpdateSpec`, `Tracking.ChangedSpec`, `PingerCog.RefreshSpec` and
`MainBot.RefreshSpec`. The lemmas state what the source promises about those
functions.

`minecraft.ping` is the only source of server answers. Each bot receives
its outcome as a parameter `poll: Result<Server>`, which holds either the
record or the exception the call raised. TimeoutError and
ConnectionRefusedError can only come from the network, so they appear only
as poll outcomes. AttributeError also arises inside the model: the
response-length branch calls a `read` method that sockets do not have, and
a bot without a log channel raises it on its first send.

Quirks of the code that the model keeps:

- When a poll is not online, `State.update` moves the old roster into the
  pending *logins*, not the logouts (server.py:117-120). So after a timeout,
  a tracker with a login target announces the players who were online as
  having joined (`Tracking.NotOnlineMovesRosterToLogin`).
- `state_changed` drains the pending logins only when there were no pending
  logouts, because `or` short-circuits (server.py:150,
  `Tracking.ChangedReportsNews`).
- The batcher does not carry an overflowing line into the next chunk. It
  sends the current chunk and drops that line (minecraftpinger.py:99-101,
  main.py:105-107, `Batcher.PackOverflow`). So when each chunk has room for
  only one line, two logins produce one chunk, not two.
- `main.get_embed` tests `len(server_status > 0)` (main.py:79), which
  compares a `Server` with an int and raises TypeError. No `except` clause
  of `refresh` catches it. So every round of `main.py` that changes the
  presence while the server is online ends with TypeError, which ends the
  refresh loop, unless a missing log channel stops the round first
  (`update_players` then raises AttributeError, which is caught as
  status 2). The first online round after start-up is one of them
  (`MainBot.FirstOnlineRoundRaises`).
- Without a server channel, `resend_embed` raises AttributeError, which
  `refresh` catches as status 2. So an offline answer flips the status
  0 → 2 in every round, with two presence calls
  (`MainBot.OfflineFlapsWithoutServerChannel`).
- The message texts are French ("a rejoint la partie", "a quitté la
  partie"). The status names are those of the source.

## Model

| member | source | states |
|---|---|---|
| VarInt.ReadFrom | minecraft.py:53-63 | the loop from byte j on consumes at most six bytes and never more than remain; a successful value is non-negative |
| VarInt.Decode | minecraft.py:50-63 | `read_var_int` consumes no more than the stream holds and never yields a negative value |
| VarInt.DecodeStops | minecraft.py:58-63 | a VarInt whose n-th byte (n ≤ 5) is the first without the 0x80 bit yields Σ (b_i & 0x7F)·2^(7i) over those n bytes and consumes exactly them |
| VarInt.DecodeBound | minecraft.py:58-63 | a successful read consumes at most 5 bytes, so 0 ≤ result < 2^35 |
| VarInt.DecodeTooBig | minecraft.py:59-61 | five continuation bytes followed by any sixth byte raise 'var_int too big', whatever the sixth byte's continuation bit |
| VarInt.DecodeEndOfStream | minecraft.py:54-56 | when the stream ends inside a VarInt the result is 0; the partial value is discarded |
| VarInt.DecodeEncode | minecraft.py:50-63 | round trip: decoding the protocol encoding of any n < 2^35, whatever follows, yields n and consumes exactly the encoding |
| Wire.Socket.Recv | minecraft.py:88 | `recv(n)` returns at most n of the pending bytes, in order, and removes them; it returns nothing only for n = 0 or a closed stream |
| Wire.Socket.SendAll | minecraft.py:76 | `sendall` appends exactly the given bytes to what was sent |
| Minecraft.ReadVarInt | minecraft.py:50-63 | the imperative loop returns `VarInt.Decode` of the pending bytes and consumes exactly the bytes it used |
| Minecraft.PlayerFromJson | minecraft.py:39-42 | a player needs a dict with `id` and a string `name`, and keeps both |
| Minecraft.SampleFromJson | minecraft.py:30 | the sample succeeds iff every entry is a valid player, and keeps length and order |
| Minecraft.PlayersFromJson | minecraft.py:28-32 | a roster needs `max` and `online` and keeps their values |
| Minecraft.ServerFromJson | minecraft.py:10-19 | a record needs `players` and `version` with `name` and `protocol`; the roster and the version fields come from them |
| Minecraft.DescriptionText | minecraft.py:12-14 | a dict description becomes its `text` (KeyError without one); any other description, or None when absent, is kept |
| Minecraft.SampleDefaultsEmpty | minecraft.py:30-32 | without `sample` the roster is empty, and it succeeds iff `max` and `online` are present |
| Minecraft.SampleRoundTrip | minecraft.py:30 | every list of players is recovered from the sample document describing it |
| Minecraft.ServerJsonRoundTrip | minecraft.py:10-19 | every status record is recovered from the status document describing it |
| Minecraft.HandshakeFrame | minecraft.py:68-76 | the frame is accepted iff h + 6 ≤ 127 (h = host length); it is [h+6, 0x00, 0x04, h] ++ host ++ [port>>8, port&0xFF, 0x01] ++ [0x01, 0x00] |
| Minecraft.HandshakeVarIntFraming | minecraft.py:72-75 | the two signed length bytes of an accepted frame are also the VarInt encodings of those lengths |
| Minecraft.BuildFrame | minecraft.py:69-76 | building the frame by successive `data +=` gives `HandshakeFrame` |
| Minecraft.ResponseLengthChecked | minecraft.py:77-82 | a payload is read only after a packet length ≥ 10; a length below 10 fails with AttributeError, since the socket has no `read` |
| Minecraft.StringRoundTrip | minecraft.py:85-92 | a VarInt length followed by that many bytes reads back exactly those bytes, whatever follows |
| Minecraft.ResponseRoundTrip | minecraft.py:77-92 | a response with length ≥ 10, any packet id and a VarInt-prefixed payload yields exactly that payload, whatever follows |
| Minecraft.ReadExactly | minecraft.py:85-92 | the payload loop returns exactly the next `length` bytes and consumes only them; a stream that ends early raises 'connection abborted' |
| Minecraft.Receive | minecraft.py:77-92 | reading the response from the socket returns `ReadResponse` of the pending bytes |
| Minecraft.Ping | minecraft.py:49-96 | `ping` returns or raises `Exchange` of the bytes received; the frame is sent exactly when it can be packed |
| Text.SplitJoin | server.py:193 | lines without '\n', joined with '\n', split back into the same lines |
| Tracking.NewSender | server.py:14-38 | a sender needs exactly one of channel id and webhook URL; neither or both raise the source's ValueError; `type` records which one was given |
| Tracking.SenderFromData | server.py:61-67 | a non-dict entry raises AttributeError; a dict succeeds iff exactly one of `channel` and `webhook` is present and not null; the thread id is `thread`, or null when absent |
| Tracking.SenderRoundTrip | server.py:61-67 | `from_data` rebuilds every sender from its own configuration entry |
| Tracking.StateFromData | server.py:154-162 | a non-dict raises AttributeError; `ip` is the entry's value or null, `port` the entry's value or 25565; each version list is the entry's own array, or by default [] for `sleeping` and `offline` and ["Old"] for `starting`; a dict succeeds iff every list it gives is an array of strings, and fails with TypeError otherwise |
| Tracking.StringArrayRead | server.py:159-161 | a list of version names is read back from its own JSON array |
| Tracking.StateRoundTrip | server.py:154-162 | every state configuration is rebuilt from the entry that spells out its address, port and three version lists |
| Tracking.StateDefaultLists | server.py:154-162 | an entry with `ip` and `port` and no version list gets the lists [], ["Old"] and [] |
| Tracking.StateDefaults | server.py:154-162 | an entry with only `ip` gets port 25565, starting versions ["Old"] and empty sleeping and offline lists |
| Tracking.Classify | server.py:108-115 | precedence: the offline list, then starting, then sleeping; any other version is online |
| Tracking.UpdateSavesPrevious | server.py:98-135 | `update` saves the old state into `previous_state`; it raises exactly on exceptions other than Timeout, ConnectionRefused and AttributeError; otherwise it sets `refreshed` |
| Tracking.UpdateClassifies | server.py:101-115 | Timeout and ConnectionRefused give offline, AttributeError gives starting, and an answer is classified by its version |
| Tracking.NotOnlineMovesRosterToLogin | server.py:117-120 | not online: the pending logins become the old roster, the pending logouts are emptied, and the roster is emptied |
| Tracking.OnlineAccumulates | server.py:121-131 | online: new names join the pending logins, vanished names join the pending logouts, and the roster becomes the sampled names |
| Tracking.ChangedReportsNews | server.py:147-150 | after an update, `state_changed` clears `refreshed` and drains the logouts; it drains the logins only if there were no logouts; it answers whether anything was pending or the state moved |
| Tracking.ChangedDebounced | server.py:147-152 | a second `state_changed` answers false and changes nothing; before any update it raises AttributeError |
| Tracking.QuietSecondPoll | server.py:98-152 | the same successful poll twice, with the pending sets drained in between, announces nothing and reports no change |
| Tracking.ListOf | server.py:140 | `list(set)` holds each element of the set exactly once |
| Tracking.State.constructor | server.py:76-96 | a new state has no previous or current state, empty sets and no `refreshed` |
| Tracking.State.Update | server.py:98-135 | the field updates and `.add` loops give `UpdateSpec` of the old fields |
| Tracking.State.Accumulate | server.py:121-131 | the two `.add` loops add the new names to the pending logins and the vanished names to the pending logouts; the roster becomes the sampled names |
| Tracking.State.NewPlayersLogin | server.py:137-140 | returns the pending logins, each once, and leaves the set empty |
| Tracking.State.NewPlayersLogout | server.py:142-145 | returns the pending logouts, each once, and leaves the set empty |
| Tracking.State.StateChanged | server.py:147-152 | `state_changed` gives `ChangedSpec` of the old fields |
| Tracking.LoginMessage | server.py:180-195 | there is a message iff someone joined or left; it starts with "```fix\n" and ends with "\n```" |
| Tracking.Render | server.py:180-195 | the two `messages.append` loops and the join build exactly `LoginMessage` of the drained sets |
| Tracking.MessageRecoversLines | server.py:180-195 | the message exists iff someone joined or left; it is "```fix\n" + lines + "\n```" with every login line before every logout line, and splitting its body at '\n' gives the lines back |
| Tracking.TrackerPresence | server.py:199-221 | a presence is set iff there is a state; its status maps back to that state; only the online state carries an activity |
| Tracking.PresenceNamesState | server.py:199-221 | each state has its own presence status (online, dnd, offline, idle); only online has an activity, "avec 1 joueur" or "avec N joueurs" |
| Tracking.RoundChangedIffMoved | server.py:180-199 | with a login target, `state_changed` in a round is true iff the state moved |
| Tracking.Tracker.constructor | server.py:165-175 | a tracker keeps its state, its two senders and its presence flag |
| Tracking.Tracker.Update | server.py:177-221 | a round raises what `update` raises; otherwise it drains and renders the pending sets when there is a login target, and sets the presence iff shown and changed |
| Batcher.Without | minecraftpinger.py:81-87 | a name is in the result iff it is in the first list and absent from the second |
| Batcher.WithoutCounts | minecraftpinger.py:81-87 | each kept name keeps its number of occurrences; the others vanish |
| Batcher.WithoutOrder | minecraftpinger.py:81-87 | the result is a subsequence of the first list: logins keep new-list order, logouts old-list order |
| Batcher.Diff | minecraftpinger.py:78-87 | the two append loops yield exactly the logins and the logouts |
| Batcher.WithoutSelf | minecraftpinger.py:81-87 | a list minus itself is empty: an unchanged roster gives no logins and no logouts |
| Batcher.Lines | minecraftpinger.py:92-93 | one line per login and one per logout |
| Batcher.LinesShape | minecraftpinger.py:92-93 | the login lines come first; each line starts with its player's name and ends with '\n', so none is empty |
| Batcher.PackLines | minecraftpinger.py:94-104 | the batching loop sends exactly the chunks of `Pack`, in order |
| Batcher.PackBounded | minecraftpinger.py:94-104 | every chunk starts with "```fix\n", ends with "```" and has at most 2000 characters |
| Batcher.PackFits | minecraftpinger.py:96-104 | lines that fit together are sent as one chunk; nothing is sent without lines |
| Batcher.PackOverflow | minecraftpinger.py:99-101 | at the first line that does not fit, the chunk so far is sent and that line is dropped; if the bare header cannot take it, an empty "```fix\n```" chunk is sent |
| Batcher.PackNothing | minecraftpinger.py:103-104 | with non-empty lines, something is sent iff there is a line |
| PingerCog.StatusCode | minecraftpinger.py:121-128 | the offline list gives 0 and wins over the starting list, which gives 2; anything else gives 1 |
| PingerCog.PollSpec | minecraftpinger.py:53-67 | the try/except part of `refresh` keeps the status within the status tables and keeps a recorded version whenever the status is 1 |
| PingerCog.SetStatusFlags | minecraftpinger.py:113-116 | `update_status(status=s)` assigns s and asks for a refresh only when s differs |
| PingerCog.ExceptionsGiveStatus | minecraftpinger.py:62-67 | Timeout and Refused give 0, AttributeError gives 2, the roster is untouched and nothing is sent; other exceptions escape |
| PingerCog.ServerPollRecords | minecraftpinger.py:75-128 | an answer's lines are packed and sent, the roster becomes the new list, and version and maximum are recorded; the refresh flag rises on a delta or a status change; without a log channel a delta ends as status 2 with the roster kept |
| PingerCog.RefreshClearsFlag | minecraftpinger.py:69-73 | after a round no refresh is pending; presence and embed were refreshed iff one was pending |
| PingerCog.FirstRefreshAnnounces | minecraftpinger.py:28-73 | the first round after construction always sets the presence |
| PingerCog.SettledCogIsQuiet | minecraftpinger.py:53-128 | once the roster, code, version and maximum match the answer and no refresh is pending, a round changes nothing and sends nothing |
| PingerCog.QuietSecondRefresh | minecraftpinger.py:53-106 | the same answer twice: the second round sends nothing and refreshes nothing |
| PingerCog.StatusEmbed | minecraftpinger.py:130-148 | the embed has the server title and colour 0xb99213; it has three fields when online and one otherwise; the first is "Status"; when online the third counts the players |
| PingerCog.EmbedShowsRoster | minecraftpinger.py:130-148 | the status field is the emoji and name of the status; when online, Version shows the version and "Joueurs n/max" holds the roster count, the maximum and the roster text |
| PingerCog.RosterTextLists | minecraftpinger.py:139-144 | the roster text is a "```fix\n" … "```" block; it reads "Aucun joueur" without players, and otherwise splitting its body at '\n' gives the players back |
| PingerCog.CogPresence | minecraftpinger.py:163-178 | the presence is online iff the code is 1, and only code 1 carries an activity |
| PingerCog.PresenceFollowsStatus | minecraftpinger.py:163-178 | distinct codes give distinct presence statuses; only code 1 has an activity, "1 player" or "N players" |
| PingerCog.Cog.constructor | minecraftpinger.py:28-36 | a new cog has status 0, a pending refresh and an empty roster |
| PingerCog.Cog.SetStatus | minecraftpinger.py:113-116 | gives `SetStatusSpec` of the old fields |
| PingerCog.Cog.RecordServer | minecraftpinger.py:117-128 | gives `RecordServerSpec` of the old fields |
| PingerCog.Cog.UpdatePlayers | minecraftpinger.py:75-106 | gives `UpdatePlayersSpec`: the diff, the flag, the chunks sent or the AttributeError |
| PingerCog.Cog.Catch | minecraftpinger.py:62-67 | the except clauses give `CatchSpec` |
| PingerCog.Cog.Poll | minecraftpinger.py:54-67 | the `try`/`except` part of a round gives `PollSpec` of the old fields: the chunks sent and the exception that escapes |
| PingerCog.Cog.Refresh | minecraftpinger.py:52-73 | a round gives `RefreshSpec` of the old fields and keeps the cog valid |
| MainBot.MainStatusCode | main.py:37-42 | "Old" gives 2, the offline version name (section sign, "4", a bullet, " Offline") gives 0, anything else 1 |
| MainBot.Activity | main.py:120-127 | an activity is given iff there is a count, and it reads "Minecraft avec …" |
| MainBot.ChangeStatusOnlyDifferences | main.py:112-130 | `status` and `players` change only when they differ; only differing keywords are passed; a presence call is made, and `refresh_embed` set, iff something differs |
| MainBot.ActivityText | main.py:122-127 | the activity is None for no count, "1 joueur" for one player and "N joueurs" otherwise |
| MainBot.RefreshClassifies | main.py:31-56 | Timeout and Refused give 0 and AttributeError gives 2, with no count, the name list kept and no embed; an answer that is not online gets its code, except that an offline answer that changed the presence ends as 2 without a server channel; the embed is resent iff the presence changed and the server channel exists; other exceptions escape |
| MainBot.RefreshSeedsNames | main.py:41-79 | the first online round only seeds `player_names` and sends nothing; it raises TypeError iff it changed the presence |
| MainBot.RefreshOnline | main.py:41-110 | later online rounds send the packed diff and replace the list, and raise TypeError iff they changed the presence; without a log channel a delta ends as status 2, with the list kept |
| MainBot.FirstOnlineRoundRaises | main.py:15-79 | the first online round after start-up makes a presence call and raises TypeError |
| MainBot.OfflineFlapsWithoutServerChannel | main.py:39-63 | without a server channel an offline answer after status 2 makes two presence calls and leaves status 2 with `refresh_embed` set |
| MainBot.EmbedOnlyAfterPresenceChange | main.py:33-79 | `refresh_embed` is reset each round; the embed is resent only after a presence call, with a server channel, never at status 1 and never in a round that raises |
| MainBot.QuietSecondRefresh | main.py:31-56 | the same answer twice after a round that did not raise: the second round makes no presence call, sends nothing and resends no embed (an offline answer needs a server channel) |
| MainBot.SettledIsQuiet | main.py:31-56 | once the globals match the answer, a round changes nothing but `refresh_embed` |
| MainBot.SameCodesAsCog | main.py:37-42 | the script and the cog give the same code when the cog lists the offline name and "Old", although they test the two names in opposite order |
| MainBot.Bot.constructor | main.py:12-26 | all globals start unset and `refresh_embed` false; the channels found by `on_ready` are kept |
| MainBot.Bot.ChangeStatus | main.py:112-130 | gives `ChangeStatusSpec` of the old globals |
| MainBot.Bot.UpdatePlayers | main.py:87-110 | gives `UpdatePlayersSpec`: the diff sent in chunks and the new list, or the AttributeError |
| MainBot.Bot.Catch | main.py:51-56 | the except clauses give `CatchSpec` |
| MainBot.Bot.Resend | main.py:48-79 | `resend_embed` gives `ResendSpec`: TypeError at status 1, a caught AttributeError without a server channel, else the embed is resent |
| MainBot.Bot.Refresh | main.py:31-56 | a round gives `RefreshSpec` of the old globals |

## Left out

- Socket connection, timeouts and `close` in `finally` are not modelled. The socket is the sequence of chunks still to arrive, plus the bytes sent.
- `json.loads` is a parameter of `Minecraft.Ping`, which returns `None` where it would raise. That failure becomes ValueError("invalid JSON"), a stand-in for JSONDecodeError, which is a ValueError. Non-integral JSON numbers are not modelled.
- `base64.b64decode` is not modelled. The icon is kept as the base64 text after the 22-character prefix. A malformed favicon makes `b64decode` raise binascii.Error (minecraft.py:16), a ValueError that no bot catches; the model never raises it.
- `ip.encode('utf-8')` is not modelled. The host is given as bytes.
- Minecraft.HandshakeFrame: requires a port below 65536, because `connect` rejects larger ports before the frame is built.
- Minecraft.PlayerFromJson: a `name` that is not a JSON string raises TypeError, while the source keeps any value. Minecraft.ServerFromJson does the same for `version.name`.
- Tracking.StateFromData: the version lists must be JSON arrays of strings (TypeError otherwise). The source accepts any value and would only fail, or test differently, at the first `in`.
- Tracking.ListOf: Python's set iteration order is left unspecified, so the order of the login and logout lines inside a message is unspecified too.
- Discord, nextcord and aiohttp calls are not modelled: `Sender.send`, webhooks, `change_presence`, `fetch_message`, `edit`, `send`. The model returns the values handed to them: chunks, messages, presences and embeds. A failing send is modelled only for a missing log channel (AttributeError on the first send).
- The edit-or-send logic of `refresh_server` (minecraftpinger.py:150-161) and of `resend_embed` (main.py:62-70) is not modelled, nor are their NotFound and ValueError clauses. `MainBot.Round.embedResent` records only whether `resend_embed` got past `get_embed` with a server channel.
- The content of `main.get_embed` (main.py:72-85) is not modelled. Only its TypeError at status 1 (main.py:79) is, in `MainBot.ResendSpec`.
- PingerCog.StatusEmbed: the field title "Joueurs n/max" is kept as the count and the JSON maximum. The text `str(max)` is not rendered.
- Async scheduling (`tasks.loop`, intervals, `on_ready`, `client.run`) is not modelled. Channel lookups are reduced to flags: `hasLogChannel` and `hasServerChannel` in the cog's configuration, and `MainBot.Channels` for the channels `on_ready` finds.
- The cog's `hasServerChannel` says only that a server channel id is configured; the model assumes `get_channel` finds it. A configured id that is not found leaves `server_channel` None, so `refresh_server` raises AttributeError at minecraftpinger.py:154, outside the `try` of `refresh` (minecraftpinger.py:71-72), and the refresh loop ends. The model does not capture that case. A missing log channel, unconfigured or not found, is modelled by `hasLogChannel`: both give AttributeError on the first send. configuration.py is not part of this model.
- `Tracker.from_data` is not modelled. It looks for the `server_state` key but reads `server_notifs` (server.py:231-232). The `server_state` sender is stored and never used.
- `print` calls are not modelled.
