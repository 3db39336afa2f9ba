# Discord-to-Telegram relay bot, modelled in Dafny

The system is a small web control panel (`app.py`) that runs a Discord bot
and relays messages from one Discord channel to a Telegram chat. This
project models its two pieces of logic:

- **The relay** (`relay.dfy`, `channel_links.dfy`, `strings.dfy`). When its
  Discord connection is ready, the bot reads its configured channel link
  (`https://discord.com/channels/<guild>/<channel>`). It splits the link on
  `/channels/`, takes the last piece and reads the first two `/`-pieces of
  that as integers: the guild id, then the channel id. It then looks the
  pair up among the guilds and channels the connection sees. Each failure
  (no marker, a missing piece, a piece that is not an integer, an unknown
  guild) leaves the target channel as it was. When a known
  guild lacks the channel, the target is set to nothing. After that, every
  message that someone other than the bot posts in the target channel goes
  to the Telegram chat as `**<display name>**: <content>`. A send error is
  caught and logged.
- **The control panel** (`control_panel.dfy`). This is the process-wide
  `bot_settings` record (Discord token, channel link, Telegram token and chat
  id, running flag, Discord user). The start, stop, status and logout
  requests, the OAuth callback and a failing bot thread read and update it.
  A start request goes through these steps in order:
  1. Without a Discord login in the session it is refused, and nothing
     changes.
  2. The three fields are stored, then checked: if one is missing or empty
     it is refused, and the stored fields stay overwritten.
  3. An open Discord client is closed. Scheduling the close fails when the
     request thread runs no event loop, and the reply is then
     `Error starting bot: no running event loop`.
  4. The running flag is set, and the reply is success.

  Stopping, and stopping on logout, need an open Discord client handle. No
  statement of `app.py` ever stores a client in that handle: the bot thread
  assigns its client to a variable local to its inner coroutine. So a stop
  request after a successful start reports `Bot is not running`, and the
  bot stays marked as running. `Panel.StopAfterStart` proves this from the
  process's initial state.

`strings.dfy` writes out the Python string built-ins the bot uses: `in`,
`str.split` and `int()`. `sep.join` and `str()` are not used by the bot.
They are defined there only as the inverses of `split` and `int()` in the
round-trip lemmas. `split` cuts at occurrences found left
to right, resuming after each cut. For the marker `/channels/`, which can
overlap itself, the last piece is therefore not always the text after the
last occurrence. `ChannelLinks.ParseChannelLinkOfIds` states links that the
parse reads as intended.

`app.py` has no delivery retry, no content rewriting, no multiple channel
links and no session mutex, so none of these is modelled.

## Model

| member | source | states |
|---|---|---|
| `Strings.Contains` | app.py:63 | Python's `p in s`: the empty string is in every string, and a string longer than `s` is not in it |
| `Strings.Split` | app.py:64 | Python's `s.split(sep)`, cutting left to right without overlap; it always gives at least one piece, so taking the last piece never fails |
| `Strings.ParseInt` | app.py:65-66 | Python's `int(s)` as modelled succeeds exactly on a non-empty string of decimal digits with at most one leading sign (for how this differs from Python, see Left out) |
| `Strings.FindFrom` | app.py:63-64 | The index found is an occurrence of the pattern at or after the start, with no occurrence between the start and it; no result means the pattern does not occur from the start on |
| `Strings.SplitJoin` | app.py:64 | Joining the pieces of `s.split(sep)` with `sep` gives back `s` |
| `Strings.SplitSingle` | app.py:63-64 | A string splits into one piece, itself, exactly when it does not contain the separator |
| `Strings.SplitAppend` | app.py:64 | Appending `sep + b` appends the pieces of `b`, unless the last piece and the separator overlap into an earlier occurrence |
| `Strings.NatToString` | app.py:65-66 | The printed form of a natural number is a non-empty run of decimal digits |
| `Strings.IntToString` | app.py:65-66 | The printed form of an integer is non-empty, digits with at most a leading minus sign |
| `Strings.DigitsValueOfNatToString` | app.py:65-66 | Reading the digits of a printed natural number gives the number back |
| `Strings.ParseIntRoundTrip` | app.py:65-66 | `int(str(n)) == n` for every integer (Python's 4300-digit conversion limit is not modelled, see Left out) |
| `Strings.NoSlashInInt` | app.py:64-66 | A printed integer holds no `/`, so it is a whole `/`-piece of a link |
| `ChannelLinks.ParseIdPath` | app.py:64-66 | Reads guild and channel ids from the first two `/`-pieces; a path without `/` has no second piece and names nothing |
| `ChannelLinks.ResolveTarget` | app.py:68-76 | The target after the lookup is the previous one, nothing, or the channel the link names, under its id and name in a guild the connection sees |
| `ChannelLinks.ParseChannelLink` | app.py:63 | A link that does not contain `/channels/` names no guild and channel |
| `ChannelLinks.IdPathOfIds` | app.py:64-66 | After the marker, the text `<guild>/<channel>` followed by nothing or by `/...` gives exactly that guild id and channel id; further pieces are ignored |
| `ChannelLinks.NoMarkerInIds` | app.py:64 | Text made of two ids and a rest holds `/channels/` only if the rest does |
| `ChannelLinks.ParseChannelLinkOfIds` | app.py:62-66 | A link `<prefix>/channels/<guild>/<channel><rest>`, where `<rest>` is empty or starts with `/` and holds no `/channels/`, names exactly that guild and channel. The prefix may hold earlier markers; excluded is a prefix whose last piece ends in `/channels` |
| `ChannelLinks.LastPieceAfterMarker` | app.py:63-64 | A link holds the marker, and its last piece is all the text after its last marker, when that text holds no marker and the marker does not overlap the prefix |
| `ChannelLinks.ParseChannelLinkFails` | app.py:64-78 | A link with fewer than two pieces after the marker, or a non-integer guild or channel piece, names nothing |
| `ChannelLinks.ResolveFromNone` | app.py:57-76 | From no target, the bot ends with target `ch` if and only if the link parses, names a guild the connection sees, and `ch` is that guild's channel with the link's channel id and its name |
| `ChannelLinks.ResolveKeepsTarget` | app.py:63-78 | A link that does not parse, or names an unseen guild, leaves the target unchanged |
| `Relay.ShouldForward` | app.py:82-86 | A message is forwarded when its author is not the bot and a target exists whose id is the message's channel id |
| `Relay.FormatForward` | app.py:89 | The forwarded text `**<display name>**: <content>` |
| `Relay.FormatForwardRoundTrip` | app.py:89 | The forwarded text `**name**: content` gives back name and content if and only if the name does not contain `**: ` |
| `Relay.FormatForwardAmbiguous` | app.py:89 | For all `x`, `y`, `c`: the name `x**: y` with content `c` and the name `x` with content `y**: c` are different pairs that give the same text |
| `Relay.ForwardedOnlyFromLinkedChannel` | app.py:80-86 | A message is forwarded from a freshly resolved bot only if the bot did not write it, and it was posted in the channel the link names, inside a guild the connection sees |
| `Relay.DiscordBot.constructor` | app.py:49-57 | A new bot keeps its link, chat id and user id, has no target and has sent nothing |
| `Relay.DiscordBot.OnReady` | app.py:59-78 | The new target is the link resolved against the visible guilds, starting from the old target |
| `Relay.DiscordBot.OnMessage` | app.py:80-99 | A message from someone else in the target channel adds exactly one send of `**name**: content` to the chat; any other message, including the bot's own, sends nothing |
| `Relay.RelayOneMessage` | app.py:59-99 | A bot built for `<prefix>/channels/<g>/<c>`, whose prefix's last piece does not end in `/channels`, on any connection that lists channel `c` in guild `g`, sends exactly one formatted message for a message someone else posts in `c`, and nothing for its own messages or other channels |
| `Panel.ControlPanel.constructor` | app.py:36-46 | The initial record: empty token and fields, not running, no user |
| `Panel.ControlPanel.OAuthCallback` | app.py:159-184 | A successful token exchange stores the token; the user is stored only when the user lookup succeeds too; a failed exchange changes nothing |
| `Panel.ControlPanel.StartBot` | app.py:217-253 | Without a session login: `Please login to Discord first`, and nothing changes. With a login, the three fields are stored first. Success if and only if all three are non-empty and any open client's close could be scheduled. The running flag is set only on success and never cleared |
| `Panel.ControlPanel.StopBot` | app.py:255-269 | With no open client: `Bot is not running`, and nothing changes. Success if and only if a client is open and its close is scheduled; only then is the running flag cleared |
| `Panel.ControlPanel.Logout` | app.py:198-215 | Token and user are cleared. The running flag is cleared only when an open client's close is scheduled; a scheduling failure is swallowed |
| `Panel.ControlPanel.BotThreadFailed` | app.py:120-122 | An error in the bot thread clears the running flag |
| `Panel.StopAfterStart` | app.py:103-118 | From the initial state, a successful start is followed by a stop that reports `Bot is not running`. The status request after it (`Panel.ControlPanel.Status`, app.py:271-278) still reports the bot as running, logged in and with a Telegram token |
| `Panel.Truthy` | app.py:225 | Python truthiness of an optional string: present and not empty |
| `Panel.FormComplete` | app.py:234-238 | All three start fields are truthy |
| `Panel.RefusedRestartKeepsRunning` | app.py:228-239 | A start refused for a missing field leaves the bot marked as running, while the record holds the refused fields |

## Left out

- Flask routing, templates, JSON request and response plumbing, and the
  session store. The session's Discord token and user are parameters of the
  requests that read them. Logout's removal of the session keys is not
  modelled.
- The OAuth2 authorization redirect and token exchange with Discord. Only
  the writes of the callback to the record are modelled, with the exchange
  and the user lookup as inputs.
- Threads and asyncio. `asyncio.create_task(client.close())` is the
  `closeScheduled` input: it fails with `RuntimeError: no running event
  loop` when the request thread runs no event loop. A scheduled close is
  assumed to have closed the client before the next request. Starting the
  bot thread is modelled only as setting the running flag.
- The Discord gateway connection, the Telegram `Bot` construction and its
  `send_message` network call. Sends are a trace of attempts. The guild and
  channel lookups are a map from guild id to channel id to name. How
  `run_discord_bot` builds the bot from the record (app.py:108-118) is not
  modelled; only its error path is (`BotThreadFailed`).
- Log output (`print`) and the Discord client's intents setup.
- A start request whose body is not a JSON object (app.py:222, 252-253). Its
  reply text comes from the framework's exception.
- `ParseInt`: accepts only an optional `+` or `-` followed by ASCII decimal
  digits. Python's `int()` also accepts surrounding whitespace, `_` digit
  separators and non-ASCII decimal digits. Links that rely on those parse in
  Python but not in the model. In the other direction, the model has no
  digit limit. Python 3.11 and later (and the 3.7.14, 3.8.14, 3.9.14 and
  3.10.7 security releases) raise `ValueError` when they convert a decimal
  string of more than 4300 digits to `int`. So an id piece that long parses
  in the model but not in Python. `Strings.ParseIntRoundTrip` holds in
  Python only for integers of at most 4300 digits.
- Message authors are compared by user id, which is how the Discord library
  compares users and members.
- config.py, debug_env.py, run_debug.py and the OAuth test scripts are not
  part of this model: they load settings, print them and smoke-test the
  login.
