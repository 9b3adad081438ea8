# Per-guild playback queues of the detritus music bot, in Dafny

This project models the music core of `src/index.ts`: the registry `queues`
that maps a guild id to its playback queue, the players obby.js keeps in
`obsidian.players`, the `join` and `play` commands, the `start` and `end`
handlers that `subscribe` attaches to each player, the filter that routes raw
voice events to players, and the text handling in front of the commands
(prefix check, command splitting, query normalisation).

Every handler is one atomic, pure transition over
`State(queues: map<GuildId, Queue>, players: map<GuildId, Player>)`:

- `Queue` holds the reply channel, the FIFO `tracks` and the optional
  `playing` entry of the source's `queue` interface.
- `Player` is the engine seen from the bot: its guild, the voice channel it
  was told to connect to, and the encoded track it was last told to play.
  `connect` and `play` are modelled as setting those two fields.
- `obsidian.create` is assumed to succeed and to register the new player
  under its guild, which the source relies on when it looks players up by
  guild.

Modules, one per part of the program:

- `Text`: the string helpers.
- `Commands`: the prefix parser and the query rewrite.
- `Registry`: the state and its invariants.
- `Handlers`: `join` and `play`.
- `Lifecycle`: `start`, `end` and the raw router.
- `Drain`: repeated `end` events.
- `Bot`: one event at a time, running either `play` as written or the
  corrected `play`, with the registry invariants over every reachable state.

The parser follows the code, not the usual intent of a prefix. It checks
`startsWith(prefix)` and then drops exactly one character, whatever the
prefix's length. With a multi-character prefix, the rest of the prefix
becomes part of the command word.

The model follows the code in two places where one might expect otherwise:

- The `end` handler never clears `playing`; the field is only overwritten by
  the next `start`.
- A `play` that creates a session and then finds nothing does mutate the
  registry (see Findings).

## Model

| member | source | states |
|---|---|---|
| Text.Split | src/index.ts:53 | `split(/ /g)` always yields at least one piece and no piece holds a space. The first piece is the text up to the first space, and there is a single piece exactly when the text has no space. |
| Text.SplitTail | src/index.ts:53 | The pieces after the first are exactly the pieces of the text after the first space. |
| Text.JoinSplit | src/index.ts:53 | Joining the pieces of a split with single spaces gives back the original text. |
| Text.SplitJoin | src/index.ts:53 | Converse round trip: joining a non-empty list of space-free words and splitting it again gives back those words. |
| Text.JoinWords | src/index.ts:133 | `join(" ")` of no words is the empty text. Otherwise the result starts with the first word, followed by a space when more words follow. |
| Text.Lower | src/index.ts:54 | `toLowerCase` keeps the length, maps every character to its lower-case form, and leaves no upper-case letter. |
| Commands.ParseCommand | src/index.ts:49-54 | A message is ignored exactly when it does not start with the prefix. Otherwise the command is the lower-cased text, after the first character, up to the first space. The arguments are space-free words that join back to exactly the text after that space, or are empty when there is no space. |
| Commands.Classify | src/index.ts:54-103 | The `switch` selects `ping`, `join` and `play` exactly for those command words, and in each case only for that word. `play` carries the parsed arguments, and every other word is ignored. |
| Commands.ParsePlayQuery | src/index.ts:49-54 | With a one-character prefix, `<prefix><word> <query>` is parsed as command `Lower(word)`, its arguments join back to `query`, and any capitalisation of `play` selects the play command. |
| Commands.NormalisedQueryIsUrlOrSearch | src/index.ts:133-136 | The resolver always receives either a URL or a `ytsearch:` query. It receives a URL exactly when the user typed one, and the query always ends with the user's text. |
| Registry.Register | src/index.ts:120-125 | Creating a session adds exactly the guild to both registries, with an empty track list and a player that is neither connected nor playing. Other guilds are untouched and key consistency is kept. |
| Registry.InvariantAfterLocalChange | src/index.ts:15 | A change confined to one guild keeps the bookkeeping (shared keys, no track waiting behind an idle engine) when that guild's player is not idle in front of a waiting track. It also keeps every player connected when that guild's player is connected. |
| Handlers.Added | src/index.ts:140-157 | A search contributes a prefix of the tracks the resolver returned, in their order. It contributes more than one track only for a playlist. It contributes nothing exactly when the search failed or the playlist is empty. |
| Handlers.Join | src/index.ts:64-100 | `join` changes nothing and gives the matching refusal, in both directions of each iff, in three cases: no guild, no voice channel, or an existing player. Otherwise it adds exactly one queue with empty `tracks`, and a player connected to the invoker's channel. Other guilds are untouched. |
| Handlers.JoinKeepsInvariant | src/index.ts:64-100 | `join` keeps the bookkeeping, and it keeps the full registry invariant, including that every player is connected. |
| Handlers.Settle | src/index.ts:160-171 | After the append, an idle engine is handed the head of the queue and the rest keep their order. An idle engine with nothing queued returns before the connect step and changes nothing. A busy engine keeps its track and the queue keeps everything. An unconnected player connects to the invoker's channel. |
| Handlers.Enqueue | src/index.ts:132-174 | A failed search changes nothing and replies "nothing found" with the joined arguments. A single-track outcome replies with `tracks[0]`, and a playlist outcome with its size and name. Only the guild's own queue and player change, as `Settle` describes. |
| Handlers.EnqueueConservesTracks | src/index.ts:145-167 | No track is lost or duplicated by one `play`: the previous queue plus the search's tracks equals the track just started (if any) followed by the new queue. |
| Handlers.PlayAsWritten | src/index.ts:103-175 | In each of these cases `play` refuses and changes nothing, and the refusal occurs exactly in that case: outside a guild, with no voice channel for a new session, or from a channel other than the player's. A new session is registered before the search. A failed search leaves the registry as it was, except for the session this call created. Key consistency is kept. |
| Handlers.PlayAsWrittenWedgesNewGuild | src/index.ts:114-171 | The session left behind by a failed first search has a player without a channel. Every later `play` in that guild is then refused as coming from the wrong channel, and `join` changes nothing. |
| Handlers.PlayAsWrittenKeepsCoherent | src/index.ts:103-175 | `play` as written keeps the bookkeeping: `queues` and `obsidian.players` share their keys and no track waits behind an idle engine, given that its awaited search and reply succeed. |
| Handlers.Play | src/index.ts:103-175 | Corrected `play`. It gives the same replies as the code and behaves identically on a guild that already has a queue. It departs from the code only where the code would leave a new guild with an unconnected player, and then discards that session, so every refusal leaves the registry unchanged. |
| Handlers.PlayKeepsInvariant | src/index.ts:103-175 | The corrected `play` keeps the registry invariant. This includes that every player is connected, which the code as written breaks. |
| Lifecycle.OnStart | src/index.ts:198-204 | `start` sets the queue's `playing` entry to the started track and its metadata, and changes nothing else. For a guild without a queue it does nothing. |
| Lifecycle.OnStartKeepsInvariant | src/index.ts:198-204 | `start` keeps the bookkeeping and the full registry invariant. |
| Lifecycle.OnEnd | src/index.ts:213-222 | With an empty queue, `end` removes the guild from both `queues` and `obsidian.players`. Otherwise exactly the head is started, the tail stays in order, and the player's voice channel, the queue's reply channel and its `playing` entry are kept. Other guilds are untouched and key consistency is kept. |
| Lifecycle.OnEndKeepsInvariant | src/index.ts:213-222 | `end` keeps the bookkeeping and the full registry invariant. |
| Lifecycle.Route | src/index.ts:29-38 | A raw event reaches a player exactly when it is `VOICE_SERVER_UPDATE` or `VOICE_STATE_UPDATE` and a player exists for its `guild_id`. It then reaches that guild's player. The router has no state result. |
| Drain.Advance | src/index.ts:213-222 | Any number of `end` events keep key consistency. |
| Drain.AdvanceLeavesOtherGuilds | src/index.ts:213-222 | Any number of `end` events for one guild leave every other guild's queue and player untouched. |
| Drain.DrainIsFifo | src/index.ts:213-222 | For `n` up to the queue's length, `n` end events hand the first `n` queued tracks to the engine in queue order, and the remaining tracks stay queued. |
| Drain.DrainTearsDown | src/index.ts:213-222 | One more `end` than there are queued tracks plays them all in order and then removes the guild from both registries. |
| Bot.Step | src/index.ts:29-222 | With `play` as written, and its awaited search and reply succeeding, every event keeps the bookkeeping: `queues` and `obsidian.players` have the same keys and no track waits behind an idle engine. With the corrected `play`, every event also keeps every player connected. Raw events and messages without the prefix leave the state unchanged. |
| Bot.Run | src/index.ts:15 | With `play` as written, and its awaited search and reply succeeding, every state reached by any sequence of events keeps the bookkeeping. With the corrected `play`, every reachable state also keeps every player connected. |
| Bot.RouteFollowsSessions | src/index.ts:29-38 | Event types other than the two voice updates are never routed. Once `end` has torn a guild's session down, that guild's voice events are dropped. After a successful `join`, or a `play` that queued a track, that guild's `VOICE_STATE_UPDATE` reaches its player. |
| Bot.FirstPlayStartsAtOnce | src/index.ts:114-171 | The first `play` in a guild with a single search result leaves the queue empty. The engine plays that track and the player is connected to the invoker's channel. |
| Bot.PlaylistWaitsWhilePlaying | src/index.ts:152-167 | A playlist queued while a track plays is appended whole. The playing track is kept. |
| Bot.EndsDrainTheSession | src/index.ts:213-222 | An `end` with one track waiting starts it. An `end` with nothing waiting leaves both registries empty. |

## Findings

| source | as written | input that shows it | evidently intended | confidence | as-written member | corrected member |
|---|---|---|---|---|---|---|
| src/index.ts:114-171 | `play` on a guild without a queue registers the queue and player before searching. When the search finds nothing, or a playlist is empty, it returns before `connect`, so the player never gets a channel. | Empty registry; `play` in guild G from voice channel C, and the resolver answers `NO_MATCHES`. A second `play` from C is refused with "join my voice channel" (`vc.id !== undefined`). `join` is refused because a player exists. The engine emits `end` only for a track it was told to play, so no `end` comes to clear the session. | A command that ends without connecting leaves no session behind, so every registered player is connected. | medium, not executed (assumes the player's `channel` stays unset until `connect`) | Handlers.PlayAsWritten, Handlers.PlayAsWrittenWedgesNewGuild | Handlers.Play |

## Left out

- Discord I/O: gateway and REST calls, `message.reply`, the `embed` helper (src/index.ts:181-195) and the `ping` command. Replies are returned as `Reply` values, and `ping` is a no-op step.
- Network services: `obsidian.search`, `obsidian.decode`, the node socket and the `send` hook are foreign calls. The search is the parameter `resolve`, and decoded metadata is an opaque `TrackInfo` argument of `start`.
- `handleVoice`: the engine's voice-protocol processing is not modelled. `Route` returns only the player an event is forwarded to.
- The `start` handler's status message: it is presentation; only the `playing` assignment is modelled.
- `obsidian.create` returning `undefined` (src/index.ts:83-86): creation is assumed to succeed. The "something weird happened" reply is therefore not modelled.
- A `SEARCH_RESULT` or `TRACK_LOADED` outcome with no tracks: the source would push `undefined` and then crash on `toAdd.info`. The handlers require the resolver not to answer that way (`Resolvable`).
- Handlers.PlayAsWrittenKeepsCoherent: the awaited `obsidian.search` (src/index.ts:139) and the awaited `message.reply` after the append (src/index.ts:149, src/index.ts:154) are assumed to succeed. In the source a rejected reply ends the handler with the tracks queued and nothing played, and a rejected search after registering a new guild leaves an unconnected session; the queue then waits behind an idle engine, which the model does not represent.
- Bot.Step: with `play` as written, the no-stalled-queue part of the bookkeeping rests on the same assumption that the awaited search and reply inside `play` succeed.
- Bot.Run: the same assumption about the awaited search and reply covers every reachable state.
- Engine failures: a `play` or `connect` that the engine rejects is not modelled; both always take effect.
- Async interleaving: each handler is one atomic step, so the double-play race between a `play` and an `end` on the same guild is outside the model.
- Events from a torn-down player: after a guild's session is removed, its old player's events do nothing, because the model does not tell them apart from those of a later player in the same guild.
- Commands.ParseCommand: text is modelled as a sequence of Unicode code points, not UTF-16 code units, so `slice(1)` drops one code point. For a prefix whose first character lies outside the Basic Multilingual Plane, JavaScript drops only half of it, and the model does not reproduce that.
- Commands.ParsePlayQuery: stated only for a one-character prefix inside the Basic Multilingual Plane, where one code point is one UTF-16 unit and the model agrees with `slice(1)`.
- Text.Lower: only ASCII letters are case-mapped; the other Unicode mappings of JavaScript's `toLowerCase` are not modelled.
- Bootstrap: `dotenv`, the logger, `client.run`, `obsidian.init` and the `gatewayReady` handler.
