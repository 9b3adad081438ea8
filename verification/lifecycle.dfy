/**
 * The engine-driven half of the bot: the `start` and `end` handlers that
 * `subscribe` attaches to each player (src/index.ts:197-223), and the filter
 * that routes raw gateway events to players (src/index.ts:29-38).
 */
module Lifecycle {
  import opened Wrappers
  import opened Registry

  /**
   * `start`: records the started track and its decoded metadata as the
   * queue's `playing` entry; the queue's tracks and the players are left as
   * they are. A guild without a queue has no handler, so nothing changes.
   */
  function OnStart(s: State, g: GuildId, track: string, info: TrackInfo): (r: State)
    ensures g !in s.queues ==> r == s
    ensures g in s.queues ==>
      && r.queues.Keys == s.queues.Keys
      && r.queues[g] == s.queues[g].(playing := Some(Playing(track, info)))
      && r.players == s.players
    ensures Untouched(s, r, g)
  {
    if g !in s.queues then s
    else s.(queues := s.queues[g := s.queues[g].(playing := Some(Playing(track, info)))])
  }

  /**
   * `end`: with no track waiting, the player is disconnected and the guild
   * disappears from both registries; otherwise exactly the head is handed to
   * the engine and the rest stay queued in order. Other guilds are untouched.
   */
  function OnEnd(s: State, g: GuildId): (r: State)
    requires Consistent(s)
    ensures g !in s.queues ==> r == s
    ensures g in s.queues && s.queues[g].tracks == [] ==>
      && r.queues.Keys == s.queues.Keys - {g}
      && r.players.Keys == s.players.Keys - {g}
    ensures g in s.queues && s.queues[g].tracks != [] ==>
      var q := s.queues[g];
      && g in r.queues && g in r.players
      && r.players[g].track == Some(q.tracks[0].track)
      && r.queues[g].tracks == q.tracks[1..]
      && r.players[g].channel == s.players[g].channel
      && r.queues[g].playing == q.playing
      && r.queues[g].channel == q.channel
    ensures Untouched(s, r, g)
    ensures Consistent(r)
  {
    if g !in s.queues then s
    else
      var q := s.queues[g];
      if |q.tracks| == 0 then State(s.queues - {g}, s.players - {g})
      else
        State(s.queues[g := q.(tracks := q.tracks[1..])],
              s.players[g := s.players[g].(track := Some(q.tracks[0].track))])
  }

  /** `start` and `end` keep the bookkeeping, and the full registry invariant. */
  lemma OnStartKeepsInvariant(s: State, g: GuildId, track: string, info: TrackInfo)
    requires Coherent(s)
    ensures Coherent(OnStart(s, g, track, info))
    ensures Invariant(s) ==> Invariant(OnStart(s, g, track, info))
  {
    InvariantAfterLocalChange(s, OnStart(s, g, track, info), g);
  }

  lemma OnEndKeepsInvariant(s: State, g: GuildId)
    requires Coherent(s)
    ensures Coherent(OnEnd(s, g))
    ensures Invariant(s) ==> Invariant(OnEnd(s, g))
  {
    InvariantAfterLocalChange(s, OnEnd(s, g), g);
  }

  /** A raw gateway dispatch: its type `t` and the `guild_id` of its payload, if any. */
  datatype RawEvent = RawEvent(t: string, guild: Option<GuildId>)

  const VoiceEvents: seq<string> := ["VOICE_SERVER_UPDATE", "VOICE_STATE_UPDATE"]

  /**
   * The raw router: the guild whose player receives the event, if any. Only
   * the two voice event types are considered, and only when a player exists
   * for the event's guild. The router has no state result: it never changes
   * the registries.
   */
  function Route(s: State, ev: RawEvent): (r: Option<GuildId>)
    ensures r.Some? <==>
      && (ev.t == "VOICE_SERVER_UPDATE" || ev.t == "VOICE_STATE_UPDATE")
      && ev.guild.Some? && ev.guild.value in s.players
    ensures r.Some? ==> r == ev.guild
  {
    if ev.t !in VoiceEvents then None
    else
      match ev.guild
      case Some(g) => if g in s.players then Some(g) else None
      case None => None
  }

}
