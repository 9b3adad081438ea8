/**
 * The bot's process-wide state: the `queues` record (src/index.ts:15) keyed
 * by guild id, and the players that obby.js keeps in `obsidian.players`. A
 * queue refers to its player through the guild id both are registered under.
 */
module Registry {
  import opened Wrappers

  type GuildId = string
  type ChannelId = string

  /** Display metadata of a track; the model never looks inside it. */
  datatype TrackInfo = TrackInfo(title: string, uri: string)

  /** A resolved track: the encoded reference handed to the engine plus its metadata. */
  datatype Track = Track(track: string, info: TrackInfo)

  /** What the `start` handler records: the started track and its decoded metadata. */
  datatype Playing = Playing(track: string, info: TrackInfo)

  /**
   * The playback engine's view of one guild: the voice channel it is
   * connected to and the encoded track it was last told to play.
   */
  datatype Player = Player(guild: GuildId, channel: Option<ChannelId>, track: Option<string>)

  /** The `queue` interface (src/index.ts:225-230) minus the player reference. */
  datatype Queue = Queue(channel: ChannelId, tracks: seq<Track>, playing: Option<Playing>)

  datatype State = State(queues: map<GuildId, Queue>, players: map<GuildId, Player>)

  const Empty := State(map[], map[])

  /**
   * Every queue has its player and every player its queue, and each player
   * is registered under its own guild.
   */
  predicate Consistent(s: State) {
    && s.queues.Keys == s.players.Keys
    && forall g :: g in s.players ==> s.players[g].guild == g
  }

  /** Every registered player has been told which voice channel to join. */
  predicate Connected(s: State) {
    forall g :: g in s.players ==> s.players[g].channel.Some?
  }

  /** No track waits in a queue while the engine of that guild is idle. */
  predicate NoStall(s: State)
    requires Consistent(s)
  {
    forall g :: g in s.queues && s.players[g].track.None? ==> s.queues[g].tracks == []
  }

  /**
   * The bookkeeping the code as written keeps, provided every awaited reply
   * and search inside a handler succeeds: shared keys and no stalled queue.
   */
  predicate Coherent(s: State) {
    Consistent(s) && NoStall(s)
  }

  /** The full registry invariant, which needs the corrected `play`. */
  predicate Invariant(s: State) {
    Coherent(s) && Connected(s)
  }

  /**
   * A change confined to guild `g` keeps the bookkeeping when it leaves
   * that guild's player not idle in front of a waiting track, and keeps the
   * full invariant when, in addition, that player is connected.
   */
  lemma InvariantAfterLocalChange(s: State, t: State, g: GuildId)
    requires Coherent(s) && Consistent(t) && Untouched(s, t, g)
    requires g in t.queues && g in t.players && t.players[g].track.None? ==> t.queues[g].tracks == []
    ensures Coherent(t)
    ensures Connected(s) && (g in t.players ==> t.players[g].channel.Some?) ==> Connected(t)
  {
    if Connected(s) && (g in t.players ==> t.players[g].channel.Some?) {
      forall h | h in t.players
        ensures t.players[h].channel.Some?
      {
        if h != g {
          assert h in t.players.Keys - {g};
        }
      }
    }
    forall h | h in t.queues && t.players[h].track.None?
      ensures t.queues[h].tracks == []
    {
      if h != g {
        assert h in t.queues.Keys - {g};
      }
    }
  }

  /** Nothing registered under a guild other than `g` changed between `s` and `t`. */
  predicate Untouched(s: State, t: State, g: GuildId) {
    && s.queues.Keys - {g} == t.queues.Keys - {g}
    && (forall h :: h != g && h in s.queues ==> h in t.queues && t.queues[h] == s.queues[h])
    && s.players.Keys - {g} == t.players.Keys - {g}
    && (forall h :: h != g && h in s.players ==> h in t.players && t.players[h] == s.players[h])
  }

  lemma UntouchedReflexive(s: State, g: GuildId)
    ensures Untouched(s, s, g)
  {
  }

  lemma UntouchedTransitive(s: State, t: State, u: State, g: GuildId)
    requires Untouched(s, t, g) && Untouched(t, u, g)
    ensures Untouched(s, u, g)
  {
  }

  /** The encoded references of `ts`, in order. */
  function Encoded(ts: seq<Track>): (r: seq<string>)
    ensures |r| == |ts|
    ensures forall i :: 0 <= i < |ts| ==> r[i] == ts[i].track
  {
    if |ts| == 0 then [] else [ts[0].track] + Encoded(ts[1..])
  }

  lemma EncodedAppend(a: seq<Track>, b: seq<Track>)
    ensures Encoded(a + b) == Encoded(a) + Encoded(b)
  {
  }

  /**
   * `obsidian.create` followed by storing a fresh queue: a player that is
   * neither connected nor playing, and a queue with no tracks.
   */
  function Register(s: State, g: GuildId, channel: ChannelId): (r: State)
    ensures r.queues.Keys == s.queues.Keys + {g}
    ensures r.players.Keys == s.players.Keys + {g}
    ensures r.queues[g].tracks == [] && r.players[g].track.None? && r.players[g].channel.None?
    ensures Untouched(s, r, g)
    ensures Consistent(s) ==> Consistent(r)
  {
    State(s.queues[g := Queue(channel, [], None)], s.players[g := Player(g, None, None)])
  }

}
