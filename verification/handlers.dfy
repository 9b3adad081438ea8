/**
 * The `join` and `play` commands of the message handler (src/index.ts:64-175),
 * each one atomic transition of the registry. Replies are returned as values;
 * sending them, and the embeds they are wrapped in, are not modelled.
 */
module Handlers {
  import opened Wrappers
  import opened Text
  import opened Commands
  import opened Registry

  /** Who invoked a command: the guild (absent in DMs), their voice channel, the text channel. */
  datatype Invocation = Invocation(guild: Option<GuildId>, voice: Option<ChannelId>, channel: ChannelId)

  datatype Reply =
    | NotInGuild                                  // refused: sent outside a guild
    | NoVoiceChannel                              // refused: the invoker is in no voice channel
    | PlayerExists                                // refused: the guild already has a player
    | WrongChannel                                // refused: the invoker is elsewhere
    | NothingFound(query: string)                 // refused: the search came back empty
    | ConnectedTo(voice: ChannelId)               // joined the given voice channel
    | Queued(track: Track)                        // one track added
    | QueuedPlaylist(count: nat, name: string)    // a playlist's tracks added
  {
    /** The replies that refuse the command. */
    predicate IsRefusal() {
      NotInGuild? || NoVoiceChannel? || PlayerExists? || WrongChannel? || NothingFound?
    }
  }

  datatype Outcome = Outcome(state: State, reply: Reply)

  /** The `load_type` values of an Obsidian search response. */
  datatype LoadType = LoadFailed | NoMatches | SearchResult | TrackLoaded | PlaylistLoaded

  datatype LoadResult = LoadResult(loadType: LoadType, tracks: seq<Track>, playlistName: string)

  /**
   * What the handler relies on from the resolver: a single-track outcome
   * carries at least one track (the handler reads `tracks[0].info`).
   */
  predicate Resolvable(r: LoadResult) {
    (r.loadType.SearchResult? || r.loadType.TrackLoaded?) ==> |r.tracks| > 0
  }

  /**
   * The tracks a search outcome contributes to the queue: some of the tracks
   * the resolver returned, in their order, and more than one only for a
   * playlist; nothing exactly when the search failed or the playlist is empty.
   */
  function Added(r: LoadResult): (a: seq<Track>)
    requires Resolvable(r)
    ensures a <= r.tracks
    ensures |a| <= 1 || r.loadType.PlaylistLoaded?
    ensures a == [] <==> r.loadType.LoadFailed? || r.loadType.NoMatches? || (r.loadType.PlaylistLoaded? && r.tracks == [])
    ensures (r.loadType.LoadFailed? || r.loadType.NoMatches?) ==> a == []
    ensures (r.loadType.SearchResult? || r.loadType.TrackLoaded?) ==> a == [r.tracks[0]]
    ensures r.loadType.PlaylistLoaded? ==> a == r.tracks
  {
    match r.loadType
    case LoadFailed => []
    case NoMatches => []
    case SearchResult => [r.tracks[0]]
    case TrackLoaded => [r.tracks[0]]
    case PlaylistLoaded => r.tracks
  }

  /** The query `play` sends to the resolver for the given arguments. */
  function Query(args: seq<string>): string {
    NormaliseQuery(JoinWords(args))
  }

  /**
   * `join`: refuses outside a guild, when the invoker is in no voice channel,
   * or when a player already exists for the guild, and then changes nothing;
   * otherwise registers exactly one new queue with no tracks and a player
   * connected to the invoker's channel.
   */
  function Join(s: State, inv: Invocation): (o: Outcome)
    ensures o.reply == NotInGuild <==> inv.guild.None?
    ensures o.reply == NoVoiceChannel <==> inv.guild.Some? && inv.voice.None?
    ensures o.reply == PlayerExists <==> inv.guild.Some? && inv.voice.Some? && inv.guild.value in s.players
    ensures o.reply.IsRefusal() ==> o.state == s
    ensures !o.reply.IsRefusal() ==>
      var g := inv.guild.value;
      && inv.voice.Some?
      && o.reply == ConnectedTo(inv.voice.value)
      && o.state.queues.Keys == s.queues.Keys + {g}
      && o.state.players.Keys == s.players.Keys + {g}
      && o.state.queues[g] == Queue(inv.channel, [], None)
      && o.state.players[g] == Player(g, inv.voice, None)
      && Untouched(s, o.state, g)
    ensures Consistent(s) ==> Consistent(o.state)
  {
    match inv.guild
    case None => Outcome(s, NotInGuild)
    case Some(g) =>
      match inv.voice
      case None => Outcome(s, NoVoiceChannel)
      case Some(vc) =>
        if g in s.players then Outcome(s, PlayerExists)
        else
          var r := Register(s, g, inv.channel);
          Outcome(r.(players := r.players[g := r.players[g].(channel := Some(vc))]), ConnectedTo(vc))
  }

  /**
   * Steps 4-5 of `play` on one queue and its player, once `added` has been
   * appended: an idle engine starts the head of the queue and the rest keep
   * their order; an idle engine with nothing queued returns before the
   * connect step; otherwise an unconnected player connects to `vc`.
   */
  function Settle(q: Queue, p: Player, vc: ChannelId, added: seq<Track>): (r: (Queue, Player))
    ensures r.0.channel == q.channel && r.0.playing == q.playing && r.1.guild == p.guild
    ensures var pending := q.tracks + added;
      && (p.track.None? && pending == [] ==> r == (q, p))
      && (p.track.None? && pending != [] ==> r.1.track == Some(pending[0].track) && r.0.tracks == pending[1..])
      && (p.track.Some? ==> r.1.track == p.track && r.0.tracks == pending)
      && (p.track.Some? || pending != [] ==> r.1.channel == (if p.channel.Some? then p.channel else Some(vc)))
  {
    var pending := q.tracks + added;
    if p.track.None? && |pending| == 0 then (q, p)
    else
      var rest := if p.track.None? then pending[1..] else pending;
      var started := if p.track.None? then p.(track := Some(pending[0].track)) else p;
      var connected := if started.channel.None? then started.(channel := Some(vc)) else started;
      (q.(tracks := rest), connected)
  }

  /**
   * Steps 3-5 of `play` on the guild's existing queue: search, append by
   * load type, then settle the engine. A failed search changes nothing and
   * replies with the joined arguments; otherwise the reply names the queued
   * track or playlist, and only the guild's own queue and player change.
   */
  function Enqueue(s: State, g: GuildId, vc: ChannelId, args: seq<string>, resolve: string -> LoadResult): (o: Outcome)
    requires g in s.queues && g in s.players
    requires Resolvable(resolve(Query(args)))
    ensures Untouched(s, o.state, g)
    ensures g in o.state.queues && g in o.state.players
    ensures var res := resolve(Query(args));
      && ((res.loadType.LoadFailed? || res.loadType.NoMatches?) ==> o == Outcome(s, NothingFound(JoinWords(args))))
      && ((res.loadType.SearchResult? || res.loadType.TrackLoaded?) ==> o.reply == Queued(res.tracks[0]))
      && (res.loadType.PlaylistLoaded? ==> o.reply == QueuedPlaylist(|res.tracks|, res.playlistName))
      && (!o.reply.NothingFound? ==>
            (o.state.queues[g], o.state.players[g]) == Settle(s.queues[g], s.players[g], vc, Added(res)))
  {
    var res := resolve(Query(args));
    if res.loadType.LoadFailed? || res.loadType.NoMatches? then
      Outcome(s, NothingFound(JoinWords(args)))
    else
      var reply := if res.loadType.PlaylistLoaded? then QueuedPlaylist(|res.tracks|, res.playlistName) else Queued(res.tracks[0]);
      var r := Settle(s.queues[g], s.players[g], vc, Added(res));
      Outcome(State(s.queues[g := r.0], s.players[g := r.1]), reply)
  }

  /**
   * No track is lost or duplicated by `Enqueue`: what was pending plus what
   * the search added is exactly what was handed to the engine now, followed
   * by what is still pending, in the same order.
   */
  lemma EnqueueConservesTracks(s: State, g: GuildId, vc: ChannelId, args: seq<string>, resolve: string -> LoadResult)
    requires g in s.queues && g in s.players
    requires Resolvable(resolve(Query(args)))
    ensures
      var o := Enqueue(s, g, vc, args, resolve);
      var started := if s.players[g].track.None? && o.state.players[g].track.Some? then [o.state.players[g].track.value] else [];
      Encoded(s.queues[g].tracks + Added(resolve(Query(args)))) == started + Encoded(o.state.queues[g].tracks)
  {
    var o := Enqueue(s, g, vc, args, resolve);
    var pending := s.queues[g].tracks + Added(resolve(Query(args)));
    if s.players[g].track.None? && pending != [] {
      assert pending == [pending[0]] + pending[1..];
      EncodedAppend([pending[0]], pending[1..]);
    }
  }

  /**
   * `play` exactly as src/index.ts:103-175 writes it. Outside a guild, with no
   * voice channel for a new session, or from a voice channel other than the
   * player's, it refuses and changes nothing. On a guild without a queue it
   * registers the queue and player BEFORE searching, so a failed search still
   * leaves that new, unconnected session behind.
   */
  function PlayAsWritten(s: State, inv: Invocation, args: seq<string>, resolve: string -> LoadResult): (o: Outcome)
    requires Consistent(s)
    requires Resolvable(resolve(Query(args)))
    ensures Consistent(o.state)
    ensures o.reply == NotInGuild <==> inv.guild.None?
    ensures o.reply == NoVoiceChannel <==> inv.guild.Some? && inv.guild.value !in s.queues && inv.voice.None?
    ensures o.reply == WrongChannel <==>
      && inv.guild.Some? && inv.guild.value in s.queues
      && (inv.voice.None? || inv.voice != s.players[inv.guild.value].channel)
    ensures o.reply.NotInGuild? || o.reply.NoVoiceChannel? || o.reply.WrongChannel? ==> o.state == s
    ensures inv.guild.Some? ==> Untouched(s, o.state, inv.guild.value)
    ensures o.reply.NothingFound? ==>
      o.state == (if inv.guild.value in s.queues then s else Register(s, inv.guild.value, inv.channel))
    ensures !o.reply.IsRefusal() ==>
      && inv.guild.Some? && inv.voice.Some?
      && o == Enqueue(if inv.guild.value in s.queues then s else Register(s, inv.guild.value, inv.channel),
                      inv.guild.value, inv.voice.value, args, resolve)
  {
    match inv.guild
    case None => Outcome(s, NotInGuild)
    case Some(g) =>
      if g !in s.queues then
        if inv.voice.None? then Outcome(s, NoVoiceChannel)
        else Enqueue(Register(s, g, inv.channel), g, inv.voice.value, args, resolve)
      else if inv.voice.None? || inv.voice != s.players[g].channel then Outcome(s, WrongChannel)
      else Enqueue(s, g, inv.voice.value, args, resolve)
  }

  /**
   * The consequence of registering before searching: once a first `play` in a
   * guild finds nothing, the guild's player has no voice channel, every later
   * `play` there is refused as coming from the wrong channel, and `join` is
   * refused because a player exists. Only an `end` event for the guild would
   * clear it (the model's `OnEnd` does), and the engine emits `end` only for a
   * track it was told to play, which never happens here.
   */
  lemma PlayAsWrittenWedgesNewGuild(s: State, inv: Invocation, args: seq<string>, resolve: string -> LoadResult,
                                    later: Invocation, laterArgs: seq<string>, laterResolve: string -> LoadResult)
    requires Consistent(s)
    requires inv.guild.Some? && inv.guild.value !in s.queues && inv.voice.Some?
    requires resolve(Query(args)).loadType.LoadFailed? || resolve(Query(args)).loadType.NoMatches?
    requires later.guild == inv.guild
    requires Resolvable(laterResolve(Query(laterArgs)))
    ensures var o := PlayAsWritten(s, inv, args, resolve);
      && o.reply == NothingFound(JoinWords(args))
      && !Connected(o.state)
      && PlayAsWritten(o.state, later, laterArgs, laterResolve) == Outcome(o.state, WrongChannel)
      && Join(o.state, later).state == o.state
  {
    var g := inv.guild.value;
    var o := PlayAsWritten(s, inv, args, resolve);
    assert o.state == Register(s, g, inv.channel);
    assert o.state.players[g].channel.None?;
  }

  /**
   * The corrected `play`: the same replies, but a session that this call
   * created and did not get to connect (the search found nothing, or an empty
   * playlist left nothing to start) is discarded again, so every refusal
   * leaves the registry exactly as it was and every player stays connected.
   */
  function Play(s: State, inv: Invocation, args: seq<string>, resolve: string -> LoadResult): (o: Outcome)
    requires Consistent(s)
    requires Resolvable(resolve(Query(args)))
    ensures Consistent(o.state)
    ensures o.reply == PlayAsWritten(s, inv, args, resolve).reply
    ensures o.reply.IsRefusal() ==> o.state == s
    ensures o.state == s || o.state == PlayAsWritten(s, inv, args, resolve).state
    ensures inv.guild.Some? && inv.guild.value in s.queues ==> o == PlayAsWritten(s, inv, args, resolve)
    ensures o.state != PlayAsWritten(s, inv, args, resolve).state ==>
      && inv.guild.Some? && inv.guild.value !in s.queues
      && PlayAsWritten(s, inv, args, resolve).state.players[inv.guild.value].channel.None?
  {
    var o := PlayAsWritten(s, inv, args, resolve);
    match inv.guild
    case None => o
    case Some(g) =>
      if g !in s.queues && g in o.state.players && o.state.players[g].channel.None? then Outcome(s, o.reply)
      else o
  }

  /** `join` keeps the bookkeeping, and the full registry invariant. */
  lemma JoinKeepsInvariant(s: State, inv: Invocation)
    requires Coherent(s)
    ensures Coherent(Join(s, inv).state)
    ensures Invariant(s) ==> Invariant(Join(s, inv).state)
  {
    var o := Join(s, inv);
    if !o.reply.IsRefusal() {
      InvariantAfterLocalChange(s, o.state, inv.guild.value);
    }
  }

  /**
   * `play` as written keeps the bookkeeping: `queues` and `obsidian.players`
   * share their keys and no track waits behind an idle engine, since the
   * awaited search and reply are taken to succeed. (It does not keep every
   * player connected.)
   */
  lemma PlayAsWrittenKeepsCoherent(s: State, inv: Invocation, args: seq<string>, resolve: string -> LoadResult)
    requires Coherent(s)
    requires Resolvable(resolve(Query(args)))
    ensures Coherent(PlayAsWritten(s, inv, args, resolve).state)
  {
    var o := PlayAsWritten(s, inv, args, resolve);
    if o.state != s {
      var g := inv.guild.value;
      var base := if g in s.queues then s else Register(s, g, inv.channel);
      assert Untouched(s, base, g);
      if !o.reply.NothingFound? {
        var e := Enqueue(base, g, inv.voice.value, args, resolve);
        assert o == e;
      }
      assert Untouched(s, o.state, g);
      InvariantAfterLocalChange(s, o.state, g);
    }
  }

  /**
   * The corrected `play` keeps the registry invariant: every player stays
   * connected and no track waits behind an idle engine.
   */
  lemma PlayKeepsInvariant(s: State, inv: Invocation, args: seq<string>, resolve: string -> LoadResult)
    requires Invariant(s)
    requires Resolvable(resolve(Query(args)))
    ensures Invariant(Play(s, inv, args, resolve).state)
  {
    var o := Play(s, inv, args, resolve);
    if o.state != s {
      var g := inv.guild.value;
      var base := if g in s.queues then s else Register(s, g, inv.channel);
      var e := Enqueue(base, g, inv.voice.value, args, resolve);
      assert o == e;
      assert Untouched(s, base, g);
      assert Untouched(s, o.state, g);
      InvariantAfterLocalChange(s, o.state, g);
    }
  }

}
