/**
 * The whole bot as one state machine: every gateway message, engine event
 * and raw voice event is one atomic step over the registries. Command
 * messages go through the prefix parser and then either `play` as written or
 * the corrected `play`.
 */
module Bot {
  import opened Wrappers
  import opened Commands
  import opened Registry
  import opened Handlers
  import opened Lifecycle

  datatype Event =
    | MessageCreate(inv: Invocation, content: string)
    | TrackStart(guild: GuildId, track: string, info: TrackInfo)
    | TrackEnd(guild: GuildId)
    | Raw(raw: RawEvent)

  /** Which `play` handler the bot runs: the one in the source, or the corrected one. */
  datatype PlayVersion = AsWritten | Corrected

  /** The resolver keeps its side of the contract for every query. */
  ghost predicate ResolverKeepsContract(resolve: string -> LoadResult) {
    forall q :: Resolvable(resolve(q))
  }

  /**
   * One event. Messages without the prefix, `ping`, unknown commands and raw
   * voice events leave the registries as they are. The awaited search and
   * reply inside `play` are taken to succeed. With either `play`, the
   * bookkeeping (queues and players share their keys, no track waits behind
   * an idle engine) holds after every step; with the corrected `play`, every
   * player also stays connected to a voice channel.
   */
  function Step(v: PlayVersion, s: State, prefix: string, resolve: string -> LoadResult, e: Event): (r: State)
    requires Coherent(s)
    requires v.Corrected? ==> Invariant(s)
    requires ResolverKeepsContract(resolve)
    ensures Coherent(r)
    ensures v.Corrected? ==> Invariant(r)
    ensures e.Raw? ==> r == s
    ensures e.MessageCreate? && !Text.StartsWith(e.content, prefix) ==> r == s
  {
    match e
    case MessageCreate(inv, content) =>
      (match ParseCommand(prefix, content)
       case None => s
       case Some(p) =>
         (match Classify(p)
          case Join =>
            JoinKeepsInvariant(s, inv);
            Handlers.Join(s, inv).state
          case Play(args) =>
            if v.AsWritten? then
              PlayAsWrittenKeepsCoherent(s, inv, args, resolve);
              PlayAsWritten(s, inv, args, resolve).state
            else
              PlayKeepsInvariant(s, inv, args, resolve);
              Handlers.Play(s, inv, args, resolve).state
          case Ping => s
          case Unknown => s))
    case TrackStart(g, track, info) =>
      OnStartKeepsInvariant(s, g, track, info);
      OnStart(s, g, track, info)
    case TrackEnd(g) =>
      OnEndKeepsInvariant(s, g);
      OnEnd(s, g)
    case Raw(_) => s
  }

  /**
   * The state after a sequence of events. Every reachable state keeps the
   * bookkeeping; with the corrected `play` every reachable state also keeps
   * every player connected.
   */
  function Run(v: PlayVersion, s: State, prefix: string, resolve: string -> LoadResult, es: seq<Event>): (r: State)
    requires Coherent(s)
    requires v.Corrected? ==> Invariant(s)
    requires ResolverKeepsContract(resolve)
    ensures Coherent(r)
    ensures v.Corrected? ==> Invariant(r)
    decreases |es|
  {
    if |es| == 0 then s else Run(v, Step(v, s, prefix, resolve, es[0]), prefix, resolve, es[1..])
  }

  /**
   * Raw voice events follow the sessions: other event types are never routed;
   * once `end` has torn a guild's session down its voice events are dropped;
   * after a successful `join`, or a `play` that queued a track, its voice
   * state updates reach its player. (A `play` that queued an empty playlist
   * into a new guild leaves no session behind, so nothing is routed then.)
   */
  lemma RouteFollowsSessions(s: State, g: GuildId, t: string, inv: Invocation, args: seq<string>, resolve: string -> LoadResult)
    requires Consistent(s)
    requires Resolvable(resolve(Query(args)))
    requires inv.guild == Some(g)
    ensures t !in VoiceEvents ==> Route(s, RawEvent(t, Some(g))).None?
    ensures g in s.queues && s.queues[g].tracks == [] ==> Route(OnEnd(s, g), RawEvent(t, Some(g))).None?
    ensures Handlers.Join(s, inv).reply.ConnectedTo? ==>
      Route(Handlers.Join(s, inv).state, RawEvent("VOICE_STATE_UPDATE", Some(g))) == Some(g)
    ensures Handlers.Play(s, inv, args, resolve).reply.Queued? ==>
      Route(Handlers.Play(s, inv, args, resolve).state, RawEvent("VOICE_STATE_UPDATE", Some(g))) == Some(g)
  {
    var o := Handlers.Play(s, inv, args, resolve);
    if o.reply.Queued? && g !in s.queues {
      var base := Register(s, g, inv.channel);
      var e := Enqueue(base, g, inv.voice.value, args, resolve);
      assert PlayAsWritten(s, inv, args, resolve) == e;
      assert e.state.players[g].channel.Some?;
    }
  }

  /** A resolver that answers every query with the same outcome. */
  function Answer(res: LoadResult): string -> LoadResult {
    (q: string) => res
  }

  /** The invoker of the scenarios below: guild G2, voice channel C1. */
  const Invoker := Invocation(Some("G2"), Some("C1"), "text")

  /** G2's session with `tracks` queued while the engine plays `current`. */
  function Session(tracks: seq<Track>, current: string): State {
    State(map["G2" := Queue("text", tracks, None)], map["G2" := Player("G2", Some("C1"), Some(current))])
  }

  /**
   * First `play` in a guild: a single search result is queued, started at
   * once, and the player connects to the invoker's channel.
   */
  lemma FirstPlayStartsAtOnce(first: Track)
    ensures Handlers.Play(Empty, Invoker, ["lofi", "beats"], Answer(LoadResult(SearchResult, [first], ""))).state
      == Session([], first.track)
  {
    var s := Register(Empty, "G2", "text");
    var r := Settle(s.queues["G2"], s.players["G2"], "C1", [first]);
    assert [] + [first] == [first] && [first][1..] == [];
    assert r == (Queue("text", [], None), Player("G2", Some("C1"), Some(first.track)));
    var o := Enqueue(s, "G2", "C1", ["lofi", "beats"], Answer(LoadResult(SearchResult, [first], "")));
    assert o.state.queues == map["G2" := Queue("text", [], None)];
    assert o.state.players == map["G2" := Player("G2", Some("C1"), Some(first.track))];
  }

  /** A playlist queued while a track plays waits; the engine is not told to play. */
  lemma PlaylistWaitsWhilePlaying(first: Track, more: seq<Track>)
    ensures Handlers.Play(Session([], first.track), Invoker, ["mix"], Answer(LoadResult(PlaylistLoaded, more, "mix"))).state
      == Session(more, first.track)
  {
    var s := Session([], first.track);
    var o := Enqueue(s, "G2", "C1", ["mix"], Answer(LoadResult(PlaylistLoaded, more, "mix")));
    assert [] + more == more;
    assert o.state.queues == map["G2" := Queue("text", more, None)];
  }

  /** An `end` with a track waiting starts it; the next `end` tears the session down. */
  lemma EndsDrainTheSession(current: string, next: Track)
    ensures OnEnd(Session([next], current), "G2") == Session([], next.track)
    ensures OnEnd(Session([], current), "G2") == Empty
  {
    assert OnEnd(Session([next], current), "G2").queues["G2"].tracks == [];
    assert OnEnd(Session([], current), "G2").queues.Keys == {};
  }

}
