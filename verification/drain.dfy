/**
 * Repeated `end` events: a queue drains in FIFO order, one track per event,
 * and the event after the last track tears the session down.
 */
module Drain {
  import opened Wrappers
  import opened Registry
  import opened Lifecycle

  /**
   * The state after `n` `end` events for guild `g`, and the encoded tracks
   * the engine was told to play along the way.
   */
  function Advance(s: State, g: GuildId, n: nat): (r: (State, seq<string>))
    requires Consistent(s)
    ensures Consistent(r.0)
    decreases n
  {
    if n == 0 then (s, [])
    else
      var next := OnEnd(s, g);
      var started := if g in next.players && g in s.queues then [next.players[g].track.value] else [];
      var rest := Advance(next, g, n - 1);
      (rest.0, started + rest.1)
  }

  /** End events for `g` never touch another guild's queue or player. */
  lemma {:induction false} AdvanceLeavesOtherGuilds(s: State, g: GuildId, n: nat)
    requires Consistent(s)
    ensures Untouched(s, Advance(s, g, n).0, g)
    decreases n
  {
    if n > 0 {
      var next := OnEnd(s, g);
      AdvanceLeavesOtherGuilds(next, g, n - 1);
      UntouchedTransitive(s, next, Advance(next, g, n - 1).0, g);
    } else {
      UntouchedReflexive(s, g);
    }
  }

  /**
   * For `n` up to the queue's length, `n` end events hand the first `n`
   * queued tracks to the engine in queue order, and the rest stay queued.
   */
  lemma {:induction false} DrainIsFifo(s: State, g: GuildId, n: nat)
    requires Consistent(s) && g in s.queues
    requires n <= |s.queues[g].tracks|
    decreases n
    ensures var r := Advance(s, g, n);
      && g in r.0.queues
      && r.1 == Encoded(s.queues[g].tracks[..n])
      && r.0.queues[g].tracks == s.queues[g].tracks[n..]
  {
    var ts := s.queues[g].tracks;
    if n > 0 {
      var next := OnEnd(s, g);
      assert next.queues[g].tracks == ts[1..];
      assert next.players[g].track == Some(ts[0].track);
      var rest := Advance(next, g, n - 1);
      assert Advance(s, g, n) == (rest.0, [ts[0].track] + rest.1);
      DrainIsFifo(next, g, n - 1);
      assert ts[1..][..n - 1] == ts[..n][1..];
      assert Encoded(ts[..n]) == [ts[0].track] + Encoded(ts[..n][1..]);
      assert ts[1..][n - 1..] == ts[n..];
    }
  }

  /**
   * One more end event than there are queued tracks plays all of them in
   * order and then removes the guild from both registries.
   */
  lemma {:induction false} DrainTearsDown(s: State, g: GuildId)
    requires Consistent(s) && g in s.queues
    ensures var r := Advance(s, g, |s.queues[g].tracks| + 1);
      && g !in r.0.queues && g !in r.0.players
      && r.1 == Encoded(s.queues[g].tracks)
    decreases |s.queues[g].tracks|
  {
    var ts := s.queues[g].tracks;
    var next := OnEnd(s, g);
    if ts == [] {
      assert g !in next.players;
      assert Advance(next, g, 0) == (next, []);
    } else {
      assert next.queues[g].tracks == ts[1..];
      assert next.players[g].track == Some(ts[0].track);
      DrainTearsDown(next, g);
      assert Advance(s, g, |ts| + 1) == (Advance(next, g, |ts|).0, [ts[0].track] + Advance(next, g, |ts|).1);
    }
  }

}
