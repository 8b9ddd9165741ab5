/** The bot-to-bot chain limiter (`src/channels/discord.rs`), proved against the times at which it accepted. */
module BotChain {
  const BOT_CHAIN_MAX_DEPTH: nat := 5
  const BOT_CHAIN_TTL_SECS: nat := 300

  datatype ChainEntry = ChainEntry(depth: nat, lastUpdated: nat)

  datatype Event = Check(channel: nat, now: nat) | Reset(channel: nat)

  /** Times of the accepted messages of each channel since its last reset. */
  type Accepts = map<nat, seq<nat>>

  function TimesOf(accepts: Accepts, channel: nat): seq<nat> {
    if channel in accepts then accepts[channel] else []
  }

  function Last(times: seq<nat>): nat
    requires |times| > 0
  {
    times[|times| - 1]
  }

  /** How many of the latest acceptances follow each other in less than the TTL. */
  function ChainLength(ttl: nat, times: seq<nat>): (n: nat)
    ensures n <= |times| && (|times| > 0 ==> n > 0)
  {
    if |times| == 0 then 0
    else if |times| > 1 && Last(times) < times[|times| - 2] + ttl then ChainLength(ttl, times[..|times| - 1]) + 1
    else 1
  }

  /** A message passes when the chain has gone quiet for the TTL or is not yet at its full depth. Only the
      channel's own past decides. */
  predicate MayAccept(ttl: nat, times: seq<nat>, now: nat) {
    |times| == 0 || now >= Last(times) + ttl || ChainLength(ttl, times) < BOT_CHAIN_MAX_DEPTH
  }

  function After(ttl: nat, accepts: Accepts, event: Event): Accepts {
    match event
    case Check(channel, now) =>
      var times := TimesOf(accepts, channel);
      if MayAccept(ttl, times, now) then accepts[channel := times + [now]] else accepts
    case Reset(channel) => accepts[channel := []]
  }

  function AfterAll(ttl: nat, accepts: Accepts, events: seq<Event>): Accepts
    decreases |events|
  {
    if |events| == 0 then accepts else AfterAll(ttl, After(ttl, accepts, events[0]), events[1..])
  }

  class BotChainState {
    const ttl: nat
    var chains: map<nat, ChainEntry>
    ghost var accepts: Accepts
    ghost var clock: nat

    constructor WithTtl(ttl: nat)
      ensures this.ttl == ttl && accepts == map[] && clock == 0 && Valid()
    {
      this.ttl, chains, accepts, clock := ttl, map[], map[], 0;
    }

    constructor ()
      ensures ttl == 300 && accepts == map[] && clock == 0 && Valid()
    {
      ttl, chains, accepts, clock := BOT_CHAIN_TTL_SECS, map[], map[], 0;
    }

    /** The stored entry of a channel is the depth and the time of its latest chain; a channel without one
        never accepted since its reset, or has been quiet for the TTL. */
    ghost predicate Valid()
      reads this
    {
      forall c: nat :: Tracks(ttl, clock, chains, TimesOf(accepts, c), c)
    }

    /** `clock` is the time of the latest call: the clock is monotone. */
    method CheckAndIncrement(channel: nat, now: nat) returns (accepted: bool)
      requires Valid() && clock <= now
      modifies this
      ensures Valid() && clock == now
      ensures accepted <==> MayAccept(ttl, TimesOf(old(accepts), channel), now)
      ensures accepts == After(ttl, old(accepts), Check(channel, now))
      ensures forall c :: c in chains ==> 1 <= chains[c].depth <= 5
    {
      hide ChainLength, Tracks, MayAccept;
      ghost var was, before := chains, accepts;
      chains := map c | c in chains && Elapsed(chains[c].lastUpdated, now) < ttl :: chains[c];
      RetainTracks(ttl, clock, now, was, chains, accepts);
      clock := now;
      Decides(ttl, now, chains, accepts, channel);
      if channel in chains {
        if chains[channel].depth >= BOT_CHAIN_MAX_DEPTH {
          accepted := false;
        } else {
          chains := chains[channel := ChainEntry(chains[channel].depth + 1, now)];
          accepted := true;
        }
      } else {
        chains := chains[channel := ChainEntry(1, now)];
        accepted := true;
      }
      accepts := After(ttl, accepts, Check(channel, now));
      DepthsBounded(ttl, now, chains, accepts);
    }

    method ResetChannel(channel: nat)
      requires Valid()
      modifies this`chains, this`accepts
      ensures Valid() && accepts == After(ttl, old(accepts), Reset(channel))
      ensures chains == old(chains) - {channel}
    {
      ghost var was, before := chains, accepts;
      chains := chains - {channel};
      accepts := accepts[channel := []];
      forall c: nat ensures Tracks(ttl, clock, chains, TimesOf(accepts, c), c) {
        assert Tracks(ttl, clock, was, TimesOf(before, c), c);
      }
    }
  }

  /** `Instant::duration_since` never goes below zero. */
  function Elapsed(since: nat, now: nat): nat { if now < since then 0 else now - since }

  predicate Tracks(ttl: nat, clock: nat, chains: map<nat, ChainEntry>, times: seq<nat>, c: nat) {
    if c in chains then
      |times| > 0 && chains[c] == ChainEntry(ChainLength(ttl, times), Last(times)) && Last(times) <= clock &&
      1 <= chains[c].depth <= 5
    else |times| == 0 || Last(times) + ttl <= clock
  }

  lemma RetainTracks(
    ttl: nat, clock: nat, now: nat, was: map<nat, ChainEntry>, live: map<nat, ChainEntry>, accepts: Accepts)
    requires clock <= now && forall c: nat :: Tracks(ttl, clock, was, TimesOf(accepts, c), c)
    requires forall c :: c in live <==> c in was && Elapsed(was[c].lastUpdated, now) < ttl
    requires forall c :: c in live ==> live[c] == was[c]
    ensures forall c: nat :: Tracks(ttl, now, live, TimesOf(accepts, c), c)
  {
    hide ChainLength;
    forall c: nat ensures Tracks(ttl, now, live, TimesOf(accepts, c), c) {
      assert Tracks(ttl, clock, was, TimesOf(accepts, c), c);
    }
  }

  lemma DepthsBounded(ttl: nat, clock: nat, chains: map<nat, ChainEntry>, accepts: Accepts)
    requires forall c: nat :: Tracks(ttl, clock, chains, TimesOf(accepts, c), c)
    ensures forall c :: c in chains ==> 1 <= chains[c].depth <= 5
  {
    hide ChainLength;
    forall c | c in chains ensures 1 <= chains[c].depth <= BOT_CHAIN_MAX_DEPTH {
      assert Tracks(ttl, clock, chains, TimesOf(accepts, c), c);
    }
  }

  /** With expired entries gone, the entry of the channel decides as its accepted times do, and the new
      entry describes them again. */
  lemma Decides(ttl: nat, now: nat, live: map<nat, ChainEntry>, accepts: Accepts, channel: nat)
    requires forall c: nat :: Tracks(ttl, now, live, TimesOf(accepts, c), c)
    requires forall c :: c in live ==> Elapsed(live[c].lastUpdated, now) < ttl
    ensures MayAccept(ttl, TimesOf(accepts, channel), now) <==>
      channel !in live || live[channel].depth < 5
    ensures MayAccept(ttl, TimesOf(accepts, channel), now) ==>
      var entry := ChainEntry(if channel in live then live[channel].depth + 1 else 1, now);
      forall c: nat :: Tracks(ttl, now, live[channel := entry], TimesOf(After(ttl, accepts, Check(channel, now)), c), c)
    ensures !MayAccept(ttl, TimesOf(accepts, channel), now) ==> After(ttl, accepts, Check(channel, now)) == accepts
  {
    hide ChainLength;
    var times := TimesOf(accepts, channel);
    assert Tracks(ttl, now, live, times, channel);
    ChainGrows(ttl, times, now);
    if MayAccept(ttl, times, now) {
      var entry := ChainEntry(if channel in live then live[channel].depth + 1 else 1, now);
      var grown := After(ttl, accepts, Check(channel, now));
      forall c: nat ensures Tracks(ttl, now, live[channel := entry], TimesOf(grown, c), c) {
        assert Tracks(ttl, now, live, TimesOf(accepts, c), c);
      }
    }
  }

  lemma ChainGrows(ttl: nat, times: seq<nat>, now: nat)
    ensures ChainLength(ttl, times + [now]) ==
      if |times| > 0 && now < Last(times) + ttl then ChainLength(ttl, times) + 1 else 1
  {
    var all := times + [now];
    assert all[..|all| - 1] == times;
  }

  // ---------------------------------------------------------------- over runs

  /** Every acceptance was allowed by the ones before it. */
  ghost predicate WellSpaced(ttl: nat, times: seq<nat>) {
    forall k :: 0 <= k < |times| ==> MayAccept(ttl, times[..k], times[k])
  }

  lemma {:induction false} RunsAreWellSpaced(ttl: nat, accepts: Accepts, events: seq<Event>, channel: nat)
    requires forall c: nat :: WellSpaced(ttl, TimesOf(accepts, c))
    ensures WellSpaced(ttl, TimesOf(AfterAll(ttl, accepts, events), channel))
    decreases |events|
  {
    hide MayAccept;
    if |events| > 0 {
      var next := After(ttl, accepts, events[0]);
      forall c: nat ensures WellSpaced(ttl, TimesOf(next, c)) {
        var times, grown := TimesOf(accepts, c), TimesOf(next, c);
        assert WellSpaced(ttl, times);
        if |grown| > |times| {
          forall k | 0 <= k < |grown| ensures MayAccept(ttl, grown[..k], grown[k]) {
            assert grown[..k] == times[..k];
            if k == |times| { assert times[..k] == times; }
          }
        }
      }
      RunsAreWellSpaced(ttl, next, events[1..], channel);
    }
  }

  lemma {:induction false} ChainIsBounded(ttl: nat, times: seq<nat>)
    requires WellSpaced(ttl, times)
    ensures ChainLength(ttl, times) <= 5
  {
    if |times| > 0 {
      var init := times[..|times| - 1];
      assert times == init + [Last(times)];
      forall k | 0 <= k < |init| ensures MayAccept(ttl, init[..k], init[k]) {
        assert init[..k] == times[..k];
      }
      ChainIsBounded(ttl, init);
      ChainGrows(ttl, init, Last(times));
      assert MayAccept(ttl, times[..|times| - 1], times[|times| - 1]);
    }
  }

  /** All of the last `n` gaps are shorter than the TTL. */
  predicate ShortGaps(ttl: nat, times: seq<nat>, n: nat)
    requires n < |times|
  {
    forall i :: |times| - 1 - n <= i < |times| - 1 ==> times[i + 1] < times[i] + ttl
  }

  lemma {:induction false} ShortGapsChain(ttl: nat, times: seq<nat>, n: nat)
    requires n < |times| && ShortGaps(ttl, times, n)
    ensures ChainLength(ttl, times) > n
  {
    if n > 0 {
      var init := times[..|times| - 1];
      assert times == init + [Last(times)] && Last(init) == times[|times| - 2];
      assert times[|times| - 2 + 1] < times[|times| - 2] + ttl;
      forall i | |init| - n <= i < |init| - 1 ensures init[i + 1] < init[i] + ttl {
        assert times[i + 1] < times[i] + ttl;
      }
      ShortGapsChain(ttl, init, n - 1);
      ChainGrows(ttl, init, Last(times));
    }
  }

  /** Any six acceptances in a row on one channel, with no reset between them, include a gap of at least
      the TTL, whatever happens on this and on other channels. */
  lemma SixAcceptsIncludeAGap(ttl: nat, events: seq<Event>, channel: nat, k: nat) returns (i: nat)
    requires k + 5 < |TimesOf(AfterAll(ttl, map[], events), channel)|
    ensures k <= i < k + 5
    ensures var times := TimesOf(AfterAll(ttl, map[], events), channel);
      times[i + 1] >= times[i] + ttl
  {
    hide AfterAll, ChainLength, MayAccept;
    RunsAreWellSpaced(ttl, map[], events, channel);
    var times := TimesOf(AfterAll(ttl, map[], events), channel);
    var window := times[..k + BOT_CHAIN_MAX_DEPTH + 1];
    forall j | 0 <= j < |window| ensures MayAccept(ttl, window[..j], window[j]) {
      assert window[..j] == times[..j];
    }
    ChainIsBounded(ttl, window);
    if ShortGaps(ttl, window, BOT_CHAIN_MAX_DEPTH) { ShortGapsChain(ttl, window, BOT_CHAIN_MAX_DEPTH); }
    i :| k <= i < k + BOT_CHAIN_MAX_DEPTH && window[i + 1] >= window[i] + ttl;
  }

  function OnlyOf(channel: nat, events: seq<Event>): seq<Event> {
    if |events| == 0 then []
    else (if events[0].channel == channel then [events[0]] else []) + OnlyOf(channel, events[1..])
  }

  /** Channels do not affect each other: dropping everything that concerns other channels changes nothing
      for this one. */
  lemma {:induction false} ChannelsAreIndependent(ttl: nat, a: Accepts, b: Accepts, events: seq<Event>, channel: nat)
    requires TimesOf(a, channel) == TimesOf(b, channel)
    ensures TimesOf(AfterAll(ttl, a, events), channel) == TimesOf(AfterAll(ttl, b, OnlyOf(channel, events)), channel)
    decreases |events|
  {
    hide MayAccept;
    if |events| > 0 {
      var only := OnlyOf(channel, events);
      if events[0].channel == channel {
        assert only[0] == events[0] && only[1..] == OnlyOf(channel, events[1..]);
        ChannelsAreIndependent(ttl, After(ttl, a, events[0]), After(ttl, b, events[0]), events[1..], channel);
      } else {
        assert only == OnlyOf(channel, events[1..]);
        ChannelsAreIndependent(ttl, After(ttl, a, events[0]), b, events[1..], channel);
      }
    }
  }
}
