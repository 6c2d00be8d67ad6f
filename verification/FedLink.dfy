// The dialing side of the federation pull (apps/ingest/src/fedlink.ts): which peer a round dials, how long a
// failing peer waits, and what one session may pull.
//
// `round()` holds `busy` across its awaits, so a round is two steps, a call and the end of its session, and
// any call in between changes nothing.

module FedLink {
  import opened Common
  import opened FedSync

  const MAX_BACKOFF_ROUNDS: nat := 32
  const PAGES_DEFAULT: int := 20
  // tombstone, cache, find, key, account-move, bulletin
  const FEEDS: nat := 6

  datatype Endpoint = Ax25(address: string) | Netrom(address: string)

  datatype Peer = Peer(instance: int, endpoints: seq<Endpoint>, cursors: map<nat, Cursor>)

  // ---- the schedule ---------------------------------------------------------------------------------

  // An endpoint this box can dial: a station, or a node when it has one to enter through.
  predicate CanDial(e: Endpoint, entryNode: bool) { e.Ax25? || entryNode }

  predicate Reachable(p: Peer, entryNode: bool) {
    exists i :: 0 <= i < |p.endpoints| && CanDial(p.endpoints[i], entryNode)
  }

  // There is a way to the peer: one of its endpoints is a station, or it has one at all and there is a node to enter
  // through.
  ghost predicate WayTo(p: Peer, entryNode: bool) {
    exists i :: 0 <= i < |p.endpoints| && (p.endpoints[i].Ax25? || (p.endpoints[i].Netrom? && entryNode))
  }

  lemma ReachableIff(p: Peer, entryNode: bool)
    ensures Reachable(p, entryNode) <==> WayTo(p, entryNode)
  {
    if Reachable(p, entryNode) {
      var i :| 0 <= i < |p.endpoints| && CanDial(p.endpoints[i], entryNode);
      assert p.endpoints[i].Ax25? || (p.endpoints[i].Netrom? && entryNode);
    }
    if WayTo(p, entryNode) {
      var i :| 0 <= i < |p.endpoints| && (p.endpoints[i].Ax25? || (p.endpoints[i].Netrom? && entryNode));
      assert CanDial(p.endpoints[i], entryNode);
    }
  }

  predicate FirstToDial(p: Peer, e: Endpoint, entryNode: bool) {
    exists i :: 0 <= i < |p.endpoints| && p.endpoints[i] == e && (e.Ax25? || entryNode)
             && (forall j :: 0 <= j < i ==> p.endpoints[j].Netrom?) && (i > 0 ==> !entryNode)
  }

  datatype Wait = Wait(fails: nat, until: int)

  datatype Session = Session(round: nat, instance: int, ok: bool)

  datatype Schedule = Schedule(round: nat, backoff: map<int, Wait>, current: Option<int>, log: seq<Session>)

  const IDLE := Schedule(0, map[], None, [])

  // The rounds a peer is skipped after `fails` failures in a row.
  function Skips(fails: nat): nat
    requires fails >= 1
  {
    PowerGrows(0, fails - 1);
    var n := PowerOfTwo(fails - 1);
    if n < MAX_BACKOFF_ROUNDS then n else MAX_BACKOFF_ROUNDS
  }

  predicate Waits(s: Schedule, instance: int) {
    instance in s.backoff && s.round < s.backoff[instance].until
  }

  // The first peer of the list that is not waiting and can be dialled.
  function Chosen(s: Schedule, peers: seq<Peer>, entryNode: bool): Option<Peer> {
    if peers == [] then None
    else if !Waits(s, peers[0].instance) && Reachable(peers[0], entryNode) then Some(peers[0])
    else Chosen(s, peers[1..], entryNode)
  }

  function Ended(s: Schedule, ok: bool): Schedule
    requires s.current.Some?
  {
    var x := s.current.value;
    var fails := (if x in s.backoff then s.backoff[x].fails else 0) + 1;
    Schedule(s.round,
             if ok then s.backoff - {x} else s.backoff[x := Wait(fails, s.round + 1 + Skips(fails))],
             None, s.log + [Session(s.round, x, ok)])
  }

  // `peers` is None when the gateway's list cannot be had.
  datatype Event = Call(canTransmit: bool, entryNode: bool, peers: Option<seq<Peer>>) | End(ok: bool)

  function Step(s: Schedule, e: Event): Schedule {
    match e
    case Call(canTransmit, entryNode, peers) =>
      if s.current.Some? then s
      else
        var s1 := s.(round := s.round + 1);
        if !canTransmit || peers.None? then s1
        else
          var p := Chosen(s1, peers.value, entryNode);
          s1.(current := if p.Some? then Some(p.value.instance) else None)
    case End(ok) => if s.current.None? then s else Ended(s, ok)
  }

  function Steps(es: seq<Event>): Schedule {
    if es == [] then IDLE else Step(Steps(es[..|es| - 1]), es[|es| - 1])
  }

  // ---- what the log of sessions says ------------------------------------------------------------------

  // A peer's failures in a row, up to its last session.
  function Streak(log: seq<Session>, instance: int): nat {
    if log == [] then 0
    else
      var last := log[|log| - 1];
      if last.instance != instance then Streak(log[..|log| - 1], instance)
      else if last.ok then 0
      else Streak(log[..|log| - 1], instance) + 1
  }

  // The round of its last session, or 0.
  function LastRound(log: seq<Session>, instance: int): nat {
    if log == [] then 0
    else if log[|log| - 1].instance == instance then log[|log| - 1].round
    else LastRound(log[..|log| - 1], instance)
  }

  // A peer is due when it has not just failed, or was skipped for as many rounds as its streak says.
  predicate Due(log: seq<Session>, instance: int, round: nat) {
    var k := Streak(log, instance);
    k > 0 ==>
      round > LastRound(log, instance) + if PowerOfTwo(k - 1) < 32 then PowerOfTwo(k - 1) else 32
  }

  // No session before its peer is due, and never two in one round.
  predicate Spaced(log: seq<Session>) {
    log == [] ||
      var init, last := log[..|log| - 1], log[|log| - 1];
      && Spaced(init) && Due(init, last.instance, last.round) && (init != [] ==> init[|init| - 1].round < last.round)
  }

  ghost predicate Inv(s: Schedule) {
    && Spaced(s.log)
    && (forall x :: x in s.backoff <==> Streak(s.log, x) > 0)
    && (forall x :: x in s.backoff ==>
          s.backoff[x] == Wait(Streak(s.log, x), LastRound(s.log, x) + 1 + Skips(Streak(s.log, x))))
    && (s.log != [] ==> s.log[|s.log| - 1].round <= s.round)
    && (s.current.Some? ==>
          Due(s.log, s.current.value, s.round) && (s.log != [] ==> s.log[|s.log| - 1].round < s.round))
  }

  lemma WaitsIffNotDue(s: Schedule, instance: int)
    requires forall x :: x in s.backoff <==> Streak(s.log, x) > 0
    requires forall x :: x in s.backoff ==>
               s.backoff[x] == Wait(Streak(s.log, x), LastRound(s.log, x) + 1 + Skips(Streak(s.log, x)))
    ensures Waits(s, instance) <==> !Due(s.log, instance, s.round)
  {
  }

  lemma {:induction false} ChosenIsFirst(s: Schedule, peers: seq<Peer>, entryNode: bool)
    ensures var p := Chosen(s, peers, entryNode);
      if p.None? then forall i :: 0 <= i < |peers| ==> Waits(s, peers[i].instance) || !Reachable(peers[i], entryNode)
      else exists i ::
             && 0 <= i < |peers| && peers[i] == p.value
             && !Waits(s, peers[i].instance) && Reachable(peers[i], entryNode)
             && forall j :: 0 <= j < i ==> Waits(s, peers[j].instance) || !Reachable(peers[j], entryNode)
  {
    if peers != [] && (Waits(s, peers[0].instance) || !Reachable(peers[0], entryNode)) {
      ChosenIsFirst(s, peers[1..], entryNode);
      var p := Chosen(s, peers, entryNode);
      if p.Some? {
        var i :| 0 <= i < |peers[1..]| && peers[1..][i] == p.value && !Waits(s, peers[1..][i].instance)
            && Reachable(peers[1..][i], entryNode)
                 && forall j :: 0 <= j < i ==> Waits(s, peers[1..][j].instance) || !Reachable(peers[1..][j], entryNode);
        assert peers[i + 1] == p.value;
        forall j | 0 <= j < i + 1 ensures Waits(s, peers[j].instance) || !Reachable(peers[j], entryNode) {
          if j > 0 { assert peers[1..][j - 1] == peers[j]; }
        }
      }
    }
  }

  // The next round begins, with a peer that is due or none.
  lemma RoundKeepsInv(s: Schedule, t: Schedule)
    requires Inv(s) && s.current.None? && t == s.(round := s.round + 1, current := t.current)
    requires t.current.Some? ==> Due(s.log, t.current.value, t.round)
    ensures Inv(t)
  {
  }

  lemma ChosenIsDue(s: Schedule, peers: seq<Peer>, entryNode: bool, p: Option<Peer>)
    requires p == Chosen(s, peers, entryNode)
    requires forall x :: x in s.backoff <==> Streak(s.log, x) > 0
    requires forall x :: x in s.backoff ==>
               s.backoff[x] == Wait(Streak(s.log, x), LastRound(s.log, x) + 1 + Skips(Streak(s.log, x)))
    ensures p.Some? ==> Due(s.log, p.value.instance, s.round)
  {
    ChosenIsFirst(s, peers, entryNode);
    if p.Some? { WaitsIffNotDue(s, p.value.instance); }
  }

  lemma CallKeepsInv(s: Schedule, e: Event, t: Schedule)
    requires Inv(s) && e.Call? && t == Step(s, e)
    ensures Inv(t)
  {
    if s.current.None? {
      var s1 := s.(round := s.round + 1);
      if e.canTransmit && e.peers.Some? {
        ChosenIsDue(s1, e.peers.value, e.entryNode, Chosen(s1, e.peers.value, e.entryNode));
      }
      RoundKeepsInv(s, t);
    }
  }

  lemma EndKeepsInv(s: Schedule, ok: bool)
    requires Inv(s) && s.current.Some?
    ensures Inv(Ended(s, ok))
  {
    var s1, x := Ended(s, ok), s.current.value;
    assert s1.log[..|s1.log| - 1] == s.log;
    forall y ensures Streak(s1.log, y) == (if y != x then Streak(s.log, y) else if ok then 0 else Streak(s.log, y) + 1)
                  && LastRound(s1.log, y) == if y == x then s.round else LastRound(s.log, y) {
    }
  }

  lemma {:induction false} EveryRunKeepsInv(es: seq<Event>)
    ensures Inv(Steps(es))
  {
    if es != [] {
      var s, e := Steps(es[..|es| - 1]), es[|es| - 1];
      EveryRunKeepsInv(es[..|es| - 1]);
      if e.Call? { CallKeepsInv(s, e, Step(s, e)); } else if s.current.Some? { EndKeepsInv(s, e.ok); }
    }
  }

  // Over every run: a peer that failed k times in a row is skipped for min(32, 2^(k-1)) rounds at least, and
  // no round holds two sessions.
  lemma FailingPeersWait(es: seq<Event>, j: nat)
    requires j < |Steps(es).log|
    ensures var log := Steps(es).log;
      Due(log[..j], log[j].instance, log[j].round) && forall i :: 0 <= i < j ==> log[i].round < log[j].round
  {
    EveryRunKeepsInv(es);
    SpacedAt(Steps(es).log, j);
  }

  lemma {:induction false} SpacedAt(log: seq<Session>, j: nat)
    requires Spaced(log) && j < |log|
    ensures Due(log[..j], log[j].instance, log[j].round) && forall i :: 0 <= i < j ==> log[i].round < log[j].round
    decreases |log|
  {
    var init := log[..|log| - 1];
    if j < |init| {
      SpacedAt(init, j);
      assert init[..j] == log[..j];
    } else {
      assert log[..j] == init;
      if init != [] { SpacedAt(init, |init| - 1); }
    }
  }

  // And for no longer: with the transmitter on and the list at hand, an idle puller dials the first peer of
  // the list that is due and can be reached, and none only when there is no such peer.
  lemma FirstDuePeerIsDialled(es: seq<Event>, entryNode: bool, peers: seq<Peer>)
    requires Steps(es).current.None?
    ensures var s, s1 := Steps(es), Step(Steps(es), Call(true, entryNode, Some(peers)));
      if s1.current.None? then
        forall i :: 0 <= i < |peers| ==> !(Due(s.log, peers[i].instance, s.round + 1) && WayTo(peers[i], entryNode))
      else
        exists i :: 0 <= i < |peers| && s1.current == Some(peers[i].instance)
          && Due(s.log, peers[i].instance, s.round + 1) && WayTo(peers[i], entryNode)
          && forall j :: 0 <= j < i ==> !(Due(s.log, peers[j].instance, s.round + 1) && WayTo(peers[j], entryNode))
  {
    EveryRunKeepsInv(es);
    FirstNotWaiting(Steps(es), entryNode, peers);
  }

  lemma FirstNotWaiting(s: Schedule, entryNode: bool, peers: seq<Peer>)
    requires Inv(s) && s.current.None?
    ensures var s1 := Step(s, Call(true, entryNode, Some(peers)));
      if s1.current.None? then
        forall i :: 0 <= i < |peers| ==> !(Due(s.log, peers[i].instance, s.round + 1) && WayTo(peers[i], entryNode))
      else
        exists i :: 0 <= i < |peers| && s1.current == Some(peers[i].instance)
          && Due(s.log, peers[i].instance, s.round + 1) && WayTo(peers[i], entryNode)
          && forall j :: 0 <= j < i ==> !(Due(s.log, peers[j].instance, s.round + 1) && WayTo(peers[j], entryNode))
  {
    var s1 := s.(round := s.round + 1);
    ChosenIsFirst(s1, peers, entryNode);
    forall i | 0 <= i < |peers| ensures Waits(s1, peers[i].instance) <==> !Due(s1.log, peers[i].instance, s1.round) {
      WaitsIffNotDue(s1, peers[i].instance);
    }
    forall i | 0 <= i < |peers| ensures Reachable(peers[i], entryNode) <==> WayTo(peers[i], entryNode) {
      ReachableIff(peers[i], entryNode);
    }
  }

  // The end of a session frees the puller and goes down in the log, with its round and how it went.
  lemma SessionEnds(s: Schedule, ok: bool)
    requires s.current.Some?
    ensures var r := Step(s, End(ok));
      r.current.None? && r.round == s.round && r.log == s.log + [Session(s.round, s.current.value, ok)]
    ensures Step(s.(current := None), End(ok)) == s.(current := None)
  {
  }

  // No session starts while the transmitter is off, the list cannot be had, or one is under way.
  lemma NothingDialled(s: Schedule, e: Event)
    requires e.Call? && (!e.canTransmit || e.peers.None? || s.current.Some?)
    ensures Step(s, e).current == s.current && Step(s, e).log == s.log && Step(s, e).backoff == s.backoff
    ensures Step(s, e).round == if s.current.Some? then s.round else s.round + 1
  {
  }

  // ---- one session ------------------------------------------------------------------------------------

  // A session under way: the pages left, what it reports, the results of the feeds pulled, in their order, and
  // the requests it made.
  datatype Exchanged = Exchanged(
    budget: int, pages: nat, frames: nat, counts: Counts, results: seq<Result>, complete: bool,
    status: Status, asked: nat)

  function Opened(maxPages: int): Exchanged {
    Exchanged(maxPages, 0, 0, Counts(0, 0, 0), [], true, Running, 0)
  }

  function Resume(peer: Peer, feed: nat): Cursor {
    if feed in peer.cursors then peer.cursors[feed] else Cursor(0, None)
  }

  // The pull of one feed, within the pages left.
  function FeedPull(peer: Peer, feed: nat, world: (nat, Cursor) -> Exchange, budget: int): Pull {
    After(Resume(peer, feed), world, if budget < 0 then 0 else budget)
  }

  // One feed: out of pages, failed, or pulled.
  function Fed(s: Exchanged, pull: Pull): Exchanged {
    if s.status != Running then s
    else if s.budget <= 0 then s.(complete := false, status := Stopped)
    else
      if pull.status.Threw? then s.(status := Threw, asked := s.asked + pull.asked)
      else
        var r := pull.result;
        Exchanged(s.budget - r.pages, s.pages + r.pages, s.frames + r.frames, s.counts.Plus(r.counts),
                  s.results + [r], s.complete && r.complete, Running, s.asked + pull.asked)
  }

  function FedUpTo(maxPages: int, peer: Peer, worlds: nat -> (nat, Cursor) -> Exchange, n: nat): Exchanged {
    if n == 0 then Opened(maxPages)
    else
      var s := FedUpTo(maxPages, peer, worlds, n - 1);
      Fed(s, FeedPull(peer, n - 1, worlds(n - 1), s.budget))
  }

  // A session asks for no more pages than its budget over all feeds, those of a failing feed included.
  lemma {:induction false} SessionWithinBudget(
    maxPages: int, peer: Peer, worlds: nat -> (nat, Cursor) -> Exchange, n: nat)
    ensures var s := FedUpTo(maxPages, peer, worlds, n);
      && s.pages <= s.asked <= (if maxPages < 0 then 0 else maxPages)
      && (s.status != Threw ==> s.budget == maxPages - s.asked && s.pages == s.asked)
    decreases n
  {
    if n > 0 {
      SessionWithinBudget(maxPages, peer, worlds, n - 1);
      var s := FedUpTo(maxPages, peer, worlds, n - 1);
      if s.status == Running && s.budget > 0 { PullIsBounded(Resume(peer, n - 1), worlds(n - 1), s.budget); }
    }
  }

  predicate Whole(results: seq<Result>) { forall k :: 0 <= k < |results| ==> results[k].complete }

  // After n feeds: those pulled are the first ones, all of them while the session runs on; a session that did
  // not fail says "complete" exactly when it pulled every feed and each was complete.
  predicate WellTold(s: Exchanged, n: nat) {
    && |s.results| <= n && (s.status == Running ==> |s.results| == n)
        && (s.status == Stopped ==> !s.complete && |s.results| < n)
    && (s.status != Threw ==> (s.complete <==> |s.results| == n && Whole(s.results)))
  }

  lemma FedTold(s: Exchanged, pull: Pull, n: nat)
    requires WellTold(s, n)
    ensures WellTold(Fed(s, pull), n + 1)
    ensures s.results <= Fed(s, pull).results && |Fed(s, pull).results| <= |s.results| + 1
    ensures |Fed(s, pull).results| > |s.results| ==>
        s.budget > 0 && pull.status != Threw && Fed(s, pull).results[|s.results|] == pull.result
  {
    var more := s.results + [pull.result];
    assert more[|s.results|] == pull.result;
    assert Whole(more) <==> Whole(s.results) && pull.result.complete by {
      assert forall k :: 0 <= k < |s.results| ==> more[k] == s.results[k];
    }
  }

  lemma {:induction false} CompleteIff(maxPages: int, peer: Peer, worlds: nat -> (nat, Cursor) -> Exchange, n: nat)
    ensures WellTold(FedUpTo(maxPages, peer, worlds, n), n)
    decreases n
  {
    if n > 0 {
      var s := FedUpTo(maxPages, peer, worlds, n - 1);
      CompleteIff(maxPages, peer, worlds, n - 1);
      FedTold(s, FeedPull(peer, n - 1, worlds(n - 1), s.budget), n - 1);
    }
  }

  // ---- what a session reports

  function PagesOf(results: seq<Result>): nat {
    if results == [] then 0 else PagesOf(results[..|results| - 1]) + results[|results| - 1].pages
  }

  function FramesOf(results: seq<Result>): nat {
    if results == [] then 0 else FramesOf(results[..|results| - 1]) + results[|results| - 1].frames
  }

  function CountsOf(results: seq<Result>): Counts {
    if results == [] then Counts(0, 0, 0) else CountsOf(results[..|results| - 1]).Plus(results[|results| - 1].counts)
  }

  lemma OneResultMore(results: seq<Result>, r: Result)
    ensures var more := results + [r];
      && PagesOf(more) == PagesOf(results) + r.pages && FramesOf(more) == FramesOf(results) + r.frames
      && CountsOf(more) == CountsOf(results).Plus(r.counts)
  {
    assert (results + [r])[..|results|] == results;
  }

  // The pull of a feed from the peer's cursor for it, or from the start, within the pages those before left.
  function PullOf(maxPages: int, peer: Peer, worlds: nat -> (nat, Cursor) -> Exchange, before: seq<Result>): Pull
    requires maxPages > PagesOf(before)
  {
    var feed := |before|;
    After(if feed in peer.cursors then peer.cursors[feed] else Cursor(0, None), worlds(feed),
          maxPages - PagesOf(before))
  }

  // The k-th result is where the pull of the k-th feed ended, with pages left for it, and it did not fail.
  ghost predicate ResultAt(
    maxPages: int, peer: Peer, worlds: nat -> (nat, Cursor) -> Exchange, results: seq<Result>, k: nat)
    requires k < |results|
  {
    maxPages > PagesOf(results[..k]) && var p := PullOf(maxPages, peer, worlds, results[..k]);
      p.status != Threw && p.result == results[k]
  }

  ghost predicate AllPulled(
    maxPages: int, peer: Peer, worlds: nat -> (nat, Cursor) -> Exchange, results: seq<Result>)
  {
    forall k :: 0 <= k < |results| ==> ResultAt(maxPages, peer, worlds, results, k)
  }

  // Why a session of n feeds pulled no more than these: all are, or no pages are left, or the next feed failed.
  ghost predicate StopsAfter(
    maxPages: int, peer: Peer, worlds: nat -> (nat, Cursor) -> Exchange, n: nat, results: seq<Result>, status: Status)
  {
    && |results| <= n
    && if |results| == n then status == Running
       else if maxPages <= PagesOf(results) then status == Stopped
       else status == Threw && PullOf(maxPages, peer, worlds, results).status == Threw
  }

  ghost predicate Stands(
    maxPages: int, peer: Peer, worlds: nat -> (nat, Cursor) -> Exchange, n: nat, s: Exchanged) {
    && s.budget == maxPages - PagesOf(s.results) && s.pages == PagesOf(s.results)
    && s.frames == FramesOf(s.results) && s.counts == CountsOf(s.results)
    && AllPulled(maxPages, peer, worlds, s.results)
    && StopsAfter(maxPages, peer, worlds, n, s.results, s.status)
  }

  lemma ResultsStand(
    maxPages: int, peer: Peer, worlds: nat -> (nat, Cursor) -> Exchange, results: seq<Result>, r: Result)
    requires AllPulled(maxPages, peer, worlds, results)
    requires maxPages > PagesOf(results) && PullOf(maxPages, peer, worlds, results).status != Threw
    requires r == PullOf(maxPages, peer, worlds, results).result
    ensures AllPulled(maxPages, peer, worlds, results + [r])
  {
    var more := results + [r];
    forall k | 0 <= k < |more| ensures ResultAt(maxPages, peer, worlds, more, k) {
      if k < |results| {
        assert ResultAt(maxPages, peer, worlds, results, k) && more[..k] == results[..k];
      } else {
        assert more[..k] == results;
      }
    }
  }

  // The next feed's pull is the one that follows these results.
  lemma NextPull(maxPages: int, peer: Peer, worlds: nat -> (nat, Cursor) -> Exchange, n: nat, before: Exchanged)
    returns (pull: Pull)
    requires Stands(maxPages, peer, worlds, n, before) && before.status == Running && before.budget > 0
    ensures |before.results| == n && maxPages > PagesOf(before.results)
    ensures pull == PullOf(maxPages, peer, worlds, before.results)
    ensures pull == FeedPull(peer, n, worlds(n), before.budget)
  {
    pull := PullOf(maxPages, peer, worlds, before.results);
  }

  lemma OneMoreStands(
    maxPages: int, peer: Peer, worlds: nat -> (nat, Cursor) -> Exchange, n: nat, before: Exchanged, pull: Pull,
    s: Exchanged)
    requires Stands(maxPages, peer, worlds, n, before) && before.status == Running && before.budget > 0
    requires |before.results| == n && maxPages > PagesOf(before.results)
    requires pull == PullOf(maxPages, peer, worlds, before.results) && pull.status != Threw && s == Fed(before, pull)
    ensures Stands(maxPages, peer, worlds, n + 1, s)
  {
    OneResultMore(before.results, pull.result);
    ResultsStand(maxPages, peer, worlds, before.results, pull.result);
  }

  lemma FedStands(
    maxPages: int, peer: Peer, worlds: nat -> (nat, Cursor) -> Exchange, n: nat, before: Exchanged, s: Exchanged)
    requires Stands(maxPages, peer, worlds, n, before)
    requires s == Fed(before, FeedPull(peer, n, worlds(n), before.budget))
    ensures Stands(maxPages, peer, worlds, n + 1, s)
  {
    if before.status == Running && before.budget > 0 {
      var pull := NextPull(maxPages, peer, worlds, n, before);
      if pull.status != Threw { OneMoreStands(maxPages, peer, worlds, n, before, pull, s); }
    }
  }

  // A session by a name that proofs by induction over it keep folded.
  function Pulling(maxPages: int, peer: Peer, worlds: nat -> (nat, Cursor) -> Exchange, n: nat): Exchanged {
    FedUpTo(maxPages, peer, worlds, n)
  }

  lemma SessionNext(
    maxPages: int, peer: Peer, worlds: nat -> (nat, Cursor) -> Exchange, n: nat, before: Exchanged, s: Exchanged)
    requires n > 0 && before == Pulling(maxPages, peer, worlds, n - 1) && s == Pulling(maxPages, peer, worlds, n)
    ensures s == Fed(before, FeedPull(peer, n - 1, worlds(n - 1), before.budget))
  {
  }

  lemma SessionOpens(maxPages: int, peer: Peer, worlds: nat -> (nat, Cursor) -> Exchange, s: Exchanged)
    requires s == Pulling(maxPages, peer, worlds, 0)
    ensures Stands(maxPages, peer, worlds, 0, s)
  {
  }

  lemma {:induction false} SessionStands(
    maxPages: int, peer: Peer, worlds: nat -> (nat, Cursor) -> Exchange, n: nat, s: Exchanged)
    requires s == Pulling(maxPages, peer, worlds, n)
    ensures Stands(maxPages, peer, worlds, n, s)
    decreases n
  {
    if n == 0 {
      SessionOpens(maxPages, peer, worlds, s);
    } else {
      var before := Pulling(maxPages, peer, worlds, n - 1);
      SessionStands(maxPages, peer, worlds, n - 1, before);
      SessionNext(maxPages, peer, worlds, n, before, s);
      FedStands(maxPages, peer, worlds, n - 1, before, s);
    }
  }

  datatype Report = Report(ok: bool, pages: nat, frames: nat, counts: Counts, cursors: seq<Cursor>, complete: bool)

  function Cursors(results: seq<Result>): seq<Cursor> {
    seq(|results|, k requires 0 <= k < |results| => results[k].cursor)
  }

  lemma OneCursorMore(results: seq<Result>, r: Result)
    ensures Cursors(results + [r]) == Cursors(results) + [r.cursor]
  {
  }

  // What a session reports: its counts either way, and "complete" only when it did not fail.
  function Reported(s: Exchanged): Report {
    Report(s.status != Threw, s.pages, s.frames, s.counts, Cursors(s.results), s.status != Threw && s.complete)
  }

  // The whole report of a session over its n feeds: the results are those of the feeds' own pulls, in turn, each
  // within the pages the ones before left; pages, frames and counts are their sums and the cursors are theirs. It is
  // ok exactly when no pull failed: the feeds are done, or the pages are. It says complete exactly when every feed
  // was pulled, and each was complete.
  lemma SessionReports(maxPages: int, peer: Peer, worlds: nat -> (nat, Cursor) -> Exchange, n: nat, s: Exchanged)
    requires s == FedUpTo(maxPages, peer, worlds, n)
    ensures var r, results := Reported(s), s.results;
      && (forall k :: 0 <= k < |results| ==> ResultAt(maxPages, peer, worlds, results, k))
      && r.pages == PagesOf(results) && r.frames == FramesOf(results) && r.counts == CountsOf(results)
      && |r.cursors| == |results| <= n && (forall k :: 0 <= k < |results| ==> r.cursors[k] == results[k].cursor)
      && (r.ok <==> |results| == n || maxPages <= PagesOf(results))
      && (!r.ok ==> PullOf(maxPages, peer, worlds, results).status == Threw)
      && (r.complete <==> |results| == n && forall k :: 0 <= k < n ==> results[k].complete)
  {
    SessionStands(maxPages, peer, worlds, n, s);
    CompleteIff(maxPages, peer, worlds, n);
  }

  // What a session under way has put together so far.
  function SoFar(s: Exchanged): Report {
    Report(false, s.pages, s.frames, s.counts, Cursors(s.results), false)
  }

  // What one feed's result adds to a session that runs on.
  predicate PulledInto(before: Exchanged, p: Result, s: Exchanged) {
    var r := SoFar(before);
    && s.status == Running && s.budget == before.budget - p.pages && s.complete == (before.complete && p.complete)
    && SoFar(s) == Report(false, r.pages + p.pages, r.frames + p.frames, r.counts.Plus(p.counts),
                          r.cursors + [p.cursor], false)
  }

  lemma PulledSoFar(before: Exchanged, pull: Pull, s: Exchanged)
    requires before.status == Running && before.budget > 0 && pull.status != Threw && s == Fed(before, pull)
    ensures PulledInto(before, pull.result, s)
  {
    OneCursorMore(before.results, pull.result);
  }

  // The variables of the loop over the feeds say where the session stands.
  predicate Telling(s: Exchanged, budget: int, complete: bool, r: Report) {
    s.status == Running && s.budget == budget && s.complete == complete && r == SoFar(s)
  }

  lemma PulledTold(before: Exchanged, p: Result, s: Exchanged, budget: int, complete: bool, r: Report)
    requires Telling(before, budget, complete, r) && PulledInto(before, p, s)
    ensures Telling(s, budget - p.pages, complete && p.complete,
                    Report(false, r.pages + p.pages, r.frames + p.frames, r.counts.Plus(p.counts),
                           r.cursors + [p.cursor], false))
  {
  }

  // One feed more, and where a session without pages left stops.
  lemma FedNext(
    maxPages: int, peer: Peer, worlds: nat -> (nat, Cursor) -> Exchange, feed: nat, before: Exchanged, s: Exchanged)
    requires before == FedUpTo(maxPages, peer, worlds, feed) && s == FedUpTo(maxPages, peer, worlds, feed + 1)
    ensures s == Fed(before, FeedPull(peer, feed, worlds(feed), before.budget))
    ensures before.status == Running && before.budget <= 0 ==>
              s.status == Stopped && !s.complete && SoFar(s) == SoFar(before)
  {
  }

  const UNREACHED := Report(false, 0, 0, Counts(0, 0, 0), [], false)

  // ---- the methods ---------------------------------------------------------------------------------------

  // `connects` says whether the circuit came up and the peer greeted.
  method Converse(peer: Peer, connects: bool, worlds: nat -> (nat, Cursor) -> Exchange, maxPages: int := PAGES_DEFAULT)
    returns (r: Report)
    ensures r == if connects then Reported(FedUpTo(maxPages, peer, worlds, 6)) else UNREACHED
  {
    r := UNREACHED;
    if !connects { return; }
    var budget, complete := maxPages, true;
    ghost var s := Opened(maxPages);
    for feed := 0 to FEEDS
      invariant s == FedUpTo(maxPages, peer, worlds, feed)
      invariant Telling(s, budget, complete, r)
    {
      ghost var before := s;
      s := FedUpTo(maxPages, peer, worlds, feed + 1);
      FedNext(maxPages, peer, worlds, feed, before, s);
      if budget <= 0 {
        complete := false;
        OverStays(maxPages, peer, worlds, feed + 1, FEEDS);
        break;
      }
      var pulled := PullFeed(peer, feed, worlds(feed), budget, before, s);
      if pulled.None? {
        OverStays(maxPages, peer, worlds, feed + 1, FEEDS);
        return;
      }
      var p := pulled.value;
      PulledTold(before, p, s, budget, complete, r);
      budget := budget - p.pages;
      r := r.(pages := r.pages + p.pages, frames := r.frames + p.frames, counts := r.counts.Plus(p.counts),
              cursors := r.cursors + [p.cursor]);
      if !p.complete { complete := false; }
    }
    r := r.(ok := true, complete := complete);
  }

  // One feed within the pages left; none when its pull failed, and with it the session.
  method PullFeed(
    peer: Peer, feed: nat, world: (nat, Cursor) -> Exchange, budget: int, ghost before: Exchanged, ghost s: Exchanged)
    returns (pulled: Option<Result>)
    requires before.status == Running && before.budget == budget > 0
    requires s == Fed(before, FeedPull(peer, feed, world, budget))
    ensures pulled.None? ==> s.status == Threw && SoFar(s) == SoFar(before)
    ensures pulled.Some? ==> PulledInto(before, pulled.value, s)
  {
    var asked;
    pulled, asked := PullFedSync(Resume(peer, feed), world, budget);
    ghost var pull := FeedPull(peer, feed, world, budget);
    if pulled.Some? { PulledSoFar(before, pull, s); }
  }

  lemma {:induction false} OverStays(
    maxPages: int, peer: Peer, worlds: nat -> (nat, Cursor) -> Exchange, m: nat, n: nat)
    requires m <= n && FedUpTo(maxPages, peer, worlds, m).status != Running
    ensures FedUpTo(maxPages, peer, worlds, n) == FedUpTo(maxPages, peer, worlds, m)
    decreases n
  {
    if m < n { OverStays(maxPages, peer, worlds, m, n - 1); }
  }

  // The first endpoint this box can dial, or the length of the list.
  method FirstWay(endpoints: seq<Endpoint>, entryNode: bool) returns (k: nat)
    ensures k <= |endpoints| && (k < |endpoints| ==> endpoints[k].Ax25? || entryNode)
    ensures (forall j :: 0 <= j < k ==> endpoints[j].Netrom?) && (k > 0 ==> !entryNode)
  {
    k := 0;
    while k < |endpoints| && !CanDial(endpoints[k], entryNode)
      invariant k <= |endpoints| && (forall j :: 0 <= j < k ==> endpoints[j].Netrom?) && (k > 0 ==> !entryNode)
    {
      k := k + 1;
    }
  }

  class FedLinkPuller {
    var busy: bool
    var round: nat
    var backoff: map<int, Wait>
    // The peer of the session under way, when busy, and what was known of it when it was dialled.
    var dialled: int
    var known: Option<Wait>
    ghost var log: seq<Session>

    ghost function Now(): Schedule
      reads this
    {
      Schedule(round, backoff, if busy then Some(dialled) else None, log)
    }

    ghost predicate Valid()
      reads this
    {
      busy ==> known == if dialled in backoff then Some(backoff[dialled]) else None
    }

    constructor ()
      ensures Valid() && Now() == IDLE
    {
      busy, round, backoff, dialled, known, log := false, 0, map[], 0, None, [];
    }

    // A round up to its session: the peer to dial and the endpoint to dial it at, or none.
    method Begin(canTransmit: bool, entryNode: bool, peers: Option<seq<Peer>>) returns (dial: Option<(Peer, Endpoint)>)
      requires Valid()
      modifies this
      ensures Valid() && Now() == Step(old(Now()), Call(canTransmit, entryNode, peers))
      ensures dial.Some? <==> !old(busy) && busy
      ensures dial.Some? ==>
        Chosen(Now().(current := None), peers.value, entryNode) == Some(dial.value.0)
            && FirstToDial(dial.value.0, dial.value.1, entryNode)
    {
      if busy { return None; }
      round := round + 1;
      if !canTransmit || peers.None? { return None; }
      var list := peers.value;
      assert list[0..] == list;
      for i := 0 to |list|
        invariant !busy && Now() == old(Now()).(round := old(round) + 1)
        invariant Chosen(Now(), list, entryNode) == Chosen(Now(), list[i..], entryNode)
      {
        var peer := list[i];
        assert list[i..][1..] == list[i + 1..];
        var b := if peer.instance in backoff then Some(backoff[peer.instance]) else None;
        if b.Some? && round < b.value.until { continue; }
        var k := FirstWay(peer.endpoints, entryNode);
        if k == |peer.endpoints| { continue; }
        assert FirstToDial(peer, peer.endpoints[k], entryNode) && CanDial(peer.endpoints[k], entryNode);
        busy, dialled, known := true, peer.instance, b;
        return Some((peer, peer.endpoints[k]));
      }
      return None;
    }

    // The session under way ends.
    method End(ok: bool)
      requires Valid() && busy
      modifies this
      ensures Valid() && Now() == Ended(old(Now()), ok)
    {
      if ok {
        backoff := backoff - {dialled};
      } else {
        var fails := (if known.Some? then known.value.fails else 0) + 1;
        backoff := backoff[dialled := Wait(fails, round + 1 + Skips(fails))];
      }
      log := log + [Session(round, dialled, ok)];
      busy := false;
    }
  }
}
