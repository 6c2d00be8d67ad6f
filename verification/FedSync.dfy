// Pulling one federation feed over a packet circuit (apps/ingest/src/fedsynclink.ts), against any peer and
// against the page the repository's own gateway serves (workers/gateway/src/fedsync.ts).
//
// Both ends of every exchange are the environment's: what page came back, if any, and whether our gateway
// took it.

module FedSync {
  import opened Common

  // A record of a feed: its cursor value, the local id that breaks ties in a composite feed, its content.
  datatype Record = Record(at: int, id: nat, content: int)

  datatype Cursor = Cursor(since: int, sinceId: Option<int>)

  datatype Page = Page(next: int, nextId: Option<int>, complete: bool, frames: seq<Record>)

  datatype Counts = Counts(applied: nat, quarantined: nat, rejected: nat) {
    function Plus(c: Counts): Counts { Counts(applied + c.applied, quarantined + c.quarantined, rejected + c.rejected) }
  }

  // One request: no page (a timeout, an error, a malformed page), or a page and our gateway's answer to it.
  datatype Exchange = NoPage | Got(page: Page, taken: bool, counts: Counts) {
    predicate Fails() { NoPage? || (page.frames != [] && !taken) }
  }

  datatype Result = Result(pages: nat, frames: nat, counts: Counts, cursor: Cursor, complete: bool)

  datatype Status = Running | Stopped | Threw

  // A pull under way: its result so far, the requests made, the frames our gateway took, and the position
  // the last page ended at.
  datatype Pull = Pull(result: Result, status: Status, asked: nat, posted: seq<Record>, reached: Cursor)

  function Started(first: Cursor): Pull {
    Pull(Result(0, 0, Counts(0, 0, 0), first, false), Running, 0, [], first)
  }

  function Next(p: Page): Cursor { Cursor(p.next, if p.complete then None else p.nextId) }

  // The page's own position, with its tie-breaker.
  function End(p: Page): Cursor { Cursor(p.next, p.nextId) }

  function Advanced(cursor: Cursor, p: Page): Cursor { if p.next >= cursor.since then Next(p) else cursor }

  // One turn of the loop.
  function Turn(s: Pull, x: Exchange): Pull {
    if s.status != Running then s
    else if x.NoPage? then s.(asked := s.asked + 1, status := Threw)
    else
      var r := s.result.(pages := s.result.pages + 1, frames := s.result.frames + |x.page.frames|);
      if x.Fails() then s.(asked := s.asked + 1, result := r, status := Threw)
      else
        var moved := Next(x.page) != s.result.cursor;
        var r1 := r.(counts := if x.page.frames == [] then r.counts else r.counts.Plus(x.counts),
                     cursor := Advanced(s.result.cursor, x.page), complete := x.page.complete);
        Pull(r1, if x.page.complete || !moved then Stopped else Running, s.asked + 1,
             s.posted + x.page.frames, if x.page.next >= s.result.cursor.since then End(x.page) else s.reached)
  }

  // The pull after n turns of the loop; `world` answers the i-th request, made at a cursor.
  function After(first: Cursor, world: (nat, Cursor) -> Exchange, n: nat): Pull {
    if n == 0 then Started(first)
    else var s := After(first, world, n - 1); Turn(s, world(n - 1, s.result.cursor))
  }

  // ---- for any peer ---------------------------------------------------------------------------------

  // A pull asks at most once a turn, counts the frames of the pages it read, and its cursor's time never
  // goes back.
  lemma {:induction false} PullIsBounded(first: Cursor, world: (nat, Cursor) -> Exchange, n: nat)
    ensures var s := After(first, world, n);
      && s.result.pages <= s.asked <= n
          && (s.status != Threw ==> s.result.pages == s.asked && s.result.frames == |s.posted|)
      && (s.status == Running ==> s.asked == n && !s.result.complete)
      && s.result.cursor.since >= first.since
    decreases n
  {
    if n > 0 { PullIsBounded(first, world, n - 1); }
  }

  // Once stopped or failed, no further turn changes anything.
  lemma {:induction false} StoppedStays(first: Cursor, world: (nat, Cursor) -> Exchange, m: nat, n: nat, s: Pull)
    requires m <= n && s == After(first, world, m) && s.status != Running
    ensures After(first, world, n) == s
    decreases n
  {
    if m < n { StoppedStays(first, world, m, n - 1, s); }
  }

  // The frames our gateway took in the first n turns, and what it said of them.
  ghost function TakenFrames(first: Cursor, world: (nat, Cursor) -> Exchange, n: nat): seq<Record> {
    if n == 0 then []
    else
      var s := After(first, world, n - 1);
      var x := world(n - 1, s.result.cursor);
      TakenFrames(first, world, n - 1) + if s.status == Running && x.Got? && x.taken then x.page.frames else []
  }

  ghost function TakenCounts(first: Cursor, world: (nat, Cursor) -> Exchange, n: nat): Counts {
    if n == 0 then Counts(0, 0, 0)
    else
      var s := After(first, world, n - 1);
      var x, before := world(n - 1, s.result.cursor), TakenCounts(first, world, n - 1);
      if s.status == Running && x.Got? && x.taken && x.page.frames != []
        then Counts(before.applied + x.counts.applied, before.quarantined + x.counts.quarantined,
                    before.rejected + x.counts.rejected)
      else before
  }

  // What counts as posted is what our gateway took, frame for frame, with its counts added up.
  lemma {:induction false} PostedIsTaken(first: Cursor, world: (nat, Cursor) -> Exchange, n: nat)
    ensures After(first, world, n).posted == TakenFrames(first, world, n)
    ensures After(first, world, n).result.counts == TakenCounts(first, world, n)
    decreases n
  {
    if n > 0 { PostedIsTaken(first, world, n - 1); }
  }

  // A pull throws exactly when a page does not come or our gateway does not take its frames.
  lemma {:induction false} ThrowsIff(first: Cursor, world: (nat, Cursor) -> Exchange, n: nat)
    ensures After(first, world, n).status == Threw <==> exists i :: 0 <= i < n && FailsAt(first, world, i)
    decreases n
  {
    if n > 0 {
      ThrowsIff(first, world, n - 1);
      var s := After(first, world, n - 1);
      if s.status == Threw {
        var i :| 0 <= i < n - 1 && FailsAt(first, world, i);
      } else if FailsAt(first, world, n - 1) {
      } else {
        forall i | 0 <= i < n ensures !FailsAt(first, world, i) {
          if i < n - 1 { assert !FailsAt(first, world, i); }
        }
      }
    }
  }

  ghost predicate FailsAt(first: Cursor, world: (nat, Cursor) -> Exchange, i: nat) {
    var s := After(first, world, i);
    var x := world(i, s.result.cursor);
    s.status == Running && (x.NoPage? || (x.page.frames != [] && !x.taken))
  }

  // ---- positions in a feed ----------------------------------------------------------------------------

  function Tie(c: Cursor): int { if c.sinceId.Some? then c.sinceId.value else -1 }

  // Whether a record lies past a position: a composite feed breaks ties by id, from -1 when none is given.
  predicate Past(composite: bool, c: Cursor, r: Record) {
    if composite then r.at > c.since || (r.at == c.since && r.id > Tie(c))
    else r.at > c.since
  }

  // The feed in its order, which never repeats a position.
  predicate Sorted(composite: bool, recs: seq<Record>) {
    forall i, j :: 0 <= i < j < |recs| ==>
      recs[i].at < recs[j].at || (composite && recs[i].at == recs[j].at && recs[i].id < recs[j].id)
  }

  // How many records lie at or before a position.
  function Skip(composite: bool, recs: seq<Record>, c: Cursor): (k: nat)
    ensures k <= |recs|
  {
    if recs == [] then 0
    else if Past(composite, c, recs[|recs| - 1]) then Skip(composite, recs[..|recs| - 1], c)
    else |recs|
  }

  // They are the first ones: a position cuts the feed in two.
  lemma {:induction false} SkipCuts(composite: bool, recs: seq<Record>, c: Cursor)
    requires Sorted(composite, recs)
    ensures forall i :: 0 <= i < |recs| ==> (Past(composite, c, recs[i]) <==> i >= Skip(composite, recs, c))
  {
    if recs != [] && Past(composite, c, recs[|recs| - 1]) { SkipCuts(composite, recs[..|recs| - 1], c); }
  }

  lemma SkipIs(composite: bool, recs: seq<Record>, c: Cursor, k: nat)
    requires Sorted(composite, recs) && k <= |recs|
    requires k > 0 ==> !Past(composite, c, recs[k - 1])
    requires k < |recs| ==> Past(composite, c, recs[k])
    ensures Skip(composite, recs, c) == k
  {
    SkipCuts(composite, recs, c);
  }

  // Position d is no earlier than c.
  predicate Forward(composite: bool, c: Cursor, d: Cursor) {
    d.since > c.since || (d.since == c.since && (composite ==> Tie(c) <= Tie(d)))
  }

  lemma ForwardSkips(composite: bool, recs: seq<Record>, c: Cursor, d: Cursor)
    requires Sorted(composite, recs) && Forward(composite, c, d)
    ensures Skip(composite, recs, c) <= Skip(composite, recs, d)
  {
    SkipCuts(composite, recs, c);
    SkipCuts(composite, recs, d);
    var k := Skip(composite, recs, d);
    if k < |recs| { assert Past(composite, d, recs[k]) && Past(composite, c, recs[k]); }
  }

  // The page holds every record between the position asked for and the page's own.
  predicate Holds(composite: bool, recs: seq<Record>, c: Cursor, p: Page) {
    var a, b := Skip(composite, recs, c), Skip(composite, recs, End(p));
    p.frames == if a <= b then recs[a..b] else []
  }

  // A peer that serves the feed: any page it gives holds its records.
  predicate HonestAt(composite: bool, recs: seq<Record>, world: (nat, Cursor) -> Exchange, i: nat, c: Cursor) {
    world(i, c).Got? ==> Holds(composite, recs, c, world(i, c).page)
  }

  ghost predicate Honest(composite: bool, recs: seq<Record>, world: (nat, Cursor) -> Exchange) {
    forall i, c :: HonestAt(composite, recs, world, i, c)
  }

  // Nothing is skipped, whatever positions the pages end at: a record past the first cursor was posted and
  // taken, or lies past the cursor reported.
  lemma {:induction false} NothingSkipped(
    composite: bool, recs: seq<Record>, first: Cursor, world: (nat, Cursor) -> Exchange, n: nat, k: nat)
    requires Sorted(composite, recs) && Honest(composite, recs, world) && k < |recs| && Past(composite, first, recs[k])
    ensures var s := After(first, world, n); recs[k] in s.posted || Past(composite, s.result.cursor, recs[k])
    decreases n
  {
    if n > 0 {
      NothingSkipped(composite, recs, first, world, n - 1, k);
      var s := After(first, world, n - 1);
      var x := world(n - 1, s.result.cursor);
      assert HonestAt(composite, recs, world, n - 1, s.result.cursor);
      if s.status == Running && !x.Fails() && Past(composite, s.result.cursor, recs[k]) {
        PageCovers(composite, recs, s.result.cursor, x.page, k);
      }
    }
  }

  lemma PageCovers(composite: bool, recs: seq<Record>, c: Cursor, p: Page, k: nat)
    requires Sorted(composite, recs) && Holds(composite, recs, c, p) && k < |recs| && Past(composite, c, recs[k])
    ensures recs[k] in p.frames || Past(composite, Advanced(c, p), recs[k])
  {
    SkipCuts(composite, recs, c);
    SkipCuts(composite, recs, End(p));
    var a, b := Skip(composite, recs, c), Skip(composite, recs, End(p));
    if k < b { assert recs[a..b][k - a] == recs[k]; }
  }

  // A peer whose pages never end before the position asked for.
  predicate MonotoneAt(composite: bool, world: (nat, Cursor) -> Exchange, i: nat, c: Cursor) {
    world(i, c).Got? ==> Forward(composite, c, End(world(i, c).page))
  }

  ghost predicate Monotone(composite: bool, world: (nat, Cursor) -> Exchange) {
    forall i, c :: MonotoneAt(composite, world, i, c)
  }

  lemma Joined(recs: seq<Record>, a: nat, b: nat, c: nat)
    requires a <= b <= c <= |recs|
    ensures recs[a..b] + recs[b..c] == recs[a..c]
  {
  }

  // A turn that posts a page which does not go back.
  lemma TakenTurn(s: Pull, x: Exchange, t: Pull)
    requires s.status == Running && x.Got? && !x.Fails() && x.page.next >= s.result.cursor.since && t == Turn(s, x)
    ensures t.posted == s.posted + x.page.frames && t.reached == End(x.page)
    ensures t.result.cursor == Next(x.page) && t.result.complete == x.page.complete
    ensures t.status == if x.page.complete || Next(x.page) == s.result.cursor then Stopped else Running
  {
  }

  // What is posted is the feed from `from` to the position reached; the cursor is that position, less its
  // tie-breaker once the feed is complete.
  ghost predicate Stretch(composite: bool, recs: seq<Record>, from: nat, s: Pull) {
    var to := Skip(composite, recs, s.reached);
    && from <= to && s.posted == recs[from..to]
    && s.result.cursor == if s.result.complete then Cursor(s.reached.since, None) else s.reached
  }

  lemma StretchTurn(composite: bool, recs: seq<Record>, from: nat, s: Pull, x: Exchange, t: Pull)
    requires Sorted(composite, recs) && Stretch(composite, recs, from, s) && t == Turn(s, x)
    requires s.status == Running && !s.result.complete && x.Got? && !x.Fails()
    requires Holds(composite, recs, s.result.cursor, x.page) && Forward(composite, s.result.cursor, End(x.page))
    ensures Stretch(composite, recs, from, t)
  {
    TakenTurn(s, x, t);
    ForwardSkips(composite, recs, s.reached, t.reached);
    Joined(recs, from, Skip(composite, recs, s.reached), Skip(composite, recs, t.reached));
  }

  lemma {:induction false} StretchPosted(
    composite: bool, recs: seq<Record>, first: Cursor, world: (nat, Cursor) -> Exchange, n: nat, t: Pull)
    requires Sorted(composite, recs) && Honest(composite, recs, world) && Monotone(composite, world)
    requires t == After(first, world, n)
    ensures Stretch(composite, recs, Skip(composite, recs, first), t)
    decreases n
  {
    if n > 0 {
      var s := After(first, world, n - 1);
      var x := world(n - 1, s.result.cursor);
      StretchPosted(composite, recs, first, world, n - 1, s);
      PullIsBounded(first, world, n - 1);
      assert HonestAt(composite, recs, world, n - 1, s.result.cursor);
      assert MonotoneAt(composite, world, n - 1, s.result.cursor);
      if s.status == Running && !x.Fails() {
        StretchTurn(composite, recs, Skip(composite, recs, first), s, x, t);
      } else {
        FailedTurn(s, x, t);
      }
    } else {
      assert recs[Skip(composite, recs, first)..Skip(composite, recs, first)] == [];
    }
  }

  // A turn that fails, or comes after the end, posts nothing and moves nothing.
  lemma FailedTurn(s: Pull, x: Exchange, t: Pull)
    requires t == Turn(s, x) && (s.status != Running || x.Fails())
    ensures t.posted == s.posted && t.reached == s.reached
    ensures t.result.cursor == s.result.cursor && t.result.complete == s.result.complete
  {
  }

  // What is posted is exactly the feed from the first cursor to the position reached, each record once and
  // in order; the cursor reported is that position, less its tie-breaker once the feed is complete.
  lemma PostedIsTheStretch(
    composite: bool, recs: seq<Record>, first: Cursor, world: (nat, Cursor) -> Exchange, n: nat, s: Pull)
    requires Sorted(composite, recs) && Honest(composite, recs, world) && Monotone(composite, world)
    requires s == After(first, world, n)
    ensures var a, b := Skip(composite, recs, first), Skip(composite, recs, s.reached);
      && a <= b && s.posted == recs[a..b]
      && s.result.cursor == if s.result.complete then Cursor(s.reached.since, None) else s.reached
  {
    StretchPosted(composite, recs, first, world, n, s);
  }

  // The cursor goes back, in the order of the feed, exactly when a page ends there: `since` never does, the
  // tie-breaker may, as it does when a complete page drops it.
  lemma CursorGoesBackIff(composite: bool, c: Cursor, p: Page)
    ensures Advanced(c, p).since >= c.since
    ensures !Forward(composite, c, Advanced(c, p)) <==>
      composite && p.next == c.since && (if p.complete || p.nextId.None? then Tie(c) > -1 else p.nextId.value < Tie(c))
  {
  }

  // As here, over the gateway's own page: re-reading the second a complete feed ended at, the pull reports a
  // position before the one it asked from, and the record just taken lies past it again.
  lemma CursorGoesBack(content: int)
    ensures var recs, first := [Record(5, 3, content)], Cursor(5, Some(3));
      var world := (i: nat, c: Cursor) => Got(Served(true, recs, c, 25), true, Counts(0, 0, 0));
      var s := After(first, world, 1);
      && s.result.cursor == Cursor(5, None) && !Forward(true, first, s.result.cursor)
      && !Past(true, first, recs[0]) && Past(true, s.result.cursor, recs[0])
  {
    var recs, first := [Record(5, 3, content)], Cursor(5, Some(3));
    var world := (i: nat, c: Cursor) => Got(Served(true, recs, c, 25), true, Counts(0, 0, 0));
    SkipIs(true, recs, first, 1);
    assert recs[1..1] == [];
    assert Served(true, recs, first, 25) == Page(5, Some(3), true, []);
    assert After(first, world, 1) == Turn(After(first, world, 0), world(0, first));
  }

  // ---- the gateway's own pages ---------------------------------------------------------------------------

  // The page a gateway serves: the first `limit` records past the position, in order.
  function Served(composite: bool, recs: seq<Record>, c: Cursor, limit: nat): Page {
    var a := Skip(composite, recs, c);
    var b := if a + limit < |recs| then a + limit else |recs|;
    var rows := recs[a..b];
    Page(if rows == [] then c.since else rows[|rows| - 1].at,
         if !composite then None
         else Some(if rows != [] then rows[|rows| - 1].id else Tie(c)),
         |rows| < limit, rows)
  }

  // A page of the first `limit` records past a position: it holds them, ends just behind them, does not go
  // back, and says it is complete exactly when it has room to spare.
  predicate FirstPast(composite: bool, recs: seq<Record>, c: Cursor, limit: nat, p: Page) {
    var a := Skip(composite, recs, c);
    && a + |p.frames| <= |recs| && p.frames == recs[a..a + |p.frames|]
    && Skip(composite, recs, End(p)) == a + |p.frames|
    && p.next >= c.since
    && (if p.complete then a + |p.frames| == |recs| && |p.frames| < limit
        else |p.frames| == limit && Next(p) == End(p) != c)
  }

  lemma ServedHolds(composite: bool, recs: seq<Record>, c: Cursor, limit: nat)
    requires Sorted(composite, recs) && limit >= 1
    ensures FirstPast(composite, recs, c, limit, Served(composite, recs, c, limit))
    ensures Holds(composite, recs, c, Served(composite, recs, c, limit))
        && Forward(composite, c, End(Served(composite, recs, c, limit)))
  {
    var p, a := Served(composite, recs, c, limit), Skip(composite, recs, c);
    SkipCuts(composite, recs, c);
    var b := a + |p.frames|;
    SkipIs(composite, recs, End(p), b);
    if p.frames != [] { assert Past(composite, c, recs[b - 1]); }
  }

  // A peer that serves its gateway's pages: some page limit for every request, and no failure.
  ghost predicate ServesAt(
    composite: bool, recs: seq<Record>, limits: nat -> nat, world: (nat, Cursor) -> Exchange, i: nat, c: Cursor) {
    limits(i) >= 1 && world(i, c).Got? && world(i, c).taken && world(i, c).page == Served(composite, recs, c, limits(i))
  }

  ghost predicate Serves(composite: bool, recs: seq<Record>, limits: nat -> nat, world: (nat, Cursor) -> Exchange) {
    forall i, c :: ServesAt(composite, recs, limits, world, i, c)
  }

  function Total(limits: nat -> nat, n: nat): nat { if n == 0 then 0 else Total(limits, n - 1) + limits(n - 1) }

  // What a pull has done once the page limits of its turns add up to `total`: the frames taken are the first
  // `total` records past the cursor, in order; it stops exactly when that is more than the feed holds, and
  // then has delivered all of it.
  ghost predicate Delivers(composite: bool, recs: seq<Record>, first: Cursor, s: Pull, total: nat) {
    var a := Skip(composite, recs, first);
    && s.status != Threw && (s.status == Stopped <==> s.result.complete) && (s.result.complete <==> a + total > |recs|)
    && Skip(composite, recs, s.reached) == a + |s.posted|
    && (if s.result.complete then s.posted == recs[a..] && s.result.cursor == Cursor(s.reached.since, None)
        else s.posted == recs[a..a + total] && s.result.cursor == s.reached)
  }

  lemma StretchGrows(recs: seq<Record>, a: nat, m: nat, posted: seq<Record>, frames: seq<Record>)
    requires a + m + |frames| <= |recs| && posted == recs[a..a + m] && frames == recs[a + m..a + m + |frames|]
    ensures posted + frames == recs[a..a + m + |frames|]
    ensures a + m + |frames| == |recs| ==> posted + frames == recs[a..]
  {
    Joined(recs, a, a + m, a + m + |frames|);
  }

  lemma DeliverTurn(
    composite: bool, recs: seq<Record>, first: Cursor, s: Pull, x: Exchange, limit: nat, total: nat, t: Pull)
    requires Delivers(composite, recs, first, s, total) && limit >= 1 && t == Turn(s, x)
    requires x.Got? && x.taken && FirstPast(composite, recs, s.result.cursor, limit, x.page)
    ensures Delivers(composite, recs, first, t, total + limit)
  {
    if s.status == Running {
      var a := Skip(composite, recs, first);
      TakenTurn(s, x, t);
      StretchGrows(recs, a, total, s.posted, x.page.frames);
    }
  }

  lemma DeliverNext(
    composite: bool, recs: seq<Record>, first: Cursor, limits: nat -> nat, world: (nat, Cursor) -> Exchange, n: nat,
    s: Pull, total: nat, t: Pull, more: nat)
    requires Sorted(composite, recs) && Serves(composite, recs, limits, world)
        && Delivers(composite, recs, first, s, total)
    requires t == Turn(s, world(n, s.result.cursor)) && more == total + limits(n)
    ensures Delivers(composite, recs, first, t, more)
  {
    var x := world(n, s.result.cursor);
    assert ServesAt(composite, recs, limits, world, n, s.result.cursor);
    ServedHolds(composite, recs, s.result.cursor, limits(n));
    DeliverTurn(composite, recs, first, s, x, limits(n), total, t);
  }

  lemma DeliverNothing(composite: bool, recs: seq<Record>, first: Cursor)
    ensures Delivers(composite, recs, first, Started(first), 0)
  {
    assert recs[Skip(composite, recs, first)..Skip(composite, recs, first)] == [];
  }

  lemma {:induction false} Delivering(
    composite: bool, recs: seq<Record>, first: Cursor, limits: nat -> nat, world: (nat, Cursor) -> Exchange, n: nat,
    t: Pull, total: nat)
    requires Sorted(composite, recs) && Serves(composite, recs, limits, world)
    requires t == After(first, world, n) && total == Total(limits, n)
    ensures Delivers(composite, recs, first, t, total)
    decreases n
  {
    if n == 0 {
      DeliverNothing(composite, recs, first);
    } else {
      var s, before := After(first, world, n - 1), Total(limits, n - 1);
      Delivering(composite, recs, first, limits, world, n - 1, s, before);
      DeliverNext(composite, recs, first, limits, world, n - 1, s, before, t, total);
    }
  }

  // End to end, for every feed, cursor and page limits, and any number of turns.
  lemma PullDeliversTheFeed(
    composite: bool, recs: seq<Record>, first: Cursor, limits: nat -> nat, world: (nat, Cursor) -> Exchange, n: nat)
    requires Sorted(composite, recs) && Serves(composite, recs, limits, world)
    ensures Delivers(composite, recs, first, After(first, world, n), Total(limits, n))
  {
    Delivering(composite, recs, first, limits, world, n, After(first, world, n), Total(limits, n));
  }

  // ---- the method -------------------------------------------------------------------------------------------

  const MAX_PAGES: int := 50

  // The result once one more page is read and, unless it is empty, posted.
  function Read(r: Result, x: Exchange): Result
    requires x.Got?
  {
    Result(r.pages + 1, r.frames + |x.page.frames|, if x.page.frames == [] then r.counts else r.counts.Plus(x.counts),
           Advanced(r.cursor, x.page), x.page.complete)
  }

  lemma TurnReads(s: Pull, x: Exchange, t: Pull)
    requires s.status.Running? && !s.result.complete && t == Turn(s, x)
    ensures t.asked == s.asked + 1
    ensures if x.NoPage? || (x.page.frames != [] && !x.taken) then t.status.Threw?
            else t.result == Read(s.result, x)
                 && (t.status == Running <==>
                       !x.page.complete && (x.page.next != s.result.cursor.since
                                            || x.page.nextId != s.result.cursor.sinceId))
                 && (t.status == Stopped || t.status == Running)
  {
  }

  // None when the pull throws.
  method PullFedSync(first: Cursor, world: (nat, Cursor) -> Exchange, maxPages: int := MAX_PAGES)
    returns (r: Option<Result>, asked: nat)
    ensures var s := After(first, world, if maxPages < 0 then 0 else maxPages);
      asked == s.asked && r == if s.status.Threw? then None else Some(s.result)
  {
    var n: nat := if maxPages < 0 then 0 else maxPages;
    var cursor, out := first, Started(first).result;
    ghost var s := Started(first);
    asked := 0;
    for i := 0 to n
      invariant s == After(first, world, i) && s.status.Running?
      invariant s.result == out && out.cursor == cursor && !out.complete && asked == s.asked
    {
      var x := world(i, cursor);
      ghost var before := out;
      ghost var t := After(first, world, i + 1);
      TurnReads(s, x, t);
      if t.status != Running { StoppedStays(first, world, i + 1, n, t); }
      s := t;
      asked := asked + 1;
      if x.NoPage? { return None, asked; }
      var page := x.page;
      out := out.(pages := out.pages + 1, frames := out.frames + |page.frames|);
      if |page.frames| > 0 {
        if !x.taken { return None, asked; }
        out := out.(counts := out.counts.Plus(x.counts));
      }
      var next := Next(page);
      var moved := next.since != cursor.since || next.sinceId != cursor.sinceId;
      cursor := if page.next >= cursor.since then next else cursor;
      out := out.(cursor := cursor);
      if page.complete {
        out := out.(complete := true);
        assert out == Read(before, x);
        break;
      }
      assert out == Read(before, x);
      if !moved { break; }
    }
    r := Some(out);
  }
}
