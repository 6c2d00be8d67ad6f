// The offline log queue as the service worker flushes it (apps/web/public/sw.js).
//
// The worker sends the stored logs one at a time while the app may queue more, then re-reads the stored
// queue and writes back what is kept and what was added. Requests of one flush are answered by the
// environment, `world`, log by log; the clock is read once, at the start of a flush.

module LogQueues {
  import opened Common

  const RETRY_FIRST: int := 30000
  const RETRY_MAX: int := 1800000

  // A log as the app queued it; `instance` is None when it names none.
  datatype Log = Log(queuedAt: int, cacheId: int, content: int, instance: Option<int>)

  // A queued log. The arrival number stands for the log's identity: the code never reads it.
  datatype Item = Item(no: nat, log: Log, attempts: Option<nat>, nextAt: Option<int>)

  datatype Refusal = Refusal(no: nat, log: Log, reason: Option<string>, status: int, refusedAt: int)

  datatype Reply = NoNetwork | Response(status: int, error: Option<string>) {
    predicate Ok() { Response? && 200 <= status < 300 }
    predicate Busy() { Response? && (status >= 500 || status == 408 || status == 429) }
    predicate Refuses() { Response? && !Ok() && !Busy() }
  }

  datatype Post = Post(item: Item, at: int, instance: Option<int>, reply: Reply)

  // What is stored, and the history: every log queued, what was accepted, what a flush lost, every request.
  datatype Store = Store(
    queue: seq<Item>, attention: seq<Refusal>,
    arrived: seq<Log>, accepted: seq<Item>, lost: seq<Item>, posts: seq<Post>)

  const EMPTY := Store([], [], [], [], [], [])

  // ---- retries ------------------------------------------------------------------------------------

  function BackoffMs(attempts: nat): int {
    var d := RETRY_FIRST * PowerOfTwo(if attempts == 0 then 0 else attempts - 1);
    if d < RETRY_MAX then d else RETRY_MAX
  }

  // A retry waits between 30 seconds and 30 minutes, twice as long each time up to the sixth and the
  // maximum from the seventh on.
  lemma BackoffIs(attempts: nat)
    ensures BackoffMs(1) == 30000 <= BackoffMs(attempts) <= 1800000
    ensures BackoffMs(attempts) == 1800000 <==> attempts >= 7
    ensures 1 <= attempts < 6 ==> BackoffMs(attempts + 1) == 2 * BackoffMs(attempts)
  {
    assert PowerOfTwo(4) == 16 by { assert PowerOfTwo(2) == 4; }
    assert PowerOfTwo(6) == 64;
    if attempts >= 7 {
      PowerGrows(6, attempts - 1);
    } else {
      var n: nat := if attempts == 0 then 0 else attempts - 1;
      PowerGrows(n, 5);
      assert PowerOfTwo(5) == 32;
      if attempts >= 1 { PowerGrows(attempts, 6); }
    }
  }

  // ---- one flush ------------------------------------------------------------------------------------

  predicate Elsewhere(x: Item, instance: Option<int>) {
    instance.Some? && x.log.instance.Some? && x.log.instance != instance
  }

  predicate Early(x: Item, now: int) { x.nextAt.Some? && x.nextAt.value > now }

  predicate Due(x: Item, instance: Option<int>, now: int) { !Elsewhere(x, instance) && !Early(x, now) }

  function Retried(x: Item, now: int): Item {
    var attempts := Attempts(x) + 1;
    x.(attempts := Some(attempts), nextAt := Some(now + BackoffMs(attempts)))
  }

  function Refused(x: Item, reply: Reply, now: int): Refusal
    requires reply.Response?
  {
    Refusal(x.no, x.log, reply.error, reply.status, now)
  }

  function Without(queue: seq<Item>, at: nat): seq<Item>
    requires at < |queue|
  {
    queue[..at] + queue[at + 1..]
  }

  // The item at a position is sent, and answered.
  function Judged(s: Store, at: nat, instance: Option<int>, now: int, reply: Reply): Store
    requires at < |s.queue|
  {
    var x := s.queue[at];
    var s1 := s.(posts := s.posts + [Post(x, now, instance, reply)]);
    if reply.NoNetwork? then s1
    else if reply.Ok() then s1.(queue := Without(s.queue, at), accepted := s.accepted + [x])
    else if reply.Busy() then s1.(queue := s.queue[at := Retried(x, now)])
    else s1.(queue := Without(s.queue, at), attention := s.attention + [Refused(x, reply, now)])
  }

  datatype Swept = Swept(s: Store, offline: bool)

  // The rest of the queue from a position on.
  function Sweep(s: Store, at: nat, offline: bool, instance: Option<int>, now: int, world: Item -> Reply): Swept
    decreases |s.queue| - at
  {
    if at >= |s.queue| then Swept(s, offline)
    else
      var x := s.queue[at];
      if offline || !Due(x, instance, now) then Sweep(s, at + 1, offline, instance, now, world)
      else
        var s1 := Judged(s, at, instance, now, world(x));
        Sweep(s1, if |s1.queue| < |s.queue| then at else at + 1, world(x).NoNetwork?, instance, now, world)
  }

  function Numbered(from: nat, logs: seq<Log>): (r: seq<Item>)
    ensures |r| == |logs| && forall i :: 0 <= i < |r| ==> r[i] == Item(from + i, logs[i], None, None)
  {
    seq(|logs|, i requires 0 <= i < |logs| => Item(from + i, logs[i], None, None))
  }

  predicate SameKey(a: Log, b: Log) { a.queuedAt == b.queuedAt && a.cacheId == b.cacheId }

  predicate Known(queue: seq<Item>, log: Log) { exists i :: 0 <= i < |queue| && SameKey(queue[i].log, log) }

  // Those of `items` that are, or are not, known to `queue` by their key.
  function Matching(items: seq<Item>, queue: seq<Item>, known: bool): seq<Item> {
    if items == [] then []
    else Matching(items[..|items| - 1], queue, known)
         + if Known(queue, items[|items| - 1].log) == known then [items[|items| - 1]] else []
  }

  // The end of a flush: `started` is the queue it read, `logs` what the app queued while it was sending.
  function Merged(s: Store, started: seq<Item>, logs: seq<Log>): Store {
    var added := Numbered(|s.arrived|, logs);
    s.(queue := s.queue + Matching(added, started, false), lost := s.lost + Matching(added, started, true),
       arrived := s.arrived + logs)
  }

  function Flushed(s: Store, instance: Option<int>, now: int, world: Item -> Reply, logs: seq<Log>): Swept {
    var r := Sweep(s, 0, false, instance, now, world);
    r.(s := Merged(r.s, s.queue, logs))
  }

  // ---- whole runs -------------------------------------------------------------------------------------

  datatype Event =
    | Enqueue(log: Log)
    | Flush(linked: bool, instance: Option<int>, now: int, world: Item -> Reply, logs: seq<Log>)

  function Step(s: Store, e: Event): Store {
    match e
    case Enqueue(log) => s.(queue := s.queue + [Item(|s.arrived|, log, None, None)], arrived := s.arrived + [log])
    case Flush(linked, instance, now, world, logs) =>
      if !linked || s.queue == [] then s else Flushed(s, instance, now, world, logs).s
  }

  function Steps(s: Store, es: seq<Event>): Store
    decreases |es|
  {
    if es == [] then s else Step(Steps(s, es[..|es| - 1]), es[|es| - 1])
  }

  // ---- what an answer means, spelled out --------------------------------------------------------------

  ghost predicate ServerTook(reply: Reply) { reply.Response? && 200 <= reply.status <= 299 }

  ghost predicate ServerBusy(reply: Reply) {
    reply.Response? && (reply.status >= 500 || reply.status == 408 || reply.status == 429)
  }

  ghost predicate ServerRejects(reply: Reply) {
    reply.Response? && !ServerTook(reply) && !ServerBusy(reply)
  }

  // A log may go: it is for the instance now linked, and its retry is due.
  ghost predicate MayGo(x: Item, instance: Option<int>, now: int) {
    && (instance.None? || x.log.instance.None? || x.log.instance == instance)
    && (x.nextAt.None? || x.nextAt.value <= now)
  }

  // ---- the invariant --------------------------------------------------------------------------------

  function Nos(items: seq<Item>): seq<nat> { seq(|items|, i requires 0 <= i < |items| => items[i].no) }

  function RefusedNos(items: seq<Refusal>): seq<nat> { seq(|items|, i requires 0 <= i < |items| => items[i].no) }

  predicate Genuine(arrived: seq<Log>, no: nat, log: Log) { no < |arrived| && log == arrived[no] }

  predicate Increasing(items: seq<Item>) { forall i, j :: 0 <= i < j < |items| ==> items[i].no < items[j].no }

  predicate AllGenuine(arrived: seq<Log>, items: seq<Item>) {
    forall i :: 0 <= i < |items| ==> Genuine(arrived, items[i].no, items[i].log)
  }

  // The queue, in arrival order; every log in it, accepted, refused or lost is one the app queued.
  ghost predicate Ordered(s: Store) {
    && Increasing(s.queue)
    && AllGenuine(s.arrived, s.queue) && AllGenuine(s.arrived, s.accepted) && AllGenuine(s.arrived, s.lost)
    && (forall i :: 0 <= i < |s.attention| ==> Genuine(s.arrived, s.attention[i].no, s.attention[i].log))
  }

  // Each number is held once.
  ghost predicate Balanced(s: Store) {
    multiset(UpTo(|s.arrived|)) ==
      multiset(Nos(s.queue)) + multiset(Nos(s.accepted)) + multiset(RefusedNos(s.attention)) + multiset(Nos(s.lost))
  }

  // How often a log was answered "busy".
  ghost function BusyCount(posts: seq<Post>, no: nat): nat {
    if posts == [] then 0
    else
      var last := posts[|posts| - 1];
      BusyCount(posts[..|posts| - 1], no) + if last.item.no == no && ServerBusy(last.reply) then 1 else 0
  }

  // When a log may be tried again: the delay its last "busy" earned after it.
  ghost function NextTry(posts: seq<Post>, no: nat): Option<int> {
    if posts == [] then None
    else
      var last := posts[|posts| - 1];
      if last.item.no == no && ServerBusy(last.reply) then Some(last.at + BackoffMs(BusyCount(posts, no)))
      else NextTry(posts[..|posts| - 1], no)
  }

  // The delay the i-th request earned, when it was answered "busy".
  ghost function Delay(posts: seq<Post>, i: nat): int
    requires i < |posts|
  {
    BackoffMs(BusyCount(posts[..i + 1], posts[i].item.no))
  }

  // A request for a log still queued was answered by a failure or "busy", and a busy one holds it back.
  ghost predicate Waits(x: Item, posts: seq<Post>, i: nat)
    requires i < |posts|
  {
    posts[i].item.no == x.no ==>
      posts[i].reply.NoNetwork?
          || (ServerBusy(posts[i].reply) && x.nextAt.Some? && x.nextAt.value >= posts[i].at + Delay(posts, i))
  }

  // What an earlier request for the same log says about a later one.
  ghost predicate Follows(posts: seq<Post>, i: nat, j: nat)
    requires i < |posts| && j < |posts|
  {
    posts[i].item.no == posts[j].item.no ==>
      posts[i].reply.NoNetwork? || (ServerBusy(posts[i].reply) && posts[j].at >= posts[i].at + Delay(posts, i))
  }

  // What a queued log says of its "busy" answers is what the requests say.
  ghost predicate Counted(x: Item, posts: seq<Post>) {
    Attempts(x) == BusyCount(posts, x.no) && x.nextAt == NextTry(posts, x.no)
  }

  function Attempts(x: Item): nat { if x.attempts.Some? then x.attempts.value else 0 }

  ghost predicate Paced(s: Store) {
    && (forall x :: x in s.queue ==> Counted(x, s.posts))
    && (forall x, i {:trigger Waits(x, s.posts, i)} :: x in s.queue && 0 <= i < |s.posts| ==> Waits(x, s.posts, i))
    && (forall i, j {:trigger Follows(s.posts, i, j)} :: 0 <= i < j < |s.posts| ==> Follows(s.posts, i, j))
    && (forall p :: p in s.posts ==> p.item.no < |s.arrived| && MayGo(p.item, p.instance, p.at))
  }

  ghost predicate Inv(s: Store) { Ordered(s) && Balanced(s) && Paced(s) }

  lemma NosWithout(queue: seq<Item>, at: nat)
    requires at < |queue|
    ensures multiset(Nos(queue)) == multiset(Nos(Without(queue, at))) + multiset{queue[at].no}
  {
    var a, b, x := Nos(queue[..at]), Nos(queue[at + 1..]), queue[at].no;
    assert Nos(queue) == a + [x] + b;
    assert Nos(Without(queue, at)) == a + b;
  }

  lemma NosAppend(a: seq<Item>, b: seq<Item>)
    ensures Nos(a + b) == Nos(a) + Nos(b)
  {
  }

  lemma JudgedKeepsOrder(s: Store, at: nat, instance: Option<int>, now: int, reply: Reply)
    requires at < |s.queue| && Ordered(s)
    ensures Ordered(Judged(s, at, instance, now, reply))
  {
  }

  lemma JudgedKeepsBalance(s: Store, at: nat, instance: Option<int>, now: int, reply: Reply)
    requires at < |s.queue| && Balanced(s)
    ensures Balanced(Judged(s, at, instance, now, reply))
  {
    var x, s1 := s.queue[at], Judged(s, at, instance, now, reply);
    if reply.Ok() {
      NosWithout(s.queue, at);
      NosAppend(s.accepted, [x]);
      assert Nos([x]) == [x.no];
    } else if reply.Refuses() {
      NosWithout(s.queue, at);
      assert RefusedNos(s1.attention) == RefusedNos(s.attention) + [x.no];
    } else {
      assert Nos(s1.queue) == Nos(s.queue);
    }
  }

  // A request more: earlier delays are what they were, and the counts go up by the "busy" ones.
  lemma OneMorePost(posts: seq<Post>, post: Post, no: nat)
    ensures BusyCount(posts + [post], no)
         == BusyCount(posts, no) + if post.item.no == no && ServerBusy(post.reply) then 1 else 0
    ensures NextTry(posts + [post], no) ==
      if post.item.no == no && ServerBusy(post.reply) then Some(post.at + BackoffMs(BusyCount(posts + [post], no)))
      else NextTry(posts, no)
    ensures forall i :: 0 <= i < |posts| ==> Delay(posts + [post], i) == Delay(posts, i)
    ensures Delay(posts + [post], |posts|) == BackoffMs(BusyCount(posts + [post], post.item.no))
  {
    var more := posts + [post];
    assert more[..|posts|] == posts && more[..|posts| + 1] == more;
    forall i | 0 <= i < |posts| ensures Delay(more, i) == Delay(posts, i) { assert more[..i + 1] == posts[..i + 1]; }
  }

  lemma JudgedKeepsPace(s: Store, at: nat, instance: Option<int>, now: int, reply: Reply)
    requires at < |s.queue| && Ordered(s) && Paced(s) && Due(s.queue[at], instance, now)
    ensures Paced(Judged(s, at, instance, now, reply))
  {
    var x, s1 := s.queue[at], Judged(s, at, instance, now, reply);
    var post := Post(x, now, instance, reply);
    BackoffIs(Attempts(x) + 1);
    assert x in s.queue;
    JudgedFollows(s, post, x);
    forall y | y in s1.queue
      ensures Counted(y, s1.posts) && forall i :: 0 <= i < |s1.posts| ==> Waits(y, s1.posts, i)
    {
      var k :| 0 <= k < |s1.queue| && s1.queue[k] == y;
      JudgedAt(s, at, instance, now, reply, k);
      assert Counted(if y in s.queue then y else x, s.posts);
      JudgedCounts(s.posts, post, x, y);
      JudgedWaits(s, post, x, y);
    }
  }

  lemma JudgedCounts(posts: seq<Post>, post: Post, x: Item, y: Item)
    requires post.item == x
    requires (Counted(y, posts) && y.no != x.no) || (y == x && Counted(x, posts) && post.reply.NoNetwork?)
        || (y == Retried(x, post.at) && Counted(x, posts) && post.reply.Busy())
    ensures Counted(y, posts + [post])
  {
    OneMorePost(posts, post, y.no);
  }

  lemma JudgedFollows(s: Store, post: Post, x: Item)
    requires Paced(s) && x in s.queue && post.item == x && Due(x, post.instance, post.at)
    ensures var posts := s.posts + [post]; forall i, j :: 0 <= i < j < |posts| ==> Follows(posts, i, j)
  {
    var posts := s.posts + [post];
    OneMorePost(s.posts, post, x.no);
    forall i, j | 0 <= i < j < |posts| ensures Follows(posts, i, j) {
      if j < |s.posts| { assert Follows(s.posts, i, j); } else { assert Waits(x, s.posts, i); }
    }
  }

  // What a log in the queue after a request waits for.
  lemma JudgedWaits(s: Store, post: Post, x: Item, y: Item)
    requires Paced(s) && x in s.queue && post.item == x && Due(x, post.instance, post.at)
        && BackoffMs(Attempts(x) + 1) >= 0
    requires (y in s.queue && y.no != x.no) || (y == x && post.reply.NoNetwork?)
        || (y == Retried(x, post.at) && post.reply.Busy())
    ensures forall i :: 0 <= i < |s.posts + [post]| ==> Waits(y, s.posts + [post], i)
  {
    OneMorePost(s.posts, post, x.no);
    forall i | 0 <= i < |s.posts + [post]| ensures Waits(y, s.posts + [post], i) {
      if i < |s.posts| {
        assert Waits(x, s.posts, i);
        if y in s.queue { assert Waits(y, s.posts, i); }
      }
    }
  }

  // What is queued after a request: other logs as they were, and the one sent only after a failure or "busy".
  lemma JudgedAt(s: Store, at: nat, instance: Option<int>, now: int, reply: Reply, k: nat)
    requires at < |s.queue| && Ordered(s) && k < |Judged(s, at, instance, now, reply).queue|
    ensures var y := Judged(s, at, instance, now, reply).queue[k]; var x := s.queue[at];
      || (y in s.queue && y.no != x.no)
      || (y == x && reply.NoNetwork?)
      || (y == Retried(x, now) && reply.Busy())
  {
  }

  lemma JudgedKeepsInv(s: Store, at: nat, instance: Option<int>, now: int, reply: Reply)
    requires at < |s.queue| && Inv(s) && Due(s.queue[at], instance, now)
    ensures Inv(Judged(s, at, instance, now, reply))
  {
    JudgedKeepsOrder(s, at, instance, now, reply);
    JudgedKeepsBalance(s, at, instance, now, reply);
    JudgedKeepsPace(s, at, instance, now, reply);
  }

  // `inv` survives every request a flush may send.
  ghost predicate Stable(inv: Store -> bool, instance: Option<int>, now: int) {
    forall s: Store, at: nat, reply: Reply {:trigger inv(Judged(s, at, instance, now, reply))} ::
      at < |s.queue| && inv(s) && Due(s.queue[at], instance, now) ==> inv(Judged(s, at, instance, now, reply))
  }

  lemma {:induction false} SweepKeeps(
    inv: Store -> bool, s: Store, at: nat, offline: bool, instance: Option<int>, now: int,
    world: Item -> Reply, r: Swept)
    requires Stable(inv, instance, now) && inv(s) && r == Sweep(s, at, offline, instance, now, world)
    ensures inv(r.s) && r.s.arrived == s.arrived && r.s.lost == s.lost
    decreases |s.queue| - at
  {
    if at < |s.queue| {
      var x := s.queue[at];
      if offline || !Due(x, instance, now) {
        SweepKeeps(inv, s, at + 1, offline, instance, now, world, r);
      } else {
        var s1 := Judged(s, at, instance, now, world(x));
        assert inv(s1);
        var next := if |s1.queue| < |s.queue| then at else at + 1;
        SweepKeeps(inv, s1, next, world(x).NoNetwork?, instance, now, world, r);
      }
    }
  }

  lemma InvStable(instance: Option<int>, now: int)
    ensures Stable(Inv, instance, now)
  {
    forall s: Store, at: nat, reply: Reply | at < |s.queue| && Inv(s) && Due(s.queue[at], instance, now)
      ensures Inv(Judged(s, at, instance, now, reply))
    {
      JudgedKeepsInv(s, at, instance, now, reply);
    }
  }

  // Those that match and those that do not are all of them, each in order.
  lemma {:induction false} MatchingSplits(items: seq<Item>, queue: seq<Item>)
    ensures multiset(Nos(items)) == multiset(Nos(Matching(items, queue, false)))
        + multiset(Nos(Matching(items, queue, true)))
  {
    if items != [] {
      var init, x := items[..|items| - 1], items[|items| - 1];
      MatchingSplits(init, queue);
      assert items == init + [x];
      NosAppend(init, [x]);
      assert Nos([x]) == [x.no];
      NosAppend(Matching(init, queue, false), [x]);
      NosAppend(Matching(init, queue, true), [x]);
      assert Matching(init, queue, true) + [] == Matching(init, queue, true);
      assert Matching(init, queue, false) + [] == Matching(init, queue, false);
    }
  }

  lemma {:induction false} MatchingIsFilter(items: seq<Item>, queue: seq<Item>, known: bool)
    ensures forall x :: x in Matching(items, queue, known) <==> x in items && Known(queue, x.log) == known
  {
    if items != [] {
      var init, x := items[..|items| - 1], items[|items| - 1];
      MatchingIsFilter(init, queue, known);
      assert items == init + [x];
    }
  }

  lemma {:induction false} MatchingIncreases(items: seq<Item>, queue: seq<Item>, known: bool)
    requires Increasing(items)
    ensures Increasing(Matching(items, queue, known))
  {
    if items != [] {
      var init, x := items[..|items| - 1], items[|items| - 1];
      MatchingIncreases(init, queue, known);
      var m := Matching(init, queue, known);
      forall i | 0 <= i < |m| ensures m[i].no < x.no {
        MatchingIsFilter(init, queue, known);
        assert m[i] in m && m[i] in init;
      }
    }
  }

  lemma IncreasingConcat(a: seq<Item>, b: seq<Item>)
    requires Increasing(a) && Increasing(b) && forall i, j :: 0 <= i < |a| && 0 <= j < |b| ==> a[i].no < b[j].no
    ensures Increasing(a + b)
  {
  }

  lemma CountUp(n: nat, m: nat)
    ensures UpTo(n + m) == UpTo(n) + seq(m, i => n + i)
  {
  }

  lemma MergedKeepsOrder(s: Store, started: seq<Item>, logs: seq<Log>)
    requires Ordered(s)
    ensures Ordered(Merged(s, started, logs))
  {
    var added := Numbered(|s.arrived|, logs);
    var extra, lost := Matching(added, started, false), Matching(added, started, true);
    MatchingIncreases(added, started, false);
    AddedAreGenuine(s.arrived, logs, started, false);
    AddedAreGenuine(s.arrived, logs, started, true);
    IncreasingConcat(s.queue, extra);
    GenuineStill(s.arrived, logs, s.queue, extra);
    GenuineStill(s.arrived, logs, s.lost, lost);
    GenuineStill(s.arrived, logs, s.accepted, []);
  }

  lemma AddedAreGenuine(arrived: seq<Log>, logs: seq<Log>, started: seq<Item>, known: bool)
    ensures var m := Matching(Numbered(|arrived|, logs), started, known);
      AllGenuine(arrived + logs, m) && forall i :: 0 <= i < |m| ==> |arrived| <= m[i].no
  {
    var added := Numbered(|arrived|, logs);
    var m := Matching(added, started, known);
    MatchingIsFilter(added, started, known);
    forall i | 0 <= i < |m| ensures Genuine(arrived + logs, m[i].no, m[i].log) && |arrived| <= m[i].no {
      assert m[i] in m && m[i] in added;
    }
  }

  lemma GenuineStill(arrived: seq<Log>, logs: seq<Log>, a: seq<Item>, b: seq<Item>)
    requires AllGenuine(arrived, a) && AllGenuine(arrived + logs, b)
    ensures AllGenuine(arrived + logs, a + b) && a + [] == a
  {
  }

  lemma MergedKeepsBalance(s: Store, started: seq<Item>, logs: seq<Log>)
    requires Balanced(s)
    ensures Balanced(Merged(s, started, logs))
  {
    var added := Numbered(|s.arrived|, logs);
    MatchingSplits(added, started);
    NosAppend(s.queue, Matching(added, started, false));
    NosAppend(s.lost, Matching(added, started, true));
    CountUp(|s.arrived|, |logs|);
    assert Nos(added) == seq(|logs|, i => |s.arrived| + i);
  }

  lemma {:induction false} NeverBusy(posts: seq<Post>, no: nat)
    requires forall p :: p in posts ==> p.item.no != no
    ensures BusyCount(posts, no) == 0 && NextTry(posts, no) == None
  {
    if posts != [] { NeverBusy(posts[..|posts| - 1], no); }
  }

  lemma MergedKeepsPace(s: Store, started: seq<Item>, logs: seq<Log>)
    requires Paced(s)
    ensures Paced(Merged(s, started, logs))
  {
    var added, s1 := Numbered(|s.arrived|, logs), Merged(s, started, logs);
    MatchingIsFilter(added, started, false);
    forall x | x in s1.queue
      ensures Counted(x, s1.posts) && forall i :: 0 <= i < |s1.posts| ==> Waits(x, s1.posts, i)
    {
      if x in s.queue {
        forall i | 0 <= i < |s1.posts| ensures Waits(x, s1.posts, i) { assert Waits(x, s.posts, i); }
      } else {
        assert x in added;
        NeverBusy(s.posts, x.no);
        forall i | 0 <= i < |s1.posts| ensures Waits(x, s1.posts, i) { assert s.posts[i] in s.posts; }
      }
    }
    forall i, j | 0 <= i < j < |s1.posts| ensures Follows(s1.posts, i, j) { assert Follows(s.posts, i, j); }
  }

  lemma StepKeepsInv(s: Store, e: Event)
    requires Inv(s)
    ensures Inv(Step(s, e))
  {
    match e
    case Enqueue(log) =>
      assert Matching([Item(|s.arrived|, log, None, None)][..0], [], false) == [];
      assert Matching([Item(|s.arrived|, log, None, None)][..0], [], true) == [];
      assert Numbered(|s.arrived|, [log]) == [Item(|s.arrived|, log, None, None)];
      assert !Known([], log);
      assert Matching(Numbered(|s.arrived|, [log]), [], true) == [] + [];
      assert Matching(Numbered(|s.arrived|, [log]), [], false) == [] + [Item(|s.arrived|, log, None, None)];
      assert s.lost + [] == s.lost;
      assert Step(s, e) == Merged(s, [], [log]);
      MergedKeepsOrder(s, [], [log]);
      MergedKeepsBalance(s, [], [log]);
      MergedKeepsPace(s, [], [log]);
    case Flush(linked, instance, now, world, logs) =>
      var r := Sweep(s, 0, false, instance, now, world);
      InvStable(instance, now);
      SweepKeeps(Inv, s, 0, false, instance, now, world, r);
      MergedKeepsOrder(r.s, s.queue, logs);
      MergedKeepsBalance(r.s, s.queue, logs);
      MergedKeepsPace(r.s, s.queue, logs);
  }

  lemma {:induction false} EveryRunKeepsInv(es: seq<Event>)
    ensures Inv(Steps(EMPTY, es))
  {
    if es != [] {
      EveryRunKeepsInv(es[..|es| - 1]);
      StepKeepsInv(Steps(EMPTY, es[..|es| - 1]), es[|es| - 1]);
    }
  }

  // Over every run of the app queueing logs and the worker flushing them, whatever the server answers: each
  // log is exactly once in the queue, accepted, in needs-attention or lost, with the content it was queued
  // with, and the queue is in the order the logs were made.
  lemma EveryLogInOnePlace(es: seq<Event>, no: nat)
    requires no < |Steps(EMPTY, es).arrived|
    ensures var s := Steps(EMPTY, es);
      multiset(Nos(s.queue))[no] + multiset(Nos(s.accepted))[no] + multiset(RefusedNos(s.attention))[no]
          + multiset(Nos(s.lost))[no] == 1
    ensures Ordered(Steps(EMPTY, es))
  {
    EveryRunKeepsInv(es);
    UpToOnce(|Steps(EMPTY, es).arrived|, no);
  }

  // A log is lost exactly when it is queued during a flush under the time and cache of a log that flush read.
  lemma LosesIff(s: Store, e: Event)
    ensures Step(s, e).lost == s.lost <==>
      !(e.Flush? && e.linked && exists i, j ::
          && 0 <= i < |e.logs| && 0 <= j < |s.queue|
          && e.logs[i].queuedAt == s.queue[j].log.queuedAt && e.logs[i].cacheId == s.queue[j].log.cacheId)
  {
    if e.Flush? && e.linked && s.queue != [] {
      var added := Numbered(|Sweep(s, 0, false, e.instance, e.now, e.world).s.arrived|, e.logs);
      var always := (x: Store) => true;
      SweepKeeps(always, s, 0, false, e.instance, e.now, e.world, Sweep(s, 0, false, e.instance, e.now, e.world));
      MatchingIsFilter(added, s.queue, true);
      if i :| 0 <= i < |e.logs| && Known(s.queue, e.logs[i]) {
        assert added[i] in Matching(added, s.queue, true);
      }
      var m := Matching(added, s.queue, true);
      if m != [] {
        assert m[0] in m && m[0] in added;
        var i :| 0 <= i < |added| && added[i] == m[0];
        assert Known(s.queue, e.logs[i]);
      }
    }
  }

  // No two logs share a key.
  predicate KeysDiffer(logs: seq<Log>) {
    forall i, j :: 0 <= i < j < |logs| ==> logs[i].queuedAt != logs[j].queuedAt || logs[i].cacheId != logs[j].cacheId
  }

  // A log known to the queue shares a key with one that arrived.
  lemma KnownIsRepeated(arrived: seq<Log>, queue: seq<Item>, logs: seq<Log>, i: nat)
    requires AllGenuine(arrived, queue) && i < |logs|
    ensures Known(queue, logs[i]) ==> !KeysDiffer(arrived + logs)
  {
    if k :| 0 <= k < |queue| && SameKey(queue[k].log, logs[i]) {
      var all := arrived + logs;
      assert Genuine(arrived, queue[k].no, queue[k].log);
      assert all[queue[k].no].queuedAt == all[|arrived| + i].queuedAt;
    }
  }

  lemma StepLosesNothing(s: Store, e: Event, r: Store)
    requires Ordered(s) && r == Step(s, e) && KeysDiffer(r.arrived)
    ensures r.lost == s.lost && KeysDiffer(s.arrived)
  {
    LosesIff(s, e);
    if e.Flush? && e.linked && s.queue != [] {
      var always := (x: Store) => true;
      SweepKeeps(always, s, 0, false, e.instance, e.now, e.world, Sweep(s, 0, false, e.instance, e.now, e.world));
      assert r.arrived == s.arrived + e.logs;
      forall i | 0 <= i < |e.logs| ensures !Known(s.queue, e.logs[i]) {
        KnownIsRepeated(s.arrived, s.queue, e.logs, i);
      }
    }
    assert forall i :: 0 <= i < |s.arrived| ==> r.arrived[i] == s.arrived[i];
  }

  // Over every run: while no two logs have the same time and cache, none is lost, those queued during a flush
  // included.
  lemma {:induction false} NothingLostIfKeysDiffer(es: seq<Event>)
    requires KeysDiffer(Steps(EMPTY, es).arrived)
    ensures Steps(EMPTY, es).lost == []
  {
    if es != [] {
      var init := es[..|es| - 1];
      EveryRunKeepsInv(init);
      StepLosesNothing(Steps(EMPTY, init), es[|es| - 1], Steps(EMPTY, es));
      NothingLostIfKeysDiffer(init);
    }
  }

  // As here: queued during a flush under the key of the log that flush is sending.
  lemma LogLostToItsKey(a: Log, b: Log, now: int)
    requires a.queuedAt == b.queuedAt && a.cacheId == b.cacheId
    ensures Steps(EMPTY, [Event.Enqueue(a), Flush(true, None, now, x => NoNetwork, [b])]).lost ==
        [Item(1, b, None, None)]
  {
    var first, flush := Event.Enqueue(a), Flush(true, None, now, (x: Item) => NoNetwork, [b]);
    var es := [first, flush];
    assert es[..1] == [first] && [first][..0] == [];
    var s := Step(Steps(EMPTY, [first][..0]), first);
    assert s == Steps(EMPTY, [first]);
    var x := Item(0, a, None, None);
    assert s == Store([x], [], [a], [], [], []);
    var added := [Item(1, b, None, None)];
    assert Numbered(1, [b]) == added && Known([x], b) by { assert SameKey([x][0].log, b); }
    assert added[..0] == [] && Matching([], [x], true) == [];
    assert Matching(added, [x], true) == [] + added;
    var swept := Sweep(s, 0, false, None, now, flush.world);
    var always := (t: Store) => true;
    SweepKeeps(always, s, 0, false, None, now, flush.world, swept);
  }

  // Over every run: a log is never sent to another instance or before its time, never again once the server
  // accepted or refused it, and after the n-th "busy" not before the n-th delay is over.
  lemma RequestsArePaced(es: seq<Event>, j: nat, posts: seq<Post>)
    requires posts == Steps(EMPTY, es).posts && j < |posts|
    ensures var p := posts[j];
      && (p.instance.None? || p.item.log.instance.None? || p.item.log.instance == p.instance)
      && (p.item.nextAt.None? || p.item.nextAt.value <= p.at)
    ensures forall i :: 0 <= i < j && posts[i].item.no == posts[j].item.no ==>
              var p := posts[i];
              || p.reply.NoNetwork?
              || (ServerBusy(p.reply) && posts[j].at >= p.at + BackoffMs(BusyCount(posts[..i + 1], p.item.no)))
  {
    EveryRunKeepsInv(es);
    assert posts[j] in posts;
    forall i | 0 <= i < j && posts[i].item.no == posts[j].item.no
      ensures var p := posts[i];
        || p.reply.NoNetwork?
        || (ServerBusy(p.reply) && posts[j].at >= p.at + BackoffMs(BusyCount(posts[..i + 1], p.item.no)))
    {
      assert Follows(posts, i, j);
    }
  }

  // And no later: a log in the queue has been answered "busy" as often as it says, and is due again exactly when the
  // delay its last such answer earned is over; one never answered so is due at once.
  lemma RetriesAreExact(es: seq<Event>, x: Item)
    requires x in Steps(EMPTY, es).queue
    ensures var posts := Steps(EMPTY, es).posts;
      && x.nextAt == NextTry(posts, x.no)
      && (if x.attempts.Some? then x.attempts.value else 0) == BusyCount(posts, x.no)
  {
    EveryRunKeepsInv(es);
    assert Counted(x, Steps(EMPTY, es).posts);
  }

  // ---- what one flush does ------------------------------------------------------------------------------

  ghost function DueOnes(items: seq<Item>, instance: Option<int>, now: int): seq<Item> {
    if items == [] then []
    else (if MayGo(items[0], instance, now) then [items[0]] else []) + DueOnes(items[1..], instance, now)
  }

  function Sent(posts: seq<Post>): seq<Item> { seq(|posts|, i requires 0 <= i < |posts| => posts[i].item) }

  ghost function OkOnes(posts: seq<Post>): seq<Item> {
    if posts == [] then [] else (if ServerTook(posts[0].reply) then [posts[0].item] else []) + OkOnes(posts[1..])
  }

  ghost function RefusedOnes(posts: seq<Post>): seq<Refusal> {
    if posts == [] then []
    else
      var p := posts[0];
      (if ServerRejects(p.reply) then [Refusal(p.item.no, p.item.log, p.reply.error, p.reply.status, p.at)] else [])
      + RefusedOnes(posts[1..])
  }

  predicate FailsAtMostLast(posts: seq<Post>) {
    forall i :: 0 <= i < |posts| - 1 ==> !posts[i].reply.NoNetwork?
  }

  predicate EndsInFailure(posts: seq<Post>) { posts != [] && posts[|posts| - 1].reply.NoNetwork? }

  // The requests for a stretch of the queue.
  function Requests(items: seq<Item>, offline: bool, instance: Option<int>, now: int, world: Item -> Reply): seq<Post> {
    if items == [] then []
    else if offline || !Due(items[0], instance, now) then Requests(items[1..], offline, instance, now, world)
    else
      [Post(items[0], now, instance, world(items[0]))]
      + Requests(items[1..], world(items[0]).NoNetwork?, instance, now, world)
  }

  lemma {:induction false} OfflineSendsNothing(items: seq<Item>, instance: Option<int>, now: int, world: Item -> Reply)
    ensures Requests(items, true, instance, now, world) == []
  {
    if items != [] { OfflineSendsNothing(items[1..], instance, now, world); }
  }

  // They are answered by the world, and only the last may fail.
  lemma {:induction false} RequestsAreAnswered(
    items: seq<Item>, instance: Option<int>, now: int, world: Item -> Reply, posts: seq<Post>)
    requires posts == Requests(items, false, instance, now, world)
    ensures forall i :: 0 <= i < |posts| ==> posts[i] == Post(posts[i].item, now, instance, world(posts[i].item))
    ensures FailsAtMostLast(posts)
  {
    if items != [] {
      var x := items[0];
      if !Due(x, instance, now) {
        RequestsAreAnswered(items[1..], instance, now, world, posts);
      } else if world(x).NoNetwork? {
        OfflineSendsNothing(items[1..], instance, now, world);
      } else {
        RequestsAreAnswered(items[1..], instance, now, world, posts[1..]);
      }
    }
  }

  lemma SentFirst(posts: seq<Post>, x: Item, due: seq<Item>)
    requires posts != [] && posts[0].item == x && Sent(posts[1..]) <= due
    ensures Sent(posts) == [x] + Sent(posts[1..]) && Sent(posts) <= [x] + due
  {
  }

  // They are the logs that are due, in order, up to and with the first network failure.
  lemma {:induction false} RequestsAreWhatIsDue(
    items: seq<Item>, instance: Option<int>, now: int, world: Item -> Reply, posts: seq<Post>, due: seq<Item>)
    requires posts == Requests(items, false, instance, now, world) && due == DueOnes(items, instance, now)
    ensures Sent(posts) <= due
    ensures !EndsInFailure(posts) ==> Sent(posts) == due
  {
    if items != [] {
      var x, more := items[0], DueOnes(items[1..], instance, now);
      if !Due(x, instance, now) {
        RequestsAreWhatIsDue(items[1..], instance, now, world, posts, more);
      } else if world(x).NoNetwork? {
        OfflineSendsNothing(items[1..], instance, now, world);
        SentFirst(posts, x, more);
      } else {
        RequestsAreWhatIsDue(items[1..], instance, now, world, posts[1..], more);
        SentFirst(posts, x, more);
      }
    }
  }

  // A sweep sends exactly these; what the server took is accepted, what it refused needs attention.
  lemma {:induction false} SweepSends(
    s: Store, at: nat, offline: bool, instance: Option<int>, now: int, world: Item -> Reply, r: Swept, posts: seq<Post>)
    requires at <= |s.queue| && r == Sweep(s, at, offline, instance, now, world)
    requires posts == Requests(s.queue[at..], offline, instance, now, world)
    ensures r.s.posts == s.posts + posts
    ensures r.offline == (offline || EndsInFailure(posts))
    ensures r.s.accepted == s.accepted + OkOnes(posts)
    ensures r.s.attention == s.attention + RefusedOnes(posts)
    decreases |s.queue| - at
  {
    if at < |s.queue| {
      var x, rest := s.queue[at], s.queue[at..];
      assert rest[1..] == s.queue[at + 1..];
      if offline || !Due(x, instance, now) {
        SweepSends(s, at + 1, offline, instance, now, world, r, posts);
      } else {
        var reply, s1 := world(x), Judged(s, at, instance, now, world(x));
        var next := if |s1.queue| < |s.queue| then at else at + 1;
        assert s1.queue[next..] == rest[1..];
        SweepSends(s1, next, reply.NoNetwork?, instance, now, world, r, posts[1..]);
        if reply.NoNetwork? { OfflineSendsNothing(rest[1..], instance, now, world); }
        FirstPost(s.posts, posts, posts[1..], s.accepted, s.attention);
      }
    }
  }

  // One flush: it sends the logs that are due, in order, up to and with the first network failure, and all
  // of them when there is none; what the server took is accepted, what it refused needs attention.
  lemma FlushSendsWhatIsDue(
    s: Store, instance: Option<int>, now: int, world: Item -> Reply, logs: seq<Log>, r: Swept, posts: seq<Post>)
    requires r == Flushed(s, instance, now, world, logs) && posts == Requests(s.queue, false, instance, now, world)
    ensures r.s.posts == s.posts + posts && r.offline == EndsInFailure(posts)
    ensures Sent(posts) <= DueOnes(s.queue, instance, now) && FailsAtMostLast(posts)
    ensures !r.offline ==> Sent(posts) == DueOnes(s.queue, instance, now)
    ensures r.s.accepted == s.accepted + OkOnes(posts) && r.s.attention == s.attention + RefusedOnes(posts)
  {
    assert s.queue[0..] == s.queue;
    SweepSends(s, 0, false, instance, now, world, Sweep(s, 0, false, instance, now, world), posts);
    RequestsAreAnswered(s.queue, instance, now, world, posts);
    RequestsAreWhatIsDue(s.queue, instance, now, world, posts, DueOnes(s.queue, instance, now));
  }

  lemma FirstPost(before: seq<Post>, posts: seq<Post>, more: seq<Post>, accepted: seq<Item>, attention: seq<Refusal>)
    requires posts != [] && posts == [posts[0]] + more
    ensures before + posts == (before + [posts[0]]) + more
    ensures Sent(posts) == [posts[0].item] + Sent(more)
    ensures accepted + OkOnes(posts)
         == (if ServerTook(posts[0].reply) then accepted + [posts[0].item] else accepted) + OkOnes(more)
    ensures attention + RefusedOnes(posts) ==
      (if ServerRejects(posts[0].reply) then attention + [Refused(posts[0].item, posts[0].reply, posts[0].at)]
          else attention)
        + RefusedOnes(more)
  {
    assert posts[1..] == more;
  }

  // ---- the stored lists --------------------------------------------------------------------------------

  lemma {:induction false} MatchingConcat(a: seq<Item>, b: seq<Item>, queue: seq<Item>, known: bool)
    ensures Matching(a + b, queue, known) == Matching(a, queue, known) + Matching(b, queue, known)
    decreases |b|
  {
    if b == [] {
      assert a + b == a;
    } else {
      assert (a + b)[..|a + b| - 1] == a + b[..|b| - 1];
      MatchingConcat(a, b[..|b| - 1], queue, known);
    }
  }

  // What the second read finds beyond what the first read had.
  lemma LatestAdds(started: seq<Item>, added: seq<Item>)
    ensures Matching(started + added, started, false) == Matching(added, started, false)
  {
    MatchingConcat(started, added, started, false);
    MatchingIsFilter(started, started, false);
    var m := Matching(started, started, false);
    forall x ensures x !in m {
      if i :| 0 <= i < |started| && started[i] == x { assert SameKey(started[i].log, x.log); }
    }
    EmptyIffNoMember(m);
  }

  // What a request leaves of its log in the queue, and in needs-attention.
  function Kept(x: Item, reply: Reply, now: int): seq<Item> {
    if reply.NoNetwork? then [x] else if reply.Busy() then [Retried(x, now)] else []
  }

  function Attention(x: Item, reply: Reply, now: int): seq<Refusal> {
    if reply.Refuses() then [Refused(x, reply, now)] else []
  }

  lemma Around(keep: seq<Item>, x: Item, rest: seq<Item>, y: Item)
    ensures (keep + ([x] + rest))[|keep|] == x
    ensures Without(keep + ([x] + rest), |keep|) == (keep + []) + rest
    ensures (keep + ([x] + rest))[|keep| := y] == (keep + [y]) + rest
    ensures (keep + [x]) + rest == keep + ([x] + rest)
  {
  }

  // The loop part way: `keep` and `refused` so far, `rest` to go, and what the whole flush comes to.
  ghost predicate Sweeping(
    start: Store, end: Swept, s: Store, keep: seq<Item>, refused: seq<Refusal>, rest: seq<Item>, offline: bool,
    instance: Option<int>, now: int, world: Item -> Reply)
  {
    && s.queue == keep + rest && s.attention == start.attention + refused
    && end == Sweep(s, |keep|, offline, instance, now, world)
  }

  lemma OneSent(
    start: Store, end: Swept, s: Store, keep: seq<Item>, refused: seq<Refusal>, x: Item, rest: seq<Item>,
    instance: Option<int>, now: int, world: Item -> Reply)
    returns (s1: Store)
    requires Sweeping(start, end, s, keep, refused, [x] + rest, false, instance, now, world) && Due(x, instance, now)
    ensures Sweeping(start, end, s1, keep + Kept(x, world(x), now), refused + Attention(x, world(x), now), rest,
                     world(x).NoNetwork?, instance, now, world)
  {
    Around(keep, x, rest, Retried(x, now));
    s1 := Judged(s, |keep|, instance, now, world(x));
  }

  lemma OneKept(
    start: Store, end: Swept, s: Store, keep: seq<Item>, refused: seq<Refusal>, x: Item, rest: seq<Item>, offline: bool,
    instance: Option<int>, now: int, world: Item -> Reply)
    requires Sweeping(start, end, s, keep, refused, [x] + rest, offline, instance, now, world)
    requires offline || !Due(x, instance, now)
    ensures Sweeping(start, end, s, keep + [x], refused, rest, offline, instance, now, world)
  {
    Around(keep, x, rest, x);
  }

  // What becomes of a log once its request is answered.
  method Settle(x: Item, reply: Reply, now: int) returns (kept: seq<Item>, why: seq<Refusal>)
    ensures kept == Kept(x, reply, now) && why == Attention(x, reply, now)
  {
    kept, why := [], [];
    if reply.NoNetwork? {
      kept := [x];
    } else if reply.Ok() {
    } else if reply.Busy() {
      kept := [Retried(x, now)];
    } else {
      why := [Refused(x, reply, now)];
    }
  }

  lemma HeadOf(items: seq<Item>, i: nat, rest: seq<Item>, tail: seq<Item>)
    requires i < |items| && rest == items[i..] && tail == items[i + 1..]
    ensures rest == [items[i]] + tail
  {
  }

  lemma AllSwept(
    start: Store, end: Swept, s: Store, keep: seq<Item>, refused: seq<Refusal>, offline: bool,
    instance: Option<int>, now: int, world: Item -> Reply)
    requires Sweeping(start, end, s, keep, refused, [], offline, instance, now, world)
    ensures end.offline == offline && end.s.queue == keep && end.s.attention == start.attention + refused
  {
    assert s.queue == keep;
  }

  // The logs of one flush in turn; `end` is what the flush comes to.
  method SendAll(
    started: seq<Item>, instance: Option<int>, now: int, world: Item -> Reply, ghost start: Store, ghost end: Swept)
    returns (keep: seq<Item>, refused: seq<Refusal>, offline: bool)
    requires start.queue == started && end == Sweep(start, 0, false, instance, now, world)
    ensures end.offline == offline && end.s.queue == keep && end.s.attention == start.attention + refused
  {
    keep, refused, offline := [], [], false;
    ghost var s, rest := start, started;
    for i := 0 to |started|
      invariant rest == started[i..]
      invariant Sweeping(start, end, s, keep, refused, rest, offline, instance, now, world)
    {
      var x := started[i];
      ghost var tail := started[i + 1..];
      HeadOf(started, i, rest, tail);
      rest := tail;
      if offline || !Due(x, instance, now) {
        OneKept(start, end, s, keep, refused, x, tail, offline, instance, now, world);
        keep := keep + [x];
        continue;
      }
      var reply := world(x);
      s := OneSent(start, end, s, keep, refused, x, tail, instance, now, world);
      var kept, why := Settle(x, reply, now);
      offline, keep, refused := reply.NoNetwork?, keep + kept, refused + why;
    }
    AllSwept(start, end, s, keep, refused, offline, instance, now, world);
  }

  class OfflineLogs {
    var queue: seq<Item>
    var attention: seq<Refusal>
    // Arrival numbers handed out so far.
    var heard: nat
    ghost var history: Store

    ghost function Stored(): Store
      reads this
    {
      history.(queue := queue, attention := attention)
    }

    ghost predicate Valid()
      reads this
    {
      heard == |history.arrived|
    }

    constructor ()
      ensures Valid() && Stored() == EMPTY
    {
      queue, attention, heard, history := [], [], 0, EMPTY;
    }

    // The app queues a log.
    method Enqueue(log: Log)
      requires Valid()
      modifies this
      ensures Valid() && Stored() == Step(old(Stored()), Event.Enqueue(log))
    {
      queue := queue + [Item(heard, log, None, None)];
      heard := heard + 1;
      history := history.(arrived := history.arrived + [log]);
    }

    // One flush; true when it fails for want of a connection. `logs` is what the app queues meanwhile.
    method FlushQueue(
      linked: bool, instance: Option<int>, now: int, world: Item -> Reply, logs: seq<Log>) returns (offline: bool)
      requires Valid()
      modifies this
      ensures Valid() && Stored() == Step(old(Stored()), Event.Flush(linked, instance, now, world, logs))
      ensures offline == (linked && old(queue) != [] && Flushed(old(Stored()), instance, now, world, logs).offline)
    {
      if !linked || |queue| == 0 { return false; }
      var started := queue;
      ghost var end := Sweep(Stored(), 0, false, instance, now, world);
      ghost var always := (x: Store) => true;
      SweepKeeps(always, Stored(), 0, false, instance, now, world, end);
      var keep, refused;
      keep, refused, offline := SendAll(started, instance, now, world, Stored(), end);
      var added := Numbered(heard, logs);
      queue, heard := queue + added, heard + |logs|;
      var latest := queue;
      LatestAdds(started, added);
      queue := keep + Matching(latest, started, false);
      attention := attention + refused;
      history := Merged(end.s, started, logs);
    }
  }
}
