// The open view in the browser's back button (apps/web/src/nav.ts): the protocol that keeps one history entry
// above the base entry while anything is open. The browser's history is asynchronous: back() only
// requests a traversal, and the popstate that ends it comes later, after any number of renders.

module ViewHistories {
  import opened Common
  import opened ViewQueries

  datatype Url = Url(path: string, search: Query, hash: string)
  datatype Entry = Entry(ours: bool, url: Url)

  // One createViewHistory instance: a close waiting for its pop, and the view opened meanwhile.
  datatype Instance = Instance(popping: bool, queued: Option<View>)

  // What the app last asked for or was told: `synced` when it came from `sync`, not from a popstate.
  datatype Wanted = Wanted(view: View, open: bool, synced: bool)

  // The browser's entries and position, the back() calls whose popstate has not landed, the per-history
  // `backPending` mark, the mounted instance if any, and what the app wants.
  datatype World = World(
    entries: seq<Entry>, cur: nat, outstanding: nat, backPending: bool,
    inst: Option<Instance>, want: Wanted)

  datatype Event =
    | Mount
    | Unmount
    | Sync(view: View, open: bool)
    | BackLands(hash: Option<string>)             // the popstate of a back() this module called
    | UserMoves(to: nat, hash: Option<string>)    // the user's back or forward, landed

  // ---- the operations ----------------------------------------------------------------------------

  function UrlFor(here: Url, v: View): Url {
    here.(search := ViewQuery(v, here.search))
  }

  function Replaced(w: World, url: Url): World
    requires w.cur < |w.entries|
  {
    w.(entries := w.entries[w.cur := w.entries[w.cur].(url := url)])
  }

  // The base entry's own address is cleaned first, then our entry goes above it.
  function Pushed(w: World, v: View): World
    requires w.cur < |w.entries|
  {
    var here := w.entries[w.cur].url;
    var w1 := Replaced(w, UrlFor(here, Map));
    w1.(entries := w1.entries[..w.cur + 1] + [Entry(true, UrlFor(here, v))], cur := w.cur + 1)
  }

  function Synced(w: World, inst: Instance, view: View, open: bool): World
    requires w.cur < |w.entries|
  {
    var w0 := w.(want := Wanted(view, open, true));
    var here := w.entries[w.cur].url;
    if inst.popping then w0.(inst := Some(inst.(queued := if open then Some(view) else None)))
    else if w.entries[w.cur].ours then
      if open then Replaced(w0, UrlFor(here, view))
      else
        var w1 := w0.(inst := Some(inst.(popping := true)));
        if w.backPending then w1 else w1.(backPending := true, outstanding := w.outstanding + 1)
    else if open then Pushed(w0, view)
    else Replaced(w0, UrlFor(here, Map))
  }

  // The popstate handler of the mounted instance.
  function Popped(w: World, inst: Instance, hash: Option<string>): World
    requires w.cur < |w.entries|
  {
    var here := w.entries[w.cur].url;
    var w1 := w.(backPending := false);
    var w2 := if hash.Some? && hash.value != "" && hash.value != here.hash
        then Replaced(w1, here.(hash := hash.value)) else w1;
    if inst.popping then
      var w3 := w2.(inst := Some(Instance(false, None)));
      if inst.queued.Some? then Pushed(w3, inst.queued.value) else w3
    else
      var v := Shown(w2.entries[w2.cur].url.search);
      w2.(want := Wanted(v, v != Map, false))
  }

  // The user's own moves stay within the app's entries and never overlap a back() of ours.
  predicate Possible(w: World, e: Event) {
    && w.cur < |w.entries|
    && match e
       case Mount => w.inst.None?
       case Unmount => w.inst.Some?
       case Sync(_, _) => w.inst.Some?
       case BackLands(_) => w.outstanding > 0 && w.cur > 0
       case UserMoves(to, _) => w.outstanding == 0 && to < |w.entries| && to != w.cur
  }

  function Step(w: World, e: Event): World
    requires Possible(w, e)
  {
    match e
    case Mount => w.(inst := Some(Instance(false, None)), want := w.want.(synced := false))
    case Unmount => w.(inst := None, want := w.want.(synced := false))
    case Sync(view, open) => Synced(w, w.inst.value, view, open)
    case BackLands(hash) =>
      var w1 := w.(cur := w.cur - 1, outstanding := w.outstanding - 1);
      if w.inst.None? then w1 else Popped(w1, w.inst.value, hash)
    case UserMoves(to, hash) =>
      var w1 := w.(cur := to);
      if w.inst.None? then w1 else Popped(w1, w.inst.value, hash)
  }

  predicate AllPossible(w: World, es: seq<Event>)
    decreases |es|
  {
    es == [] || (Possible(w, es[0]) && AllPossible(Step(w, es[0]), es[1..]))
  }

  function Steps(w: World, es: seq<Event>): World
    requires AllPossible(w, es)
    decreases |es|
  {
    if es == [] then w else Steps(Step(w, es[0]), es[1..])
  }

  // ---- what every run keeps --------------------------------------------------------------------------

  // The base entry, and at most one entry of ours, directly above it and over a clean base address.
  predicate Shape(w: World, foreign: Query) {
    && 1 <= |w.entries| <= 2 && w.cur < |w.entries|
    && !w.entries[0].ours
    && (|w.entries| == 2 ==> w.entries[1].ours && w.entries[0].url.search == ViewQuery(Map, foreign))
    && forall k :: 0 <= k < |w.entries| ==> Foreign(w.entries[k].url.search) == Foreign(foreign)
  }

  // At most one back() is under way, marked, and it left from our entry, which is still the current one.
  predicate OneBack(w: World) {
    w.outstanding <= 1 && w.backPending == (w.outstanding == 1) && (w.outstanding == 1 ==> w.cur == 1)
  }

  // A closing instance waits for that back() and remembers what was asked for since.
  predicate Remembers(w: World) {
    w.inst.Some? ==>
      if w.inst.value.popping
      then w.outstanding == 1 && w.want.synced
        && w.inst.value.queued == (if w.want.open then Some(w.want.view) else None)
      else w.inst.value.queued == None
  }

  predicate Settled(w: World) {
    w.inst.Some? && !w.inst.value.popping && w.outstanding == 0 && w.want.synced
  }

  // The current entry is ours exactly when something is open, and its address is the view's.
  predicate Agrees(w: World, foreign: Query) {
    && w.cur < |w.entries|
    && w.entries[w.cur].ours == w.want.open
    && w.entries[w.cur].url.search == ViewQuery(if w.want.open then w.want.view else Map, foreign)
  }

  predicate Inv(w: World, foreign: Query) {
    Shape(w, foreign) && OneBack(w) && Remembers(w) && (Settled(w) ==> Agrees(w, foreign))
  }

  // A back() that lands while no instance is mounted finds nobody to clear the mark.
  predicate Unattended(w: World, e: Event) {
    e.BackLands? && w.inst.None?
  }

  lemma PrintedForeign(v: View, search: Query, foreign: Query)
    requires Foreign(search) == Foreign(foreign)
    ensures ViewQuery(v, search) == ViewQuery(v, foreign) && Foreign(ViewQuery(v, search)) == Foreign(foreign)
  {
    ViewQueryParams(v, search);
  }

  lemma PushedKeeps(w: World, v: View, foreign: Query)
    requires Shape(w, foreign) && !w.entries[w.cur].ours
    ensures var p := Pushed(w, v);
      Shape(p, foreign) && p.cur == 1 && p.entries[1] == Entry(true, UrlFor(w.entries[0].url, v))
      && p.entries[1].url.search == ViewQuery(v, foreign)
  {
    var here := w.entries[w.cur].url;
    PrintedForeign(Map, here.search, foreign);
    PrintedForeign(v, here.search, foreign);
  }

  lemma SyncedKeeps(w: World, view: View, open: bool, foreign: Query)
    requires Inv(w, foreign) && w.inst.Some?
    ensures Inv(Synced(w, w.inst.value, view, open), foreign)
  {
    var here := w.entries[w.cur].url;
    PrintedForeign(Map, here.search, foreign);
    PrintedForeign(view, here.search, foreign);
    if !w.inst.value.popping && !w.entries[w.cur].ours && open {
      PushedKeeps(w.(want := Wanted(view, open, true)), view, foreign);
    }
  }

  lemma PoppedKeeps(w: World, hash: Option<string>, foreign: Query)
    requires w.inst.Some? && Shape(w, foreign) && w.outstanding == 0
    requires var i := w.inst.value;
      if i.popping then w.cur == 0 && w.want.synced && |w.entries| == 2
          && i.queued == (if w.want.open then Some(w.want.view) else None)
      else i.queued == None
    ensures Inv(Popped(w, w.inst.value, hash), foreign)
  {
    var inst, here := w.inst.value, w.entries[w.cur].url;
    var w1 := w.(backPending := false);
    var w2 := if hash.Some? && hash.value != "" && hash.value != here.hash
        then Replaced(w1, here.(hash := hash.value)) else w1;
    assert Shape(w2, foreign);
    if inst.popping && inst.queued.Some? {
      PushedKeeps(w2.(inst := Some(Instance(false, None))), inst.queued.value, foreign);
    }
  }

  // Every event keeps the invariant, except a back() landing on no instance: then, and only then, it breaks.
  lemma StepKeepsInvIff(w: World, e: Event, foreign: Query)
    requires Inv(w, foreign) && Possible(w, e)
    ensures Inv(Step(w, e), foreign) <==> !Unattended(w, e)
  {
    match e
    case Mount =>
    case Unmount =>
    case Sync(view, open) => SyncedKeeps(w, view, open, foreign);
    case BackLands(hash) =>
      if w.inst.Some? { PoppedKeeps(w.(cur := w.cur - 1, outstanding := w.outstanding - 1), hash, foreign); }
    case UserMoves(to, hash) =>
      if w.inst.Some? { PoppedKeeps(w.(cur := to), hash, foreign); }
  }

  // After such a landing: the mark is stale, no back() is under way, and a close waits, on our entry, for a pop
  // nobody has called for.
  predicate Stale(w: World, foreign: Query) {
    && Shape(w, foreign) && w.outstanding == 0 && w.backPending && (Settled(w) ==> Agrees(w, foreign))
    && (w.inst.Some? ==>
          if w.inst.value.popping
          then w.cur == 1 && w.want.synced && w.inst.value.queued == (if w.want.open then Some(w.want.view) else None)
          else w.inst.value.queued == None)
  }

  lemma UnattendedGoesStale(w: World, e: Event, foreign: Query)
    requires Inv(w, foreign) && Possible(w, e) && Unattended(w, e)
    ensures Stale(Step(w, e), foreign)
  {
  }

  lemma StaleSynced(w: World, view: View, open: bool, foreign: Query)
    requires Stale(w, foreign) && w.inst.Some?
    ensures Stale(Synced(w, w.inst.value, view, open), foreign)
  {
    var here := w.entries[w.cur].url;
    PrintedForeign(Map, here.search, foreign);
    PrintedForeign(view, here.search, foreign);
    if !w.inst.value.popping && !w.entries[w.cur].ours && open {
      PushedKeeps(w.(want := Wanted(view, open, true)), view, foreign);
    }
  }

  // Any pop that lands on a mounted instance, the user's own back or forward, ends it and restores the whole
  // invariant; nothing else does.
  lemma StaleUntilAPopLands(w: World, e: Event, foreign: Query)
    requires Stale(w, foreign) && Possible(w, e)
    ensures if e.UserMoves? && w.inst.Some? then Inv(Step(w, e), foreign) else Stale(Step(w, e), foreign)
  {
    match e
    case Mount =>
    case Unmount =>
    case Sync(view, open) => StaleSynced(w, view, open, foreign);
    case BackLands(hash) =>
    case UserMoves(to, hash) =>
      if w.inst.Some? { PoppedKeeps(w.(cur := to), hash, foreign); }
  }

  // So every run of possible events, attended or not, is in one state or the other.
  lemma {:induction false} EveryRunInvOrStale(w: World, es: seq<Event>, foreign: Query)
    requires (Inv(w, foreign) || Stale(w, foreign)) && AllPossible(w, es)
    ensures Inv(Steps(w, es), foreign) || Stale(Steps(w, es), foreign)
    decreases |es|
  {
    if es != [] {
      if Stale(w, foreign) {
        StaleUntilAPopLands(w, es[0], foreign);
      } else if Unattended(w, es[0]) {
        UnattendedGoesStale(w, es[0], foreign);
      } else {
        StepKeepsInvIff(w, es[0], foreign);
      }
      EveryRunInvOrStale(Step(w, es[0]), es[1..], foreign);
    }
  }

  // Possible events, none of them unattended.
  predicate Attended(w: World, es: seq<Event>)
    decreases |es|
  {
    es == [] || (Possible(w, es[0]) && !Unattended(w, es[0]) && Attended(Step(w, es[0]), es[1..]))
  }

  lemma {:induction false} AttendedIsPossible(w: World, es: seq<Event>)
    requires Attended(w, es)
    ensures AllPossible(w, es)
    decreases |es|
  {
    if es != [] { AttendedIsPossible(Step(w, es[0]), es[1..]); }
  }

  // Where a run starts: on the base entry, or on our own entry left above a clean base by an earlier page.
  predicate Start(w: World, foreign: Query) {
    Shape(w, foreign) && w.outstanding == 0 && !w.backPending && w.inst.None? && !w.want.synced
  }

  lemma {:induction false} EveryRunKeepsInv(w: World, es: seq<Event>, foreign: Query)
    requires Inv(w, foreign) && Attended(w, es)
    ensures AllPossible(w, es) && Inv(Steps(w, es), foreign)
    decreases |es|
  {
    AttendedIsPossible(w, es);
    if es != [] {
      StepKeepsInvIff(w, es[0], foreign);
      EveryRunKeepsInv(Step(w, es[0]), es[1..], foreign);
    }
  }

  // In every run: one entry of ours at most, directly above the base; one back() at most, from our entry; and
  // once settled the address shows what is open, with the foreign parameters it started with.
  lemma HistoryFollowsTheView(w: World, es: seq<Event>, foreign: Query)
    requires Start(w, foreign) && AllPossible(w, es)
    ensures var r := Steps(w, es);
      && r.cur < |r.entries| && (forall k :: 0 <= k < |r.entries| ==> (r.entries[k].ours <==> k == 1))
      && r.outstanding <= 1 && (r.outstanding == 1 ==> r.entries[r.cur].ours)
      && (Settled(r) ==>
            && r.entries[r.cur].ours == r.want.open
            && Others(r.entries[r.cur].url.search) == Others(foreign)
            && Get(r.entries[r.cur].url.search, "cache").None?
            && (r.want.open && WellTyped(r.want.view) && Canonical(r.want.view) ==>
                Shown(r.entries[r.cur].url.search) == r.want.view)
            && (!r.want.open ==> Shown(r.entries[r.cur].url.search) == Map))
  {
    EveryRunInvOrStale(w, es, foreign);
    if Settled(Steps(w, es)) { SettledShows(Steps(w, es), foreign); }
  }

  lemma SettledShows(r: World, foreign: Query)
    requires Agrees(r, foreign)
    ensures var search := r.entries[r.cur].url.search;
      && Others(search) == Others(foreign) && Get(search, "cache").None?
      && (r.want.open && WellTyped(r.want.view) && Canonical(r.want.view) ==> Shown(search) == r.want.view)
      && (!r.want.open ==> Shown(search) == Map)
  {
    var v, search := if r.want.open then r.want.view else Map, r.entries[r.cur].url.search;
    ViewQueryParams(v, foreign);
    ForeignAreOthers(foreign);
    ForeignAreOthers(search);
    if WellTyped(v) && Canonical(v) { ReadsBack(v, foreign); }
  }

  // An open asked for while the same instance is closing goes up when the pop lands.
  lemma ReopenedWhileClosing(w: World, hash: Option<string>, foreign: Query)
    requires Inv(w, foreign) && w.inst.Some? && w.inst.value.popping && w.want.open
    ensures Possible(w, BackLands(hash))
    ensures var r := Step(w, BackLands(hash));
      Settled(r) && r.cur == 1 && r.entries[1].ours && r.want == w.want && Agrees(r, foreign)
  {
    StepKeepsInvIff(w, BackLands(hash), foreign);
  }

  // While it closes, an instance only remembers what is asked for last: an open of `v` then goes up when the pop
  // lands, a close leaves the base entry.
  lemma LastAskedWhileClosing(w: World, v: View, open: bool, hash: Option<string>, foreign: Query)
    requires Inv(w, foreign) && w.inst.Some? && w.inst.value.popping
    ensures var asked := Step(w, Sync(v, open));
      && asked == w.(inst := asked.inst, want := Wanted(v, open, true)) && Possible(asked, BackLands(hash))
      && var r := Step(asked, BackLands(hash));
      && Settled(r) && r.want == Wanted(v, open, true) && r.cur == (if open then 1 else 0) && Agrees(r, foreign)
  {
    var asked := Step(w, Sync(v, open));
    StepKeepsInvIff(w, Sync(v, open), foreign);
    StepKeepsInvIff(asked, BackLands(hash), foreign);
  }

  // ---- what back and forward report --------------------------------------------------------------------

  // A pop changes nothing of the address it lands on but its hash, and reports, unless a close waited for it, the
  // view that address shows.
  lemma PopReports(w: World, to: nat, hash: Option<string>)
    requires Possible(w, UserMoves(to, hash)) && w.inst.Some? && !w.inst.value.popping
    ensures var r, url := Step(w, UserMoves(to, hash)), w.entries[to].url;
      && r.cur == to && r.inst == w.inst && r.outstanding == 0
      && r.entries == w.entries[to := w.entries[to].(url := url.(hash := LiveHash(url, hash)))]
      && r.want == Wanted(Shown(url.search), Shown(url.search) != Map, false)
  {
  }

  // The map's live hash, when it has one, takes the place of the restored entry's.
  function LiveHash(url: Url, hash: Option<string>): string {
    if hash.Some? && hash.value != "" then hash.value else url.hash
  }

  lemma ReadsBack(v: View, foreign: Query)
    requires WellTyped(v) && Canonical(v)
    ensures Shown(ViewQuery(v, foreign)) == v
  {
    QueryRoundTrip(v, foreign);
  }

  // Over every run: once a view other than the map is open and settled, the user's back is reported as the map, and
  // the user's forward after it as that very view again, whatever the hashes; the app showing what it was told
  // changes no entry in between.
  lemma BackReportsMapForwardTheView(
    start: World, es: seq<Event>, foreign: Query, back: Option<string>, forward: Option<string>)
    requires Start(start, foreign) && AllPossible(start, es)
    requires var w := Steps(start, es);
      Settled(w) && w.want.open && w.want.view != Map && WellTyped(w.want.view) && Canonical(w.want.view)
    ensures var w := Steps(start, es);
      && Possible(w, UserMoves(0, back))
      && var b := Step(w, UserMoves(0, back));
      && b.want == Wanted(Map, false, false)
      && Possible(b, Sync(Map, false)) && Step(b, Sync(Map, false)) == b.(want := Wanted(Map, false, true))
      && Possible(b, UserMoves(1, forward))
      && Step(b, UserMoves(1, forward)).want == Wanted(w.want.view, true, false)
  {
    EveryRunInvOrStale(start, es, foreign);
    SettledBackAndForward(Steps(start, es), foreign, back, forward);
  }

  lemma SettledBackAndForward(w: World, foreign: Query, back: Option<string>, forward: Option<string>)
    requires Shape(w, foreign) && Settled(w) && Agrees(w, foreign)
    requires w.want.open && w.want.view != Map && WellTyped(w.want.view) && Canonical(w.want.view)
    ensures Possible(w, UserMoves(0, back))
    ensures var b := Step(w, UserMoves(0, back));
      && b.want == Wanted(Map, false, false)
      && Possible(b, Sync(Map, false)) && Step(b, Sync(Map, false)) == b.(want := Wanted(Map, false, true))
      && Possible(b, UserMoves(1, forward))
      && Step(b, UserMoves(1, forward)).want == Wanted(w.want.view, true, false)
  {
    ReadsBack(Map, foreign);
    ReadsBack(w.want.view, foreign);
    PopReports(w, 0, back);
    var b := Step(w, UserMoves(0, back));
    assert b.entries[1] == w.entries[1];
    BaseShowsTheMap(b, foreign);
    PopReports(b, 1, forward);
  }

  // On a clean base entry, showing that nothing is open changes no entry.
  lemma BaseShowsTheMap(b: World, foreign: Query)
    requires b.entries != [] && b.cur == 0 && !b.entries[0].ours && b.inst.Some? && !b.inst.value.popping
    requires b.entries[0].url.search == ViewQuery(Map, foreign)
    ensures Possible(b, Sync(Map, false)) && Step(b, Sync(Map, false)) == b.(want := Wanted(Map, false, true))
  {
    var search := b.entries[0].url.search;
    ViewQueryParams(Map, foreign);
    PrintedForeign(Map, search, foreign);
  }

  // A view closed from the app's own controls is still there for the user's forward: the pop of that close reports
  // nothing, and the forward after it reports the view that was closed.
  lemma ForwardReopensTheClosed(w: World, foreign: Query, view: View, landing: Option<string>, forward: Option<string>)
    requires Inv(w, foreign) && Settled(w) && w.want.open
    requires w.want.view != Map && WellTyped(w.want.view) && Canonical(w.want.view)
    ensures Possible(w, Sync(view, false)) && Possible(Step(w, Sync(view, false)), BackLands(landing))
    ensures var closed := Step(Step(w, Sync(view, false)), BackLands(landing));
      && Settled(closed) && closed.want == Wanted(view, false, true)
      && Possible(closed, UserMoves(1, forward))
      && Step(closed, UserMoves(1, forward)).want == Wanted(w.want.view, true, false)
  {
    ReadsBack(w.want.view, foreign);
    var closing := Step(w, Sync(view, false));
    var closed := Step(closing, BackLands(landing));
    assert closed.entries[1] == w.entries[1];
    PopReports(closed, 1, forward);
  }

  // A back() called by an instance since replaced lands on the new one, which did not wait for it: that one is told
  // that the map shows.
  lemma LandingOnAnotherInstanceReportsMap(w: World, foreign: Query, hash: Option<string>)
    requires Inv(w, foreign) && Possible(w, BackLands(hash)) && w.inst.Some? && !w.inst.value.popping
    ensures var r := Step(w, BackLands(hash)); r.cur == 0 && r.want == Wanted(Map, false, false) && !r.backPending
  {
    ReadsBack(Map, foreign);
  }

  // Showing a view changes the query alone: the path and the map's hash of the current address stay, also in the
  // entry pushed above it.
  lemma SyncKeepsPathAndHash(w: World, view: View, open: bool)
    requires Possible(w, Sync(view, open))
    ensures var r, here := Step(w, Sync(view, open)), w.entries[w.cur].url;
      && r.want == Wanted(view, open, true) && r.inst.Some? && w.cur <= r.cur < |r.entries|
      && forall k :: w.cur <= k <= r.cur ==> r.entries[k].url.path == here.path && r.entries[k].url.hash == here.hash
  {
  }

  // ---- the unattended landing ------------------------------------------------------------------------

  const NEARBY := Panel("nearby")

  // Closing, unmounting before the pop lands, mounting again later: the next close never leaves our entry,
  // since the mark of the back() that landed unattended keeps a new one from being called.
  const UNATTENDED_RUN: seq<Event> := [
    Mount, Sync(NEARBY, true), Sync(Map, false), Unmount, BackLands(None), Mount, Sync(NEARBY, true), Sync(Map, false)]

  // The worlds that run passes through, from a base entry at `url` on.
  function UnattendedWorlds(url: Url): seq<World> {
    var base, both := [Entry(false, url)], [Entry(false, url), Entry(true, UrlFor(url, NEARBY))];
    var closed, open := Wanted(Map, false, true), Wanted(NEARBY, true, true);
    var fresh_, closing := Some(Instance(false, None)), Some(Instance(true, None));
    [ World(base, 0, 0, false, None, Wanted(Map, false, false)),
      World(base, 0, 0, false, fresh_, Wanted(Map, false, false)),
      World(both, 1, 0, false, fresh_, open),
      World(both, 1, 1, true, closing, closed),
      World(both, 1, 1, true, None, closed.(synced := false)),
      World(both, 0, 0, true, None, closed.(synced := false)),
      World(both, 0, 0, true, fresh_, closed.(synced := false)),
      World(both, 1, 0, true, fresh_, open),
      World(both, 1, 0, true, closing, closed) ]
  }

  // It waits so until the user goes back, which restores the invariant.
  lemma UnattendedLandingSticks(url: Url)
    requires url.search == []
    ensures var ws, es := UnattendedWorlds(url), UNATTENDED_RUN;
      && Start(ws[0], []) && AllPossible(ws[0], es)
      && var r := Steps(ws[0], es);
      && r.cur < |r.entries| && !r.want.open && r.entries[r.cur].ours && r.outstanding == 0
          && r.inst == Some(Instance(true, None))
      && Stale(r, []) && Possible(r, UserMoves(0, None)) && Inv(Step(r, UserMoves(0, None)), [])
  {
    var ws, es := UnattendedWorlds(url), UNATTENDED_RUN;
    assert UrlFor(url, Map) == url;
    forall k | 0 <= k < |es| ensures Possible(ws[k], es[k]) && Step(ws[k], es[k]) == ws[k + 1] {
      assert k == 0 || k == 1 || k == 2 || k == 3 || k == 4 || k == 5 || k == 6 || k == 7;
    }
    RunAlong(es, ws);
    UnattendedWorldIsStale(url);
    StaleUntilAPopLands(ws[8], UserMoves(0, None), []);
  }

  lemma UnattendedWorldIsStale(url: Url)
    requires url.search == []
    ensures Stale(UnattendedWorlds(url)[8], [])
  {
    assert UrlFor(url, NEARBY).search == ViewQuery(NEARBY, []);
    PrintedForeign(NEARBY, [], []);
    assert ViewQuery(Map, []) == [];
  }

  // A run along the worlds it passes through.
  lemma {:induction false} RunAlong(es: seq<Event>, ws: seq<World>)
    requires |ws| == |es| + 1
    requires forall k :: 0 <= k < |es| ==> Possible(ws[k], es[k]) && Step(ws[k], es[k]) == ws[k + 1]
    ensures AllPossible(ws[0], es) && Steps(ws[0], es) == ws[|es|]
    decreases |es|
  {
    if es != [] {
      assert Possible(ws[0], es[0]);
      RunAlong(es[1..], ws[1..]);
    }
  }

  // ---- the classes -------------------------------------------------------------------------------------

  // The slice of `window` the module uses, with the mark kept per history.
  class HistoryHost {
    var entries: seq<Entry>
    var cur: nat
    var outstanding: nat
    var backPending: bool

    constructor (url: Url)
      ensures entries == [Entry(false, url)] && cur == 0 && outstanding == 0 && !backPending
    {
      entries, cur, outstanding, backPending := [Entry(false, url)], 0, 0, false;
    }

    method ReplaceState(url: Url)
      requires cur < |entries|
      modifies `entries
      ensures entries == old(entries)[cur := old(entries)[cur].(url := url)]
    {
      entries := entries[cur := entries[cur].(url := url)];
    }

    method PushState(ours: bool, url: Url)
      requires cur < |entries|
      modifies `entries, `cur
      ensures entries == old(entries)[..old(cur) + 1] + [Entry(ours, url)] && cur == old(cur) + 1
    {
      entries := entries[..cur + 1] + [Entry(ours, url)];
      cur := cur + 1;
    }

    method Back()
      modifies `outstanding
      ensures outstanding == old(outstanding) + 1
    {
      outstanding := outstanding + 1;
    }
  }

  class ViewHistory {
    const win: HistoryHost
    var popping: bool
    var queued: Option<View>
    ghost var want: Wanted

    ghost function Abs(): World
      reads this, win
    {
      World(win.entries, win.cur, win.outstanding, win.backPending, Some(Instance(popping, queued)), want)
    }

    constructor (win: HistoryHost, ghost want: Wanted)
      ensures this.win == win
      ensures Abs() == World(win.entries, win.cur, win.outstanding, win.backPending,
          Some(Instance(false, None)), want.(synced := false))
    {
      this.win := win;
      popping, queued := false, None;
      this.want := want.(synced := false);
    }

    method Push(view: View)
      requires win.cur < |win.entries|
      modifies win
      ensures Abs() == Pushed(old(Abs()), view)
    {
      var here := win.entries[win.cur].url;
      var base := UrlFor(here, Map);
      if here != base { win.ReplaceState(base); }
      win.PushState(true, UrlFor(here, view));
    }

    method Sync(view: View, open: bool)
      requires win.cur < |win.entries|
      modifies this, win
      ensures Abs() == Synced(old(Abs()), Instance(old(popping), old(queued)), view, open)
    {
      want := Wanted(view, open, true);
      if popping {
        queued := if open then Some(view) else None;
        return;
      }
      var here := win.entries[win.cur].url;
      var url := UrlFor(here, if open then view else Map);
      if win.entries[win.cur].ours {
        if !open {
          popping := true;
          if !win.backPending {
            win.backPending := true;
            win.Back();
          }
        } else if here != url {
          win.ReplaceState(url);
        }
      } else if open {
        Push(view);
      } else if here != url {
        win.ReplaceState(url);
      }
    }

    // `reported` is the view handed to the app, or None when a close was waiting for this pop.
    method OnPopState(hash: Option<string>) returns (reported: Option<View>)
      requires win.cur < |win.entries| && (!popping ==> queued == None)
      modifies this, win
      ensures Abs() == Popped(old(Abs()), Instance(old(popping), old(queued)), hash)
      ensures reported == if old(popping) then None else Some(Shown(old(win.entries[win.cur].url.search)))
    {
      win.backPending := false;
      var here := win.entries[win.cur].url;
      if hash.Some? && hash.value != "" && hash.value != here.hash {
        win.ReplaceState(here.(hash := hash.value));
      }
      if popping {
        popping := false;
        if queued.Some? { Push(queued.value); }
        queued := None;
        return None;
      }
      var v := Shown(win.entries[win.cur].url.search);
      want := Wanted(v, v != Map, false);
      return Some(v);
    }
  }
}
