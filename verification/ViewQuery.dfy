// The open view in the address (apps/web/src/nav.ts): the `?view=` parameters print and parse.

module ViewQueries {
  import opened Common

  datatype View = Map | Panel(key: string) | App(id: string, tool: Option<string>) | Station(call: string)

  const PANEL_KEYS: set<string> := {
    "nearby", "filter", "hide", "activity", "ranks", "messages", "shack", "profile", "settings", "admin",
    "signin", "outbox", "offline", "alerts"}
  const APP_IDS: set<string> := {"terminal", "bbs", "tools", "rig", "node", "remote"}
  const VIEW_PARAMS: set<string> := {"view", "call", "tool", "cache"}

  // What TypeScript's View type allows: panel keys and app ids come from the two tables.
  predicate WellTyped(v: View) {
    (v.Panel? ==> v.key in PANEL_KEYS) && (v.App? ==> v.id in APP_IDS)
  }

  // A query string as the parameter list URLSearchParams holds.
  datatype Param = Param(key: string, value: string)
  type Query = seq<Param>

  function Get(q: Query, key: string): Option<string> {
    if q == [] then None else if q[0].key == key then Some(q[0].value) else Get(q[1..], key)
  }

  // The parameters whose key is in `keys` (or, with want false, is not).
  function Only(q: Query, keys: set<string>, want: bool): Query {
    if q == [] then [] else (if (q[0].key in keys) == want then [q[0]] else []) + Only(q[1..], keys, want)
  }

  // URLSearchParams.set: the first parameter of that name takes the value, further ones go, a new one is appended.
  function Set(q: Query, key: string, value: string): Query {
    if q == [] then [Param(key, value)]
    else if q[0].key == key then [Param(key, value)] + Only(q[1..], {key}, false)
    else [q[0]] + Set(q[1..], key, value)
  }

  function Foreign(q: Query): Query {
    Only(q, VIEW_PARAMS, false)
  }

  function ViewQuery(v: View, search: Query): Query {
    var p := Foreign(search);
    match v
    case Map => p
    case Panel(key) => Set(p, "view", key)
    case App(id, tool) =>
      var q := Set(p, "view", id);
      if tool.Some? && tool.value != "" then Set(q, "tool", tool.value) else q
    case Station(call) => Set(Set(p, "view", "station"), "call", call)
  }

  function ViewFromQuery(search: Query): Option<View> {
    var v := Get(search, "view");
    if v.None? || v.value == "" then None
    else if v.value in PANEL_KEYS then Some(Panel(v.value))
    else
      var tool := Get(search, "tool");
      if v.value in APP_IDS then
        Some(App(v.value, if tool.Some? && tool.value != "" then tool else None))
      else
        var call := Get(search, "call");
        if v.value == "station" && call.Some? && call.value != "" then Some(Station(call.value)) else None
  }

  function Shown(search: Query): View {
    var v := ViewFromQuery(search);
    if v.Some? then v.value else Map
  }

  predicate SameView(a: View, b: View) {
    if a.Panel? then b.Panel? && a.key == b.key
    else if a.App? then b.App? && a.id == b.id && a.tool == b.tool
    else if a.Station? then b.Station? && a.call == b.call
    else b.Map?
  }

  lemma SameViewIsEquality(a: View, b: View)
    ensures SameView(a, b) <==> a == b
  {
  }

  // ---- round trip -----------------------------------------------------------------------------------

  lemma {:induction false} OnlyAbsent(q: Query, keys: set<string>)
    ensures forall k :: k in keys ==> Get(Only(q, keys, false), k).None?
    ensures Only(Only(q, keys, false), keys, false) == Only(q, keys, false)
  {
    if q != [] {
      var rest := Only(q[1..], keys, false);
      OnlyAbsent(q[1..], keys);
      assert ([q[0]] + rest)[1..] == rest && [] + rest == rest;
    }
  }

  lemma {:induction false} SetAbsent(q: Query, key: string, value: string)
    requires Get(q, key).None?
    ensures Set(q, key, value) == q + [Param(key, value)]
    ensures Get(Set(q, key, value), key) == Some(value)
    ensures forall k :: k != key ==> Get(Set(q, key, value), k) == Get(q, k)
    ensures key in VIEW_PARAMS ==> Foreign(Set(q, key, value)) == Foreign(q)
  {
    if q != [] { SetAbsent(q[1..], key, value); }
  }

  lemma ViewQueryParams(v: View, search: Query)
    ensures var q := ViewQuery(v, search);
      && Foreign(q) == Foreign(search)
      && Get(q, "cache").None?
      && Get(q, "view") == (match v case Map => None case Panel(key) => Some(key) case App(id, _) => Some(id)
                            case Station(_) => Some("station"))
      && Get(q, "tool") == (if v.App? && v.tool.Some? && v.tool.value != "" then v.tool else None)
      && Get(q, "call") == (if v.Station? then Some(v.call) else None)
  {
    var p := Foreign(search);
    OnlyAbsent(search, VIEW_PARAMS);
    match v
    case Map =>
    case Panel(key) => SetAbsent(p, "view", key);
    case App(id, tool) =>
      SetAbsent(p, "view", id);
      if tool.Some? { SetAbsent(Set(p, "view", id), "tool", tool.value); }
    case Station(call) =>
      SetAbsent(p, "view", "station");
      SetAbsent(Set(p, "view", "station"), "call", call);
  }

  // A tool or a call that is the empty string prints like none at all.
  predicate Canonical(v: View) {
    v != Station("") && !(v.App? && v.tool == Some(""))
  }

  // The parameters of a query that are not a view's, in order.
  ghost function Others(q: Query): Query {
    if q == [] then []
    else
      var last := q[|q| - 1];
      Others(q[..|q| - 1]) +
        if last.key == "view" || last.key == "call" || last.key == "tool" || last.key == "cache" then [] else [last]
  }

  lemma {:induction false} OnlyConcat(a: Query, b: Query, keys: set<string>)
    ensures Only(a + b, keys, false) == Only(a, keys, false) + Only(b, keys, false)
  {
    if a == [] {
      assert a + b == b;
    } else {
      assert (a + b)[0] == a[0] && (a + b)[1..] == a[1..] + b;
      OnlyConcat(a[1..], b, keys);
      Associates(if (a[0].key in keys) == false then [a[0]] else [], Only(a[1..], keys, false), Only(b, keys, false));
    }
  }

  lemma {:induction false} ForeignAreOthers(q: Query)
    ensures Foreign(q) == Others(q)
  {
    if q != [] {
      var init, last := q[..|q| - 1], q[|q| - 1];
      ForeignAreOthers(init);
      OnlyConcat(init, [last], VIEW_PARAMS);
      assert q == init + [last];
    }
  }

  // The address shows a view exactly when the view is canonical; the other parameters stay, in order, and
  // the one-shot `cache` goes.
  lemma QueryRoundTrip(v: View, search: Query)
    requires WellTyped(v)
    ensures Shown(ViewQuery(v, search)) == v <==> Canonical(v)
    ensures Others(ViewQuery(v, search)) == Others(search)
    ensures Get(ViewQuery(v, search), "cache").None?
  {
    ViewQueryParams(v, search);
    ForeignAreOthers(search);
    ForeignAreOthers(ViewQuery(v, search));
    TablesDisjoint();
  }

  // Whatever query an address carries, a view it shows is one that prints back, and is what its parameters name:
  // a panel or an app of the tables by `view`, with the app's `tool` when that is not empty, or a station by its
  // `call`. It shows none exactly when `view` names neither, and is not "station" with a call.
  lemma ShownIsNamed(search: Query)
    ensures var v, view, call := ViewFromQuery(search), Get(search, "view"), Get(search, "call");
      && (v.Some? ==> WellTyped(v.value) && Canonical(v.value) && Shown(ViewQuery(v.value, search)) == v.value)
      && (v.Some? ==>
            match v.value
            case Map => false
            case Panel(key) => view == Some(key)
            case App(id, tool) =>
              && view == Some(id)
              && (if tool.Some? then Get(search, "tool") == tool
                  else Get(search, "tool") == None || Get(search, "tool") == Some(""))
            case Station(c) => view == Some("station") && call == Some(c))
      && (v.None? <==>
            view.None? || (view.value !in PANEL_KEYS + APP_IDS
                           && !(view.value == "station" && call.Some? && call.value != "")))
  {
    var v := ViewFromQuery(search);
    TablesDisjoint();
    if v.Some? { QueryRoundTrip(v.value, search); }
  }

  lemma TablesDisjoint()
    ensures PANEL_KEYS !! APP_IDS && "" !in PANEL_KEYS + APP_IDS && "station" !in PANEL_KEYS + APP_IDS
  {
  }

  // Printing over a query that carries another view replaces it: only the foreign parameters matter.
  lemma ViewQueryForeign(v: View, a: Query, b: Query)
    requires Foreign(a) == Foreign(b)
    ensures ViewQuery(v, a) == ViewQuery(v, b)
  {
  }
}
