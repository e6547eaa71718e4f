/** The `watchlist` and `alerts` tables and their repositories: idempotent watchlist
    inserts, deletes that report whether anything went, and price alerts that fire once. */
module Watchlists {
  import opened Common
  import opened Sorting

  /** The elements of `s` that satisfy `p`, in order. */
  function Filter<T(!new)>(s: seq<T>, p: T -> bool): (r: seq<T>)
    ensures |r| <= |s|
    ensures forall x :: x in r <==> x in s && p(x)
    ensures forall i :: 0 <= i < |r| ==> p(r[i])
  {
    if s == [] then []
    else Filter(s[..|s| - 1], p) + (if p(s[|s| - 1]) then [s[|s| - 1]] else [])
  }

  lemma {:induction false} FilterAll<T(!new)>(s: seq<T>, p: T -> bool)
    requires forall i :: 0 <= i < |s| ==> p(s[i])
    ensures Filter(s, p) == s
  {
    if s != [] {
      FilterAll(s[..|s| - 1], p);
      InitAndLast(s);
    }
  }

  lemma InitAndLast<T>(s: seq<T>)
    requires s != []
    ensures s[..|s| - 1] + [s[|s| - 1]] == s
  {
  }

  lemma {:induction false} FilterSnoc<T(!new)>(s: seq<T>, x: T, p: T -> bool)
    ensures Filter(s + [x], p) == Filter(s, p) + (if p(x) then [x] else [])
  {
    assert (s + [x])[..|s + [x]| - 1] == s;
  }

  // ---------------------------------------------------------------- watchlist

  /** A `watchlist` row. */
  datatype WatchItem = WatchItem(id: nat, userId: string, symbol: string, addedAt: Instant, notes: Option<string>)

  function ItemId(w: WatchItem): nat
  {
    w.id
  }

  function AddedKey(w: WatchItem): real
  {
    w.addedAt as real
  }

  /** `user_id == user and symbol == symbol`. */
  predicate IsEntry(w: WatchItem, user: string, symbol: string)
  {
    w.userId == user && w.symbol == symbol
  }

  /** The position of the first row for `(user, symbol)`, if any. */
  function FirstEntry(items: seq<WatchItem>, user: string, symbol: string): (r: Option<nat>)
    ensures r.Some? ==> r.value < |items| && IsEntry(items[r.value], user, symbol)
    ensures r.Some? ==> forall i :: 0 <= i < r.value ==> !IsEntry(items[i], user, symbol)
    ensures r.None? <==> forall i :: 0 <= i < |items| ==> !IsEntry(items[i], user, symbol)
  {
    if items == [] then None
    else if IsEntry(items[0], user, symbol) then Some(0)
    else match FirstEntry(items[1..], user, symbol)
      case None => None
      case Some(k) => Some(k + 1)
  }

  class WatchlistTable {
    var items: seq<WatchItem>
    var nextId: nat

    /** Ids are unique and below the next one handed out. */
    ghost predicate Valid()
      reads this
    {
      UniqueIds(items, ItemId) && forall w :: w in items ==> w.id < nextId
    }

    constructor ()
      ensures items == [] && nextId == 1 && Valid()
    {
      items := [];
      nextId := 1;
    }

    /** `add_symbol`: the existing row for `(user, symbol)` when there is one, otherwise a
        new row stamped `now` under the next id. */
    method AddSymbol(symbol: string, user: string, notes: Option<string>, now: Instant) returns (item: WatchItem)
      requires Valid()
      modifies this
      ensures Valid()
      ensures OneRowPerSymbol(old(items)) ==> OneRowPerSymbol(items)
      ensures IsEntry(item, user, symbol) && item in items
      ensures FirstEntry(old(items), user, symbol).Some? ==>
        items == old(items) && nextId == old(nextId) && item == old(items)[FirstEntry(old(items), user, symbol).value]
      ensures FirstEntry(old(items), user, symbol).None? ==>
        item == WatchItem(old(nextId), user, symbol, now, notes) &&
        items == old(items) + [item] && nextId == old(nextId) + 1
    {
      var existing := FirstEntry(items, user, symbol);
      if existing.Some? {
        return items[existing.value];
      }
      item := WatchItem(nextId, user, symbol, now, notes);
      items := items + [item];
      nextId := nextId + 1;
    }

    /** `remove_symbol`: deletes every row for `(user, symbol)`; true iff there was one. */
    method RemoveSymbol(symbol: string, user: string) returns (removed: bool)
      requires Valid()
      modifies this
      ensures Valid() && nextId == old(nextId)
      ensures items == Filter(old(items), (w: WatchItem) => !IsEntry(w, user, symbol))
      ensures removed <==> exists w :: w in old(items) && IsEntry(w, user, symbol)
    {
      var kept := Filter(items, (w: WatchItem) => !IsEntry(w, user, symbol));
      removed := |kept| < |items|;
      if !removed {
        FilterLengthAll(items, (w: WatchItem) => !IsEntry(w, user, symbol));
      } else if forall w :: w in items ==> !IsEntry(w, user, symbol) {
        FilterAll(items, (w: WatchItem) => !IsEntry(w, user, symbol));
      }
      FilterUniqueIds(items, ItemId, (w: WatchItem) => !IsEntry(w, user, symbol));
      items := kept;
    }

    /** `get_watchlist`: the user's rows, newest first. */
    function Watchlist(user: string): (r: seq<WatchItem>)
      reads this
      ensures SortedDesc(r, AddedKey)
      ensures multiset(r) == multiset(Filter(items, (w: WatchItem) => w.userId == user))
      ensures forall w :: w in r <==> w in items && w.userId == user
    {
      var mine := Filter(items, (w: WatchItem) => w.userId == user);
      SortDescMembersAll(mine);
      SortDesc(mine, AddedKey)
    }

    /** `is_symbol_in_watchlist`. */
    predicate Contains(symbol: string, user: string)
      reads this
    {
      FirstEntry(items, user, symbol).Some?
    }
  }

  /** At most one row per user and symbol. */
  predicate OneRowPerSymbol(items: seq<WatchItem>)
  {
    forall i, j :: 0 <= i < j < |items| ==> !(items[i].userId == items[j].userId && items[i].symbol == items[j].symbol)
  }

  /** Once `add_symbol` has added a row, the next call for the same user and symbol finds
      that row, so it returns it and adds nothing. */
  lemma AddedRowFound(items: seq<WatchItem>, item: WatchItem, user: string, symbol: string)
    requires FirstEntry(items, user, symbol).None? && IsEntry(item, user, symbol)
    ensures FirstEntry(items + [item], user, symbol) == Some(|items|)
  {
    var r := FirstEntry(items + [item], user, symbol);
    assert (items + [item])[|items|] == item;
    forall i | 0 <= i < |items| ensures !IsEntry((items + [item])[i], user, symbol) {
      assert (items + [item])[i] == items[i];
    }
  }

  lemma SortDescMembersAll(s: seq<WatchItem>)
    ensures forall w :: w in SortDesc(s, AddedKey) <==> w in s
  {
    forall w {
      SortDescMembers(s, AddedKey, w);
    }
  }

  /** A filter that keeps as many elements as it was given keeps all of them. */
  lemma {:induction false} FilterLengthAll<T(!new)>(s: seq<T>, p: T -> bool)
    requires |Filter(s, p)| == |s|
    ensures forall x :: x in s ==> p(x)
  {
    if s != [] {
      var init := s[..|s| - 1];
      assert |Filter(init, p)| <= |init|;
      FilterLengthAll(init, p);
      assert forall x :: x in s ==> x in init || x == s[|s| - 1];
    }
  }

  /** No two rows share an id. */
  predicate UniqueIds<T>(items: seq<T>, id: T -> nat)
  {
    forall i, j :: 0 <= i < j < |items| ==> id(items[i]) != id(items[j])
  }

  /** Deleting rows keeps the remaining ids unique. */
  lemma {:induction false} FilterUniqueIds<T(!new)>(items: seq<T>, id: T -> nat, p: T -> bool)
    requires UniqueIds(items, id)
    ensures UniqueIds(Filter(items, p), id)
  {
    if items != [] {
      var init := items[..|items| - 1];
      var x := items[|items| - 1];
      assert UniqueIds(init, id);
      FilterUniqueIds(init, id, p);
      var r := Filter(init, p);
      forall y | y in r ensures id(y) != id(x) {
        var k :| 0 <= k < |init| && init[k] == y;
        assert items[k] == y;
      }
    }
  }

  // ---------------------------------------------------------------- alerts

  /** An `alerts` row. */
  datatype Alert = Alert(
    id: nat, userId: string, symbol: string, alertType: string, condition: string,
    threshold: real, isActive: bool, triggeredAt: Option<Instant>,
    message: Option<string>, extra: Json, createdAt: Instant)

  function AlertId(a: Alert): nat
  {
    a.id
  }

  function CreatedKey(a: Alert): real
  {
    a.createdAt as real
  }

  function TriggeredKey(a: Alert): real
  {
    match a.triggeredAt
    case Some(t) => t as real
    case None => 0.0
  }

  /** The `if/elif` chain of `check_alerts`. */
  predicate ShouldTrigger(a: Alert, price: real)
  {
    if a.condition == "ABOVE" && price > a.threshold then true
    else if a.condition == "BELOW" && price < a.threshold then true
    else a.condition == "EQUALS" && Abs(price - a.threshold) < 0.01
  }

  /** Each condition tests only its own comparison, and any other condition never fires. */
  lemma ShouldTriggerConditions(a: Alert, price: real)
    ensures a.condition == "ABOVE" ==> (ShouldTrigger(a, price) <==> price > a.threshold)
    ensures a.condition == "BELOW" ==> (ShouldTrigger(a, price) <==> price < a.threshold)
    ensures a.condition == "EQUALS" ==> (ShouldTrigger(a, price) <==> -0.01 < price - a.threshold < 0.01)
    ensures a.condition !in {"ABOVE", "BELOW", "EQUALS"} ==> !ShouldTrigger(a, price)
  {
    assert "ABOVE"[0] != "BELOW"[0] && "ABOVE"[0] != "EQUALS"[0] && "BELOW"[0] != "EQUALS"[0];
  }

  /** `trigger_alert`'s update of one row. */
  function Triggered(a: Alert, now: Instant): (r: Alert)
    ensures !r.isActive && r.triggeredAt == Some(now)
    ensures r.id == a.id && r.userId == a.userId && r.symbol == a.symbol
  {
    a.(isActive := false, triggeredAt := Some(now))
  }

  /** `get_active_alerts`' filter: the user's active alerts, for one symbol when the symbol
      is given and non-empty. */
  predicate Selected(a: Alert, user: string, symbol: Option<string>)
  {
    a.userId == user && a.isActive && (!TruthyStr(symbol) || a.symbol == symbol.value)
  }

  /** The position of the first alert with id `id`, if any. */
  function FindAlert(alerts: seq<Alert>, id: nat): (r: Option<nat>)
    ensures r.Some? ==> r.value < |alerts| && alerts[r.value].id == id
    ensures r.None? <==> forall k :: 0 <= k < |alerts| ==> alerts[k].id != id
  {
    if alerts == [] then None
    else if alerts[0].id == id then Some(0)
    else match FindAlert(alerts[1..], id)
      case None => None
      case Some(k) => Some(k + 1)
  }

  /** The table after the alerts with ids in `ids` have been triggered at `now`. */
  function Fire(alerts: seq<Alert>, ids: set<nat>, now: Instant): (r: seq<Alert>)
    ensures |r| == |alerts|
    ensures forall k :: 0 <= k < |r| ==> r[k] == if alerts[k].id in ids then Triggered(alerts[k], now) else alerts[k]
  {
    if alerts == [] then []
    else [if alerts[0].id in ids then Triggered(alerts[0], now) else alerts[0]] + Fire(alerts[1..], ids, now)
  }

  /** The alerts of `candidates` that fire at `price`, as `trigger_alert` leaves them. */
  function Fired(candidates: seq<Alert>, price: real, now: Instant): (r: seq<Alert>)
    ensures |r| <= |candidates|
  {
    if candidates == [] then []
    else
      var last := candidates[|candidates| - 1];
      Fired(candidates[..|candidates| - 1], price, now) + (if ShouldTrigger(last, price) then [Triggered(last, now)] else [])
  }

  /** The ids of the alerts of `candidates` that fire at `price`. */
  function FiredIds(candidates: seq<Alert>, price: real): (r: set<nat>)
    ensures forall id :: id in r ==> exists a :: a in candidates && a.id == id && ShouldTrigger(a, price)
  {
    if candidates == [] then {}
    else
      var last := candidates[|candidates| - 1];
      FiredIds(candidates[..|candidates| - 1], price) + (if ShouldTrigger(last, price) then {last.id} else {})
  }

  class AlertTable {
    var alerts: seq<Alert>
    var nextId: nat

    /** Ids are unique and below the next one handed out. */
    ghost predicate Valid()
      reads this
    {
      UniqueIds(alerts, AlertId) && forall a :: a in alerts ==> a.id < nextId
    }

    constructor ()
      ensures alerts == [] && nextId == 1 && Valid()
    {
      alerts := [];
      nextId := 1;
    }

    /** `create_alert`: a new active, untriggered alert under the next id. */
    method CreateAlert(symbol: string, alertType: string, condition: string, threshold: real,
                       user: string, message: Option<string>, extra: Json, now: Instant) returns (a: Alert)
      requires Valid()
      modifies this
      ensures Valid()
      ensures a == Alert(old(nextId), user, symbol, alertType, condition, threshold, true, None, message, extra, now)
      ensures alerts == old(alerts) + [a] && nextId == old(nextId) + 1
    {
      a := Alert(nextId, user, symbol, alertType, condition, threshold, true, None, message, extra, now);
      alerts := alerts + [a];
      nextId := nextId + 1;
    }

    /** `get_active_alerts`: newest first. */
    function ActiveAlerts(user: string, symbol: Option<string>): (r: seq<Alert>)
      reads this
      ensures SortedDesc(r, CreatedKey)
      ensures multiset(r) == multiset(Filter(alerts, (a: Alert) => Selected(a, user, symbol)))
      ensures forall a :: a in r <==> a in alerts && Selected(a, user, symbol)
    {
      var mine := Filter(alerts, (a: Alert) => Selected(a, user, symbol));
      AlertMembers(mine, CreatedKey);
      SortDesc(mine, CreatedKey)
    }

    /** `get_triggered_alerts`: the user's fired alerts, most recently fired first. */
    function TriggeredAlerts(user: string): (r: seq<Alert>)
      reads this
      ensures SortedDesc(r, TriggeredKey)
      ensures forall a :: a in r <==> a in alerts && a.userId == user && a.triggeredAt.Some?
    {
      var mine := Filter(alerts, (a: Alert) => a.userId == user && a.triggeredAt.Some?);
      AlertMembers(mine, TriggeredKey);
      SortDesc(mine, TriggeredKey)
    }

    /** `trigger_alert`: stamps the alert with `now` and deactivates it; an unknown id
        changes nothing and returns `None`. */
    method TriggerAlert(id: nat, now: Instant) returns (r: Option<Alert>)
      requires Valid()
      modifies this
      ensures Valid() && nextId == old(nextId)
      ensures FindAlert(old(alerts), id).None? ==> r.None? && alerts == old(alerts)
      ensures FindAlert(old(alerts), id).Some? ==>
        var k := FindAlert(old(alerts), id).value;
        alerts == old(alerts)[k := Triggered(old(alerts)[k], now)] && r == Some(alerts[k])
    {
      var found := FindAlert(alerts, id);
      if found.None? {
        return None;
      }
      var k := found.value;
      alerts := alerts[k := Triggered(alerts[k], now)];
      r := Some(alerts[k]);
    }

    /** `delete_alert`: true iff an alert with that id was removed. */
    method DeleteAlert(id: nat) returns (deleted: bool)
      requires Valid()
      modifies this
      ensures Valid() && nextId == old(nextId)
      ensures alerts == Filter(old(alerts), (a: Alert) => a.id != id)
      ensures deleted <==> exists a :: a in old(alerts) && a.id == id
    {
      var kept := Filter(alerts, (a: Alert) => a.id != id);
      deleted := |kept| < |alerts|;
      if !deleted {
        FilterLengthAll(alerts, (a: Alert) => a.id != id);
      } else if forall a :: a in alerts ==> a.id != id {
        FilterAll(alerts, (a: Alert) => a.id != id);
      }
      FilterUniqueIds(alerts, AlertId, (a: Alert) => a.id != id);
      alerts := kept;
    }

    /** `check_alerts`: triggers, in `get_active_alerts` order, every active alert of the
        user (and symbol, when non-empty) whose condition holds at `price`, and returns them
        as triggered. */
    method CheckAlerts(symbol: string, price: real, user: string, now: Instant) returns (triggered: seq<Alert>)
      requires Valid()
      modifies this
      ensures Valid() && nextId == old(nextId)
      ensures triggered == Fired(old(ActiveAlerts(user, Some(symbol))), price, now)
      ensures alerts == Fire(old(alerts), FiredIds(old(ActiveAlerts(user, Some(symbol))), price), now)
    {
      var active := ActiveAlerts(user, Some(symbol));
      triggered := FireAll(active, price, now);
    }

    /** The loop of `check_alerts` over a snapshot of table rows. */
    method FireAll(active: seq<Alert>, price: real, now: Instant) returns (triggered: seq<Alert>)
      requires Valid() && forall a :: a in active ==> a in alerts
      modifies this
      ensures Valid() && nextId == old(nextId)
      ensures triggered == Fired(active, price, now)
      ensures alerts == Fire(old(alerts), FiredIds(active, price), now)
    {
      ghost var before := alerts;
      triggered := [];
      for i := 0 to |active|
        invariant Valid() && nextId == old(nextId) && UniqueIds(before, AlertId)
        invariant alerts == Fire(before, FiredIds(active[..i], price), now)
        invariant triggered == Fired(active[..i], price, now)
      {
        triggered := CheckCandidate(before, active, i, price, now, triggered);
      }
      assert active[..|active|] == active;
    }

    /** One round of the loop: candidate `i` is fired, and appended to what the
        loop returns, exactly when its condition holds. */
    method CheckCandidate(ghost before: seq<Alert>, active: seq<Alert>, i: nat, price: real, now: Instant,
                          triggered: seq<Alert>) returns (next: seq<Alert>)
      requires i < |active| && active[i] in before
      requires Valid() && UniqueIds(before, AlertId)
      requires alerts == Fire(before, FiredIds(active[..i], price), now)
      requires triggered == Fired(active[..i], price, now)
      modifies this
      ensures Valid() && nextId == old(nextId)
      ensures alerts == Fire(before, FiredIds(active[..i + 1], price), now)
      ensures next == Fired(active[..i + 1], price, now)
    {
      var a := active[i];
      FiredPrefix(active, i, price, now);
      next := triggered;
      if ShouldTrigger(a, price) {
        FireStep(before, FiredIds(active[..i], price), a, now);
        var r := TriggerAlert(a.id, now);
        next := triggered + [r.value];
      }
    }
  }

  lemma AlertMembers(s: seq<Alert>, key: Alert -> real)
    ensures forall a :: a in SortDesc(s, key) <==> a in s
  {
    forall a {
      SortDescMembers(s, key, a);
    }
  }

  /** One more candidate extends the fired alerts and their ids by it exactly when it fires. */
  lemma FiredPrefix(s: seq<Alert>, n: nat, price: real, now: Instant)
    requires n < |s|
    ensures ShouldTrigger(s[n], price) ==>
              Fired(s[..n + 1], price, now) == Fired(s[..n], price, now) + [Triggered(s[n], now)]
              && FiredIds(s[..n + 1], price) == FiredIds(s[..n], price) + {s[n].id}
    ensures !ShouldTrigger(s[n], price) ==>
              Fired(s[..n + 1], price, now) == Fired(s[..n], price, now)
              && FiredIds(s[..n + 1], price) == FiredIds(s[..n], price)
  {
    assert s[..n + 1][..n] == s[..n];
    assert s[..n + 1][n] == s[n];
  }

  /** Triggering a table row `a` in a partly fired table: it is found under its id, the
      table becomes the one with its id fired too, and the row comes back as `a` triggered. */
  lemma FireStep(before: seq<Alert>, ids: set<nat>, a: Alert, now: Instant)
    requires UniqueIds(before, AlertId) && a in before
    ensures FindAlert(Fire(before, ids, now), a.id).Some?
    ensures
      var cur := Fire(before, ids, now);
      var k := FindAlert(cur, a.id).value;
      cur[k := Triggered(cur[k], now)] == Fire(before, ids + {a.id}, now) &&
      Triggered(cur[k], now) == Triggered(a, now)
  {
    FoundIsMember(before, a);
    var k := FindAlert(before, a.id).value;
    FindAfterFire(before, ids, a.id, now);
    FireOne(before, ids, k, now);
  }

  /** Triggering the alert at position `k` of a partly fired table fires its id. */
  lemma FireOne(before: seq<Alert>, ids: set<nat>, k: nat, now: Instant)
    requires UniqueIds(before, AlertId) && k < |before|
    ensures
      var cur := Fire(before, ids, now);
      cur[k := Triggered(cur[k], now)] == Fire(before, ids + {before[k].id}, now)
  {
    var cur := Fire(before, ids, now);
    var next := Fire(before, ids + {before[k].id}, now);
    forall m | 0 <= m < |cur| ensures cur[k := Triggered(cur[k], now)][m] == next[m] {
      if m != k {
        assert before[m] != before[k];
      }
    }
  }

  /** Firing keeps every id in place, so ids are found where they were. */
  lemma {:induction false} FindAfterFire(before: seq<Alert>, ids: set<nat>, id: nat, now: Instant)
    ensures FindAlert(Fire(before, ids, now), id) == FindAlert(before, id)
  {
    if before != [] {
      FindAfterFire(before[1..], ids, id, now);
      assert Fire(before, ids, now)[1..] == Fire(before[1..], ids, now);
    }
  }

  /** In a table with unique ids, the alert found under `a.id` is `a`. */
  lemma FoundIsMember(before: seq<Alert>, a: Alert)
    requires UniqueIds(before, AlertId) && a in before
    ensures FindAlert(before, a.id).Some? && before[FindAlert(before, a.id).value] == a
  {
    var j :| 0 <= j < |before| && before[j] == a;
    assert FindAlert(before, a.id).Some?;
  }

  /** Every alert `check_alerts` returns is a candidate whose condition held, stamped with
      `now` and deactivated. */
  lemma {:induction false} FiredFromCandidates(candidates: seq<Alert>, price: real, now: Instant)
    ensures forall a :: a in Fired(candidates, price, now) ==>
      !a.isActive && a.triggeredAt == Some(now) &&
      exists b :: b in candidates && ShouldTrigger(b, price) && a == Triggered(b, now)
  {
    if candidates != [] {
      var n := |candidates| - 1;
      FiredFromCandidates(candidates[..n], price, now);
      forall a | a in Fired(candidates[..n], price, now)
        ensures exists b :: b in candidates && ShouldTrigger(b, price) && a == Triggered(b, now)
      {
        var b :| b in candidates[..n] && ShouldTrigger(b, price) && a == Triggered(b, now);
        assert b in candidates;
      }
    }
  }

  /** `check_alerts` returns only alerts of the given user and, when the symbol is
      non-empty, of that symbol. */
  lemma CheckedBelongToUser(t: AlertTable, symbol: string, price: real, user: string, now: Instant)
    ensures forall a :: a in Fired(t.ActiveAlerts(user, Some(symbol)), price, now) ==>
      a.userId == user && (symbol != "" ==> a.symbol == symbol)
  {
    var active := t.ActiveAlerts(user, Some(symbol));
    FiredFromCandidates(active, price, now);
    forall a | a in Fired(active, price, now) ensures a.userId == user && (symbol != "" ==> a.symbol == symbol) {
      var b :| b in active && ShouldTrigger(b, price) && a == Triggered(b, now);
      assert Selected(b, user, Some(symbol));
    }
  }

  /** After the alerts with ids `ids` have fired, none of them is active, so no later
      `get_active_alerts` or `check_alerts` returns them again. */
  lemma FiredNoLongerActive(alerts: seq<Alert>, ids: set<nat>, now: Instant, user: string, symbol: Option<string>)
    ensures forall a :: a in Fire(alerts, ids, now) && a.id in ids ==> !a.isActive && a.triggeredAt == Some(now)
    ensures forall a :: a in Fire(alerts, ids, now) && Selected(a, user, symbol) ==> a.id !in ids
  {
    var r := Fire(alerts, ids, now);
    forall a | a in r && a.id in ids ensures !a.isActive && a.triggeredAt == Some(now) {
      var k :| 0 <= k < |r| && r[k] == a;
      assert alerts[k].id == a.id;
    }
  }

  /** Firing leaves every alert whose id is not fired exactly as it was. */
  lemma FireKeepsOthers(alerts: seq<Alert>, ids: set<nat>, now: Instant)
    ensures forall a :: a in alerts && a.id !in ids ==> a in Fire(alerts, ids, now)
  {
    var r := Fire(alerts, ids, now);
    forall a | a in alerts && a.id !in ids ensures a in r {
      var k :| 0 <= k < |alerts| && alerts[k] == a;
      assert r[k] == a;
    }
  }
}
