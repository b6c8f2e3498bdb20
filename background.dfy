/** The background checker: the periodic alarm, the trigger rule, and the check cycle
    that resolves each stored alert's price, notifies over Telegram and retires the alerts
    that fired. */
module Background {
  import opened Alerts
  import opened Extension
  import opened PriceResolver

  /** The one alarm the checker owns, and its period in minutes. */
  const AlarmName: string := "stockPriceCheck"
  const CheckInterval: int := 5

  /** The only runtime message the checker answers. */
  const StartMonitoring: string := "startMonitoring"

  // ---------------------------------------------------------------------------
  // The alarm registry

  /** chrome.alarms.clear(name): every alarm of that name is dropped, the others kept in
      their order. */
  function ClearAlarm(alarms: seq<Alarm>, name: string): seq<Alarm>
  {
    if alarms == [] then []
    else
      var last := alarms[|alarms| - 1];
      ClearAlarm(alarms[..|alarms| - 1], name) + (if last.name == name then [] else [last])
  }

  /** How many registered alarms carry this name. */
  function CountNamed(alarms: seq<Alarm>, name: string): nat
  {
    if alarms == [] then 0
    else CountNamed(alarms[..|alarms| - 1], name) + (if alarms[|alarms| - 1].name == name then 1 else 0)
  }

  /** The registry after setupPeriodicChecks: clear the checker's alarm, then create it
      with a one-minute delay and the check interval as its period. */
  function Rearm(alarms: seq<Alarm>): seq<Alarm>
  {
    ClearAlarm(alarms, AlarmName) + [Alarm(AlarmName, 1, CheckInterval)]
  }

  /** The checker is Idle without its alarm and Armed with it. */
  datatype SchedulerState = Idle | Armed

  function StateOf(alarms: seq<Alarm>): SchedulerState
  {
    if CountNamed(alarms, AlarmName) == 0 then Idle else Armed
  }

  lemma {:induction false} CountNamedAfterClear(alarms: seq<Alarm>, name: string)
    ensures CountNamed(ClearAlarm(alarms, name), name) == 0
  {
    if alarms != [] {
      var p := alarms[..|alarms| - 1];
      var last := alarms[|alarms| - 1];
      CountNamedAfterClear(p, name);
      var c := ClearAlarm(p, name);
      if last.name != name {
        var r := c + [last];
        assert r[..|r| - 1] == c && r[|r| - 1] == last;
        assert CountNamed(r, name) == CountNamed(c, name);
      } else {
        assert ClearAlarm(alarms, name) == c + [] == c;
      }
    }
  }

  /** Clearing keeps exactly the alarms of other names. */
  lemma {:induction false} ClearAlarmMembers(alarms: seq<Alarm>, name: string)
    ensures forall x :: x in ClearAlarm(alarms, name) <==> x in alarms && x.name != name
  {
    if alarms != [] {
      var p := alarms[..|alarms| - 1];
      ClearAlarmMembers(p, name);
      assert alarms == p + [alarms[|alarms| - 1]];
    }
  }

  lemma {:induction false} ClearAlarmTwice(alarms: seq<Alarm>, name: string)
    ensures ClearAlarm(ClearAlarm(alarms, name), name) == ClearAlarm(alarms, name)
  {
    if alarms != [] {
      var p := alarms[..|alarms| - 1];
      var last := alarms[|alarms| - 1];
      ClearAlarmTwice(p, name);
      var c := ClearAlarm(p, name);
      if last.name != name {
        var r := c + [last];
        assert r[..|r| - 1] == c && r[|r| - 1] == last;
      } else {
        assert ClearAlarm(alarms, name) == c + [] == c;
      }
    }
  }

  /** However the registry looked before, re-arming leaves exactly one alarm of the
      checker's name, with delay 1 and period 5, and the checker Armed. */
  lemma RearmArmsOnce(alarms: seq<Alarm>)
    ensures CountNamed(Rearm(alarms), AlarmName) == 1
    ensures forall x :: x in Rearm(alarms) && x.name == AlarmName ==> x == Alarm(AlarmName, 1, 5)
    ensures StateOf(Rearm(alarms)) == Armed
  {
    var c := ClearAlarm(alarms, AlarmName);
    CountNamedAfterClear(alarms, AlarmName);
    ClearAlarmMembers(alarms, AlarmName);
    assert (c + [Alarm(AlarmName, 1, CheckInterval)])[..|c|] == c;
  }

  /** Re-arming leaves every other alarm as it was, in order, and re-arming twice is
      the same as re-arming once: the alarms never stack up. */
  lemma RearmIdempotent(alarms: seq<Alarm>)
    ensures ClearAlarm(Rearm(alarms), AlarmName) == ClearAlarm(alarms, AlarmName)
    ensures Rearm(Rearm(alarms)) == Rearm(alarms)
  {
    var c := ClearAlarm(alarms, AlarmName);
    var r := c + [Alarm(AlarmName, 1, CheckInterval)];
    assert r[..|r| - 1] == c;
    ClearAlarmTwice(alarms, AlarmName);
  }

  /** setupPeriodicChecks. */
  method SetupPeriodicChecks(b: Browser)
    modifies b
    ensures b.alarms == Rearm(old(b.alarms))
    ensures b.stockAlerts == old(b.stockAlerts) && b.credentials == old(b.credentials)
    ensures b.network == old(b.network)
  {
    b.alarms := ClearAlarm(b.alarms, AlarmName);
    b.alarms := b.alarms + [Alarm(AlarmName, 1, CheckInterval)];
  }

  /** The runtime's onInstalled listener arms the checker. */
  method OnInstalled(b: Browser)
    modifies b
    ensures b.alarms == Rearm(old(b.alarms))
    ensures b.stockAlerts == old(b.stockAlerts) && b.credentials == old(b.credentials)
    ensures b.network == old(b.network)
  {
    SetupPeriodicChecks(b);
  }

  /** The runtime's onMessage listener: "startMonitoring" re-arms the checker and is
      answered with success; any other message is ignored and gets no answer. */
  method OnMessage(b: Browser, action: string) returns (answered: bool)
    modifies b
    ensures answered <==> action == StartMonitoring
    ensures b.alarms == if answered then Rearm(old(b.alarms)) else old(b.alarms)
    ensures b.stockAlerts == old(b.stockAlerts) && b.credentials == old(b.credentials)
    ensures b.network == old(b.network)
  {
    answered := false;
    if action == StartMonitoring {
      SetupPeriodicChecks(b);
      answered := true;
    }
  }

  // ---------------------------------------------------------------------------
  // The trigger rule

  /** checkSingleStock's decision: an "above" alert fires at or over its target, a
      "below" alert at or under it, and an alert of any other type never fires. */
  predicate ShouldTrigger(a: Alert, current: real)
  {
    (a.kind == "above" && current >= a.price) || (a.kind == "below" && current <= a.price)
  }

  lemma TriggerRule(a: Alert, current: real)
    ensures a.kind == "above" ==> (ShouldTrigger(a, current) <==> current >= a.price)
    ensures a.kind == "below" ==> (ShouldTrigger(a, current) <==> current <= a.price)
    ensures a.kind != "above" && a.kind != "below" ==> !ShouldTrigger(a, current)
  {
  }

  /** Once an alert fires, it fires at every price further in its direction. */
  lemma TriggerMonotone(a: Alert, current: real, further: real)
    requires ShouldTrigger(a, current)
    requires a.kind == "above" ==> further >= current
    requires a.kind == "below" ==> further <= current
    ensures ShouldTrigger(a, further)
  {
  }

  /** An "above" and a "below" alert on the same target both fire exactly at the target. */
  lemma TriggerBothAtTarget(up: Alert, down: Alert, current: real)
    requires up.kind == "above" && down.kind == "below" && up.price == down.price
    ensures ShouldTrigger(up, current) && ShouldTrigger(down, current) <==> current == up.price
  {
  }

  // ---------------------------------------------------------------------------
  // One cycle, as a function of the stored state and the providers' answers

  /** The providers' answers during one cycle: the i-th price lookup of the cycle (the
      lookup for the i-th alert of the list) gets feed(i). */
  type Feed = nat -> Quotes

  /** The Telegram message for an alert that fired at `current`. */
  function NoticeFor(a: Alert, current: real, c: Credentials): Notice
  {
    Notice(c.botToken, c.chatId, a.symbol, current, a.kind, a.price)
  }

  /** checkSingleStock on the stored list and request log: resolve the price; when the
      alert fires, send the message and then remove every stored alert with its id. */
  function CheckSingle(w: World, a: Alert, q: Quotes, c: Credentials): World
  {
    var r := Resolve(a.symbol, q);
    if ShouldTrigger(a, r.price) then
      World(WithoutId(w.alerts, a.id), w.network + r.calls + [TelegramSend(NoticeFor(a, r.price, c))])
    else
      World(w.alerts, w.network + r.calls)
  }

  /** The loop of checkStockPrices over a snapshot of the list, one alert after another. */
  function CheckAll(w: World, snapshot: seq<Alert>, feed: Feed, c: Credentials): World
  {
    if snapshot == [] then w
    else
      var n := |snapshot| - 1;
      CheckSingle(CheckAll(w, snapshot[..n], feed, c), snapshot[n], feed(n), c)
  }

  /** checkStockPrices: nothing happens when the list is empty or either Telegram
      setting is missing; otherwise every alert of the list is checked in order. */
  function Cycle(w: World, c: Credentials, feed: Feed): World
  {
    if w.alerts == [] then w
    else if !c.Configured() then w
    else CheckAll(w, w.alerts, feed, c)
  }

  /** The check of the i-th alert fires. */
  predicate Fires(a: Alert, q: Quotes)
  {
    ShouldTrigger(a, Resolve(a.symbol, q).price)
  }

  /** The ids of the alerts of the snapshot whose check fires. */
  function FiredIds(snapshot: seq<Alert>, feed: Feed): (ids: set<int>)
    ensures forall i :: 0 <= i < |snapshot| && Fires(snapshot[i], feed(i)) ==> snapshot[i].id in ids
  {
    if snapshot == [] then {}
    else
      var n := |snapshot| - 1;
      var prior := FiredIds(snapshot[..n], feed);
      assert forall i :: 0 <= i < n ==> snapshot[..n][i] == snapshot[i];
      prior + (if Fires(snapshot[n], feed(n)) then {snapshot[n].id} else {})
  }

  /** The fired ids are exactly the ids of the snapshot's alerts whose check fires. */
  lemma {:induction false} FiredIdsExactly(snapshot: seq<Alert>, feed: Feed, id: int)
    ensures id in FiredIds(snapshot, feed) <==>
      exists i :: 0 <= i < |snapshot| && snapshot[i].id == id && Fires(snapshot[i], feed(i))
  {
    if snapshot != [] {
      var n := |snapshot| - 1;
      var p := snapshot[..n];
      FiredIdsExactly(p, feed, id);
      if id in FiredIds(p, feed) {
        var i :| 0 <= i < n && p[i].id == id && Fires(p[i], feed(i));
        assert snapshot[i] == p[i];
      }
      if exists i :: 0 <= i < |snapshot| && snapshot[i].id == id && Fires(snapshot[i], feed(i)) {
        var i :| 0 <= i < |snapshot| && snapshot[i].id == id && Fires(snapshot[i], feed(i));
        if i < n {
          assert p[i] == snapshot[i];
        }
      }
    }
  }

  /** The alerts of the snapshot whose check does not fire, in order. */
  function Survivors(snapshot: seq<Alert>, feed: Feed): seq<Alert>
  {
    if snapshot == [] then []
    else
      var n := |snapshot| - 1;
      Survivors(snapshot[..n], feed) + (if Fires(snapshot[n], feed(n)) then [] else [snapshot[n]])
  }

  /** The messages the snapshot's fired alerts produce, in order. */
  function FiredNotices(snapshot: seq<Alert>, feed: Feed, c: Credentials): seq<Notice>
  {
    if snapshot == [] then []
    else
      var n := |snapshot| - 1;
      var a := snapshot[n];
      FiredNotices(snapshot[..n], feed, c)
        + (if Fires(a, feed(n)) then [NoticeFor(a, Resolve(a.symbol, feed(n)).price, c)] else [])
  }

  /** The symbols of the snapshot, in order. */
  function Symbols(snapshot: seq<Alert>): (r: seq<string>)
    ensures |r| == |snapshot|
    ensures forall i :: 0 <= i < |snapshot| ==> r[i] == snapshot[i].symbol
  {
    if snapshot == [] then [] else Symbols(snapshot[..|snapshot| - 1]) + [snapshot[|snapshot| - 1].symbol]
  }

  /** The Telegram messages among a run of requests, in order. */
  function Notices(calls: seq<Call>): seq<Notice>
  {
    if calls == [] then []
    else
      var last := calls[|calls| - 1];
      Notices(calls[..|calls| - 1]) + (if last.TelegramSend? then [last.notice] else [])
  }

  /** The symbols quoted from Financial Modeling Prep among a run of requests, in order. */
  function FmpSymbols(calls: seq<Call>): seq<string>
  {
    if calls == [] then []
    else
      var last := calls[|calls| - 1];
      FmpSymbols(calls[..|calls| - 1]) + (if last.FmpQuote? then [last.symbol] else [])
  }

  lemma {:induction false} NoticesAppend(s: seq<Call>, t: seq<Call>)
    ensures Notices(s + t) == Notices(s) + Notices(t)
    ensures FmpSymbols(s + t) == FmpSymbols(s) + FmpSymbols(t)
    decreases |t|
  {
    if t == [] {
      assert s + t == s;
    } else {
      assert (s + t)[..|s + t| - 1] == s + t[..|t| - 1];
      NoticesAppend(s, t[..|t| - 1]);
    }
  }

  /** The requests of one price lookup: one quote from Financial Modeling Prep and no
      Telegram message. */
  lemma ResolveCallsShape(symbol: string, q: Quotes)
    ensures Notices(Resolve(symbol, q).calls) == []
    ensures FmpSymbols(Resolve(symbol, q).calls) == [symbol]
  {
    var one := [FmpQuote(symbol)];
    var two := one + [TwelveDataQuote(symbol)];
    assert one[..0] == [] && one[|one| - 1] == FmpQuote(symbol);
    assert two[|two| - 1] == TwelveDataQuote(symbol);
    assert two[..1] == one;
    assert FmpSymbols(one) == FmpSymbols(one[..0]) + [symbol];
    assert Notices(one) == [] && FmpSymbols(one) == [symbol];
    assert Notices(two) == [] && FmpSymbols(two) == [symbol];
    if q.fmp.Threw? || (q.fmp.Quoted? && q.fmp.value != 0.0) {
      assert Resolve(symbol, q).calls == one;
    } else {
      assert Resolve(symbol, q).calls == two;
    }
  }

  /** After the loop, the stored list is the starting list with every alert removed whose
      id belongs to an alert that fired, and nothing else removed. */
  lemma {:induction false} CheckAllAlerts(w: World, snapshot: seq<Alert>, feed: Feed, c: Credentials)
    ensures CheckAll(w, snapshot, feed, c).alerts == WithoutIds(w.alerts, FiredIds(snapshot, feed))
  {
    if snapshot == [] {
      WithoutAbsentIds(w.alerts, {});
    } else {
      var n := |snapshot| - 1;
      var prior := FiredIds(snapshot[..n], feed);
      CheckAllAlerts(w, snapshot[..n], feed, c);
      if Fires(snapshot[n], feed(n)) {
        WithoutIdsTwice(w.alerts, prior, {snapshot[n].id});
      } else {
        assert prior + {} == prior;
      }
    }
  }

  /** One alert's check adds one Financial Modeling Prep quote for its symbol, and a
      message exactly when it fires. */
  lemma CheckSingleRequests(w: World, a: Alert, q: Quotes, c: Credentials)
    ensures Notices(CheckSingle(w, a, q, c).network) ==
      Notices(w.network) + (if Fires(a, q) then [NoticeFor(a, Resolve(a.symbol, q).price, c)] else [])
    ensures FmpSymbols(CheckSingle(w, a, q, c).network) == FmpSymbols(w.network) + [a.symbol]
  {
    var r := Resolve(a.symbol, q);
    ResolveCallsShape(a.symbol, q);
    NoticesAppend(w.network, r.calls);
    if Fires(a, q) {
      var sent := [TelegramSend(NoticeFor(a, r.price, c))];
      assert sent[..0] == [];
      NoticesAppend(w.network + r.calls, sent);
      assert CheckSingle(w, a, q, c).network == w.network + r.calls + sent;
    } else {
      assert CheckSingle(w, a, q, c).network == w.network + r.calls;
    }
  }

  /** After the loop, the request log has grown by exactly the messages of the fired
      alerts, in list order, and by one Financial Modeling Prep quote for every alert of
      the snapshot, in list order: each alert is attempted. */
  lemma {:induction false} CheckAllRequests(w: World, snapshot: seq<Alert>, feed: Feed, c: Credentials)
    ensures Notices(CheckAll(w, snapshot, feed, c).network) == Notices(w.network) + FiredNotices(snapshot, feed, c)
    ensures FmpSymbols(CheckAll(w, snapshot, feed, c).network) == FmpSymbols(w.network) + Symbols(snapshot)
  {
    if snapshot != [] {
      var n := |snapshot| - 1;
      var before := CheckAll(w, snapshot[..n], feed, c);
      assert CheckAll(w, snapshot, feed, c) == CheckSingle(before, snapshot[n], feed(n), c);
      CheckAllRequests(w, snapshot[..n], feed, c);
      CheckSingleRequests(before, snapshot[n], feed(n), c);
    }
  }

  /** Only ids of the snapshot can fire. */
  lemma {:induction false} FiredIdsAreIds(s: seq<Alert>, feed: Feed)
    ensures FiredIds(s, feed) <= Ids(s)
  {
    if s != [] {
      FiredIdsAreIds(s[..|s| - 1], feed);
    }
  }

  /** Filtering a list extended by one alert whose id appears nowhere before it. */
  lemma SurvivorStep(p: seq<Alert>, last: Alert, prior: set<int>, fired: bool)
    requires last.id !in prior && last.id !in Ids(p)
    ensures WithoutIds(p + [last], prior + (if fired then {last.id} else {})) ==
      WithoutIds(p, prior) + (if fired then [] else [last])
  {
    var s := p + [last];
    assert s[..|s| - 1] == p && s[|s| - 1] == last;
    if fired {
      WithoutIdsTwice(p, prior, {last.id});
      var kept := WithoutIds(p, prior);
      WithoutIdsMembers(p, prior);
      forall i | 0 <= i < |kept| ensures kept[i].id !in {last.id} {
        assert kept[i] in kept;
      }
      WithoutAbsentIds(kept, {last.id});
    } else {
      assert prior + {} == prior;
    }
  }

  /** With distinct ids, retiring the fired ids is the same as keeping the alerts that
      did not fire. */
  lemma {:induction false} FiredIdsLeaveSurvivors(s: seq<Alert>, feed: Feed)
    requires DistinctIds(s)
    ensures WithoutIds(s, FiredIds(s, feed)) == Survivors(s, feed)
  {
    if s != [] {
      var n := |s| - 1;
      var p := s[..n];
      var last := s[n];
      FiredIdsLeaveSurvivors(p, feed);
      FiredIdsAreIds(p, feed);
      var fired := Fires(last, feed(n));
      assert FiredIds(s, feed) == FiredIds(p, feed) + (if fired then {last.id} else {});
      assert Survivors(s, feed) == Survivors(p, feed) + (if fired then [] else [last]);
      SurvivorStep(p, last, FiredIds(p, feed), fired);
      assert s == p + [last];
    }
  }

  /** An empty list ends the cycle whatever the settings are: they are not consulted. A
      missing setting ends it before any request. Either way nothing changes. */
  lemma CycleEarlyExits(w: World, c: Credentials, c': Credentials, feed: Feed)
    ensures w.alerts == [] ==> Cycle(w, c, feed) == w && Cycle(w, c', feed) == Cycle(w, c, feed)
    ensures !c.Configured() ==> Cycle(w, c, feed) == w
  {
  }

  /** A full cycle with both settings present: the stored list loses exactly the alerts
      that fired (the others keep their order), one message goes out per fired alert in
      list order, and every alert's symbol is quoted. */
  lemma CycleOutcome(w: World, c: Credentials, feed: Feed)
    requires w.alerts != [] && c.Configured()
    requires UniqueIds(w.alerts)
    ensures Cycle(w, c, feed).alerts == Survivors(w.alerts, feed)
    ensures Notices(Cycle(w, c, feed).network) == Notices(w.network) + FiredNotices(w.alerts, feed, c)
    ensures FmpSymbols(Cycle(w, c, feed).network) == FmpSymbols(w.network) + Symbols(w.alerts)
  {
    CheckAllAlerts(w, w.alerts, feed, c);
    UniqueIdsAreDistinct(w.alerts);
    FiredIdsLeaveSurvivors(w.alerts, feed);
    CheckAllRequests(w, w.alerts, feed, c);
  }

  /** A fired alert is always retired: no stored alert keeps its id, since a failed
      message does not stop the removal. An alert whose id no fired alert shares stays;
      in particular an alert stays when no alert carrying its id fires. */
  lemma CycleRetiresFired(w: World, c: Credentials, feed: Feed, i: nat)
    requires c.Configured() && i < |w.alerts|
    ensures Fires(w.alerts[i], feed(i)) ==>
      forall a :: a in Cycle(w, c, feed).alerts ==> a.id != w.alerts[i].id
    ensures w.alerts[i].id !in FiredIds(w.alerts, feed) ==> w.alerts[i] in Cycle(w, c, feed).alerts
    ensures (forall j :: 0 <= j < |w.alerts| && w.alerts[j].id == w.alerts[i].id ==> !Fires(w.alerts[j], feed(j))) ==>
      w.alerts[i] in Cycle(w, c, feed).alerts
  {
    CheckAllAlerts(w, w.alerts, feed, c);
    WithoutIdsMembers(w.alerts, FiredIds(w.alerts, feed));
    FiredIdsExactly(w.alerts, feed, w.alerts[i].id);
  }

  /** A cycle never creates a duplicate (symbol, type) pair or a duplicate id. */
  lemma CycleKeepsUnique(w: World, c: Credentials, feed: Feed)
    ensures UniquePairs(w.alerts) ==> UniquePairs(Cycle(w, c, feed).alerts)
    ensures UniqueIds(w.alerts) ==> UniqueIds(Cycle(w, c, feed).alerts)
  {
    if w.alerts != [] && c.Configured() {
      CheckAllAlerts(w, w.alerts, feed, c);
      WithoutIdsKeepsUnique(w.alerts, FiredIds(w.alerts, feed));
    }
  }

  /** Example: a TSLA alert above 400 while both providers have no
      price, so the mock price 426.50 is used, fires, is messaged and is retired. */
  lemma TslaAboveFires()
    ensures var a := Alert(1, "TSLA", 400.0, "above", "");
      var c := Credentials("token", "chat");
      Cycle(World([a], []), c, _ => Quotes(NoPrice, NoPrice)) ==
        World([], [FmpQuote("TSLA"), TwelveDataQuote("TSLA"),
                   TelegramSend(Notice("token", "chat", "TSLA", 426.50, "above", 400.0))])
  {
    var a := Alert(1, "TSLA", 400.0, "above", "");
    assert [a][..0] == [];
    assert MockPrice("TSLA") == 426.50;
    assert WithoutIds([a], {1}) == [];
  }

  /** Example: an AAPL alert below 100 at the mock price 175.20
      does not fire; the alert stays and no message is sent. */
  lemma AaplBelowHolds()
    ensures var a := Alert(2, "AAPL", 100.0, "below", "");
      var c := Credentials("token", "chat");
      Cycle(World([a], []), c, _ => Quotes(Threw, NoPrice)) == World([a], [FmpQuote("AAPL")])
  {
    var a := Alert(2, "AAPL", 100.0, "below", "");
    assert [a][..0] == [];
    assert MockPrice("AAPL") == 175.20;
  }

  // ---------------------------------------------------------------------------
  // The cycle on the browser state

  /** getCurrentStockPrice: the quote requests go out and the resolved price comes back. */
  method GetCurrentStockPrice(b: Browser, symbol: string, q: Quotes) returns (price: real)
    modifies b
    ensures price == Resolve(symbol, q).price
    ensures b.network == old(b.network) + Resolve(symbol, q).calls
    ensures b.stockAlerts == old(b.stockAlerts) && b.credentials == old(b.credentials)
    ensures b.alarms == old(b.alarms)
  {
    var r := Resolve(symbol, q);
    b.network := b.network + r.calls;
    price := r.price;
  }

  /** sendTelegramMessage: the request goes out; a failure is logged and swallowed, so
      the caller always carries on. */
  method SendTelegramMessage(b: Browser, notice: Notice)
    modifies b
    ensures b.network == old(b.network) + [TelegramSend(notice)]
    ensures b.stockAlerts == old(b.stockAlerts) && b.credentials == old(b.credentials)
    ensures b.alarms == old(b.alarms)
  {
    b.network := b.network + [TelegramSend(notice)];
  }

  /** removeTriggeredAlert: load the stored list, drop every entry with this id, save. */
  method RemoveTriggeredAlert(b: Browser, id: int)
    modifies b
    ensures b.stockAlerts == WithoutId(old(b.stockAlerts), id)
    ensures b.credentials == old(b.credentials) && b.alarms == old(b.alarms)
    ensures b.network == old(b.network)
  {
    var alerts := b.stockAlerts;
    var updated := WithoutId(alerts, id);
    b.stockAlerts := updated;
  }

  /** checkSingleStock. */
  method CheckSingleStock(b: Browser, a: Alert, q: Quotes, settings: Credentials)
    modifies b
    ensures b.View() == CheckSingle(old(b.View()), a, q, settings)
    ensures b.credentials == old(b.credentials) && b.alarms == old(b.alarms)
  {
    var currentPrice := GetCurrentStockPrice(b, a.symbol, q);
    var shouldAlert := false;
    if a.kind == "above" && currentPrice >= a.price {
      shouldAlert := true;
    } else if a.kind == "below" && currentPrice <= a.price {
      shouldAlert := true;
    }
    if shouldAlert {
      SendTelegramMessage(b, NoticeFor(a, currentPrice, settings));
      RemoveTriggeredAlert(b, a.id);
    }
  }

  /** checkStockPrices: one cycle over the list as it was stored when the cycle began. */
  method CheckStockPrices(b: Browser, feed: Feed)
    modifies b
    ensures b.View() == Cycle(old(b.View()), old(b.credentials), feed)
    ensures b.credentials == old(b.credentials) && b.alarms == old(b.alarms)
  {
    var alerts := b.stockAlerts;
    if |alerts| == 0 {
      return;
    }
    var settings := b.credentials;
    if settings.botToken == "" || settings.chatId == "" {
      return;
    }
    ghost var start := b.View();
    for i := 0 to |alerts|
      invariant b.View() == CheckAll(start, alerts[..i], feed, settings)
      invariant b.credentials == settings && b.alarms == old(b.alarms)
    {
      assert alerts[..i + 1][..i] == alerts[..i];
      CheckSingleStock(b, alerts[i], feed(i), settings);
    }
    assert alerts[..|alerts|] == alerts;
  }

  /** The alarm listener: the checker's alarm starts a cycle; any other alarm is ignored. */
  method OnAlarm(b: Browser, name: string, feed: Feed)
    modifies b
    ensures b.View() == if name == AlarmName then Cycle(old(b.View()), old(b.credentials), feed) else old(b.View())
    ensures b.credentials == old(b.credentials) && b.alarms == old(b.alarms)
  {
    if name == AlarmName {
      CheckStockPrices(b, feed);
    }
  }
}
