/** The stored alert records and the list operations both the popup and the background
    checker perform on the `stockAlerts` list. */
module Alerts {

  /** One stored alert. `kind` is the `type` field, compared as a string ("above",
      "below"); `id` is the creation time in milliseconds; `created` its ISO text. */
  datatype Alert = Alert(id: int, symbol: string, price: real, kind: string, created: string)

  /** The list filtered by `alert => !ids.has(alert.id)`, order kept. */
  function WithoutIds(alerts: seq<Alert>, ids: set<int>): (r: seq<Alert>)
    ensures |r| <= |alerts|
  {
    if alerts == [] then []
    else
      var last := alerts[|alerts| - 1];
      WithoutIds(alerts[..|alerts| - 1], ids) + (if last.id in ids then [] else [last])
  }

  /** The filter keeps exactly the entries whose id is not in the set. */
  lemma {:induction false} WithoutIdsMembers(alerts: seq<Alert>, ids: set<int>)
    ensures forall a :: a in WithoutIds(alerts, ids) <==> a in alerts && a.id !in ids
  {
    if alerts != [] {
      var p := alerts[..|alerts| - 1];
      var last := alerts[|alerts| - 1];
      WithoutIdsMembers(p, ids);
      assert alerts == p + [last];
    }
  }

  /** `alerts.filter(alert => alert.id !== id)`. */
  function WithoutId(alerts: seq<Alert>, id: int): (r: seq<Alert>)
    ensures forall a :: a in r <==> a in alerts && a.id != id
  {
    WithoutIdsMembers(alerts, {id});
    WithoutIds(alerts, {id})
  }

  /** Filtering distributes over concatenation: the kept entries stay in their order. */
  lemma {:induction false} WithoutIdsAppend(s: seq<Alert>, t: seq<Alert>, ids: set<int>)
    ensures WithoutIds(s + t, ids) == WithoutIds(s, ids) + WithoutIds(t, ids)
    decreases |t|
  {
    if t == [] {
      assert s + t == s;
    } else {
      var last := t[|t| - 1];
      assert (s + t)[..|s + t| - 1] == s + t[..|t| - 1];
      WithoutIdsAppend(s, t[..|t| - 1], ids);
    }
  }

  /** Filtering twice removes the union of the two id sets. */
  lemma {:induction false} WithoutIdsTwice(s: seq<Alert>, x: set<int>, y: set<int>)
    ensures WithoutIds(WithoutIds(s, x), y) == WithoutIds(s, x + y)
  {
    if s != [] {
      var p := s[..|s| - 1];
      var last := s[|s| - 1];
      WithoutIdsTwice(p, x, y);
      var tail := if last.id in x then [] else [last];
      WithoutIdsAppend(WithoutIds(p, x), tail, y);
    }
  }

  /** When no entry carries one of the ids, filtering leaves the list as it was. */
  lemma {:induction false} WithoutAbsentIds(s: seq<Alert>, ids: set<int>)
    requires forall i :: 0 <= i < |s| ==> s[i].id !in ids
    ensures WithoutIds(s, ids) == s
  {
    if s != [] {
      var p := s[..|s| - 1];
      var last := s[|s| - 1];
      forall i | 0 <= i < |p| ensures p[i].id !in ids {
        assert p[i] == s[i];
      }
      WithoutAbsentIds(p, ids);
      assert p + [last] == s;
    }
  }

  /** Removing an id is idempotent, and removing an absent id changes nothing. */
  lemma WithoutIdIdempotent(s: seq<Alert>, id: int)
    ensures WithoutId(WithoutId(s, id), id) == WithoutId(s, id)
    ensures (forall a :: a in s ==> a.id != id) ==> WithoutId(s, id) == s
  {
    WithoutIdsTwice(s, {id}, {id});
    assert {id} + {id} == {id};
    if forall a :: a in s ==> a.id != id {
      forall i | 0 <= i < |s| ensures s[i].id !in {id} {
        assert s[i] in s;
      }
      WithoutAbsentIds(s, {id});
    }
  }

  /** Some entry has this (symbol, type) pair: `alerts.find(a => a.symbol === symbol &&
      a.type === type)` returns an alert. */
  predicate HasPair(alerts: seq<Alert>, symbol: string, kind: string)
  {
    exists a :: a in alerts && a.symbol == symbol && a.kind == kind
  }

  /** At most one alert per (symbol, type) pair. */
  predicate UniquePairs(alerts: seq<Alert>)
  {
    forall i, j :: 0 <= i < j < |alerts| ==>
      !(alerts[i].symbol == alerts[j].symbol && alerts[i].kind == alerts[j].kind)
  }

  /** No two entries share an id. */
  predicate UniqueIds(alerts: seq<Alert>)
  {
    forall i, j :: 0 <= i < j < |alerts| ==> alerts[i].id != alerts[j].id
  }

  /** The ids in use. */
  function Ids(alerts: seq<Alert>): (ids: set<int>)
    ensures forall a :: a in alerts ==> a.id in ids
  {
    if alerts == [] then {} else Ids(alerts[..|alerts| - 1]) + {alerts[|alerts| - 1].id}
  }

  /** UniqueIds, one appended alert at a time: each id is new when it is appended. */
  predicate DistinctIds(alerts: seq<Alert>)
  {
    alerts == [] ||
    (DistinctIds(alerts[..|alerts| - 1]) && alerts[|alerts| - 1].id !in Ids(alerts[..|alerts| - 1]))
  }

  /** The two ways of saying that no id repeats agree. */
  lemma {:induction false} UniqueIdsAreDistinct(s: seq<Alert>)
    requires UniqueIds(s)
    ensures DistinctIds(s)
  {
    if s != [] {
      var p := s[..|s| - 1];
      var last := s[|s| - 1];
      assert s == p + [last];
      UniqueIdsAppend(p, last);
      UniqueIdsAreDistinct(p);
      IdsAreUsed(p, last.id);
    }
  }

  /** Ids holds exactly the ids the entries carry. */
  lemma {:induction false} IdsAreUsed(s: seq<Alert>, id: int)
    ensures id in Ids(s) <==> exists a :: a in s && a.id == id
  {
    if s != [] {
      var p := s[..|s| - 1];
      var last := s[|s| - 1];
      IdsAreUsed(p, id);
      assert s == p + [last];
      if id in Ids(p) {
        var a :| a in p && a.id == id;
        assert a in s;
      }
    }
  }

  /** Appending keeps the pairs unique exactly when the new pair is not there yet. */
  lemma UniquePairsAppend(s: seq<Alert>, a: Alert)
    ensures UniquePairs(s + [a]) <==> UniquePairs(s) && !HasPair(s, a.symbol, a.kind)
  {
    var t := s + [a];
    if UniquePairs(t) {
      assert UniquePairs(s) by {
        forall i, j | 0 <= i < j < |s|
          ensures !(s[i].symbol == s[j].symbol && s[i].kind == s[j].kind)
        {
          assert s[i] == t[i] && s[j] == t[j];
        }
      }
      forall b | b in s ensures !(b.symbol == a.symbol && b.kind == a.kind) {
        var i :| 0 <= i < |s| && s[i] == b;
        assert t[i] == b && t[|s|] == a;
      }
    }
    if UniquePairs(s) && !HasPair(s, a.symbol, a.kind) {
      forall i, j | 0 <= i < j < |t|
        ensures !(t[i].symbol == t[j].symbol && t[i].kind == t[j].kind)
      {
        if j == |s| {
          assert t[i] in s;
        } else {
          assert t[i] == s[i] && t[j] == s[j];
        }
      }
    }
  }

  /** Appending keeps the ids unique exactly when the new id is not there yet. */
  lemma UniqueIdsAppend(s: seq<Alert>, a: Alert)
    ensures UniqueIds(s + [a]) <==> UniqueIds(s) && forall b :: b in s ==> b.id != a.id
  {
    var t := s + [a];
    if UniqueIds(t) {
      assert UniqueIds(s) by {
        forall i, j | 0 <= i < j < |s| ensures s[i].id != s[j].id {
          assert s[i] == t[i] && s[j] == t[j];
        }
      }
      forall b | b in s ensures b.id != a.id {
        var i :| 0 <= i < |s| && s[i] == b;
        assert t[i] == b && t[|s|] == a;
      }
    }
    if UniqueIds(s) && forall b :: b in s ==> b.id != a.id {
      forall i, j | 0 <= i < j < |t| ensures t[i].id != t[j].id {
        if j == |s| {
          assert t[i] in s;
        } else {
          assert t[i] == s[i] && t[j] == s[j];
        }
      }
    }
  }

  /** Filtering by id never creates a duplicate (symbol, type) pair or a duplicate id. */
  lemma {:induction false} WithoutIdsKeepsUnique(s: seq<Alert>, ids: set<int>)
    ensures UniquePairs(s) ==> UniquePairs(WithoutIds(s, ids))
    ensures UniqueIds(s) ==> UniqueIds(WithoutIds(s, ids))
  {
    if s != [] {
      var p := s[..|s| - 1];
      var last := s[|s| - 1];
      assert s == p + [last];
      WithoutIdsKeepsUnique(p, ids);
      UniquePairsAppend(p, last);
      UniqueIdsAppend(p, last);
      var w := WithoutIds(p, ids);
      WithoutIdsMembers(p, ids);
      if last.id !in ids {
        UniquePairsAppend(w, last);
        UniqueIdsAppend(w, last);
        if HasPair(w, last.symbol, last.kind) {
          var b :| b in w && b.symbol == last.symbol && b.kind == last.kind;
          assert b in p;
        }
      }
    }
  }
}
