/** `alerts_list.sort(key=lambda a: a.get('start_time', 0))` (app.py:257).
    The key is always present, possibly None, so the default never applies.
    When every key is an integer the list is sorted stably by it; when a
    list of two or more alerts holds a None key, comparing it raises
    TypeError. */
module AlertOrder {
  import opened Wrappers
  import opened Alerts

  predicate Keyed(a: AlertRecord)
  {
    a.startTime.Some?
  }

  predicate AllKeyed(s: seq<AlertRecord>)
  {
    forall i :: 0 <= i < |s| ==> Keyed(s[i])
  }

  function Key(a: AlertRecord): int
    requires Keyed(a)
  {
    a.startTime.value
  }

  predicate SortedByStart(s: seq<AlertRecord>)
    requires AllKeyed(s)
  {
    forall i, j :: 0 <= i < j < |s| ==> Key(s[i]) <= Key(s[j])
  }

  /** The alerts whose start time is `k`, in list order. */
  function WithStart(s: seq<AlertRecord>, k: int): (r: seq<AlertRecord>)
    ensures forall i :: 0 <= i < |r| ==> r[i].startTime == Some(k)
  {
    if s == [] then []
    else (if s[0].startTime == Some(k) then [s[0]] else []) + WithStart(s[1..], k)
  }

  /** Places `x` in front of the first element whose key is not smaller, so
      that `x` stays ahead of the equal keys that followed it in the input. */
  function Insert(x: AlertRecord, s: seq<AlertRecord>): (r: seq<AlertRecord>)
    requires Keyed(x) && AllKeyed(s)
    ensures AllKeyed(r)
    ensures multiset(r) == multiset(s) + multiset{x}
  {
    if s == [] then [x]
    else if Key(x) <= Key(s[0]) then [x] + s
    else
      assert s == [s[0]] + s[1..];
      [s[0]] + Insert(x, s[1..])
  }

  /** Insertion puts either `x` or the old head in front. */
  lemma InsertHead(x: AlertRecord, s: seq<AlertRecord>)
    requires Keyed(x) && AllKeyed(s)
    ensures Insert(x, s) != []
    ensures Insert(x, s)[0] == x || (s != [] && Insert(x, s)[0] == s[0])
  {
  }

  /** A sorted list stays sorted under a head no greater than its first key. */
  lemma SortedCons(a: AlertRecord, rest: seq<AlertRecord>)
    requires Keyed(a) && AllKeyed(rest) && SortedByStart(rest)
    requires rest != [] ==> Key(a) <= Key(rest[0])
    ensures AllKeyed([a] + rest) && SortedByStart([a] + rest)
  {
    var r := [a] + rest;
    forall i, j | 0 <= i < j < |r| ensures Key(r[i]) <= Key(r[j]) {
      if i == 0 && j > 1 {
        assert r[j] == rest[j - 1];
        assert Key(rest[0]) <= Key(rest[j - 1]);
      }
    }
  }

  lemma {:induction false} InsertSorted(x: AlertRecord, s: seq<AlertRecord>)
    requires Keyed(x) && AllKeyed(s) && SortedByStart(s)
    ensures SortedByStart(Insert(x, s))
    decreases |s|
  {
    if s == [] {
    } else if Key(x) <= Key(s[0]) {
      SortedCons(x, s);
    } else {
      var rest := Insert(x, s[1..]);
      InsertSorted(x, s[1..]);
      InsertHead(x, s[1..]);
      if rest[0] != x {
        assert rest[0] == s[1];
      }
      SortedCons(s[0], rest);
    }
  }

  /** Stable insertion sort by start time. */
  function SortByStart(s: seq<AlertRecord>): (r: seq<AlertRecord>)
    requires AllKeyed(s)
    ensures AllKeyed(r) && SortedByStart(r)
    ensures multiset(r) == multiset(s)
  {
    if s == [] then []
    else
      assert s == [s[0]] + s[1..];
      InsertSorted(s[0], SortByStart(s[1..]));
      Insert(s[0], SortByStart(s[1..]))
  }

  /** The sort step as the handler meets it. */
  function OrderAlerts(s: seq<AlertRecord>): (r: Result<seq<AlertRecord>>)
    ensures r.Raised? <==> |s| >= 2 && !AllKeyed(s)
    ensures r.Raised? ==> r.fault == Unorderable
    ensures r.Ok? ==> multiset(r.value) == multiset(s)
    ensures r.Ok? && |s| >= 2 ==> AllKeyed(r.value) && SortedByStart(r.value)
  {
    if |s| < 2 then Ok(s)
    else if AllKeyed(s) then Ok(SortByStart(s))
    else Raised(Unorderable)
  }

  // ---------------------------------------------------------------------
  // Stability
  // ---------------------------------------------------------------------

  /** WithStart takes a list apart one alert at a time. */
  lemma WithStartCons(h: AlertRecord, s: seq<AlertRecord>, k: int)
    ensures WithStart([h] + s, k) == (if h.startTime == Some(k) then [h] else []) + WithStart(s, k)
  {
    assert ([h] + s)[1..] == s;
  }

  lemma {:induction false} InsertOtherKey(x: AlertRecord, s: seq<AlertRecord>, k: int)
    requires Keyed(x) && AllKeyed(s) && Key(x) != k
    ensures WithStart(Insert(x, s), k) == WithStart(s, k)
    decreases |s|
  {
    if s == [] {
      WithStartCons(x, [], k);
    } else if Key(x) <= Key(s[0]) {
      WithStartCons(x, s, k);
    } else {
      InsertOtherKey(x, s[1..], k);
      WithStartCons(s[0], Insert(x, s[1..]), k);
      WithStartCons(s[0], s[1..], k);
      assert [s[0]] + s[1..] == s;
    }
  }

  /** The inserted alert goes in front of the alerts with its own key. */
  lemma {:induction false} InsertSameKey(x: AlertRecord, s: seq<AlertRecord>)
    requires Keyed(x) && AllKeyed(s)
    ensures WithStart(Insert(x, s), Key(x)) == [x] + WithStart(s, Key(x))
    decreases |s|
  {
    if s == [] {
      WithStartCons(x, [], Key(x));
    } else if Key(x) <= Key(s[0]) {
      WithStartCons(x, s, Key(x));
    } else {
      InsertSameKey(x, s[1..]);
      WithStartCons(s[0], Insert(x, s[1..]), Key(x));
      WithStartCons(s[0], s[1..], Key(x));
      assert [s[0]] + s[1..] == s;
    }
  }

  /** Stability: for every key, the alerts with that key keep their input
      order. With sortedness this determines the result completely. */
  lemma {:induction false} SortIsStable(s: seq<AlertRecord>, k: int)
    requires AllKeyed(s)
    ensures WithStart(SortByStart(s), k) == WithStart(s, k)
    decreases |s|
  {
    if s != [] {
      SortIsStable(s[1..], k);
      if Key(s[0]) == k {
        InsertSameKey(s[0], SortByStart(s[1..]));
      } else {
        InsertOtherKey(s[0], SortByStart(s[1..]), k);
      }
    }
  }

  lemma {:induction false} WithStartMember(s: seq<AlertRecord>, i: nat)
    requires i < |s| && Keyed(s[i])
    ensures s[i] in WithStart(s, Key(s[i]))
    decreases i
  {
    if i > 0 {
      WithStartMember(s[1..], i - 1);
      assert s[1..][i - 1] == s[i];
    }
  }

  lemma {:induction false} WithStartIn(s: seq<AlertRecord>, k: int, x: AlertRecord)
    requires x in WithStart(s, k)
    ensures x in s
    decreases |s|
  {
    if s[0] != x {
      WithStartIn(s[1..], k, x);
    }
  }

  /** Two lists with the same alerts per key are empty together. */
  lemma SameKeysBothEmpty(r1: seq<AlertRecord>, r2: seq<AlertRecord>)
    requires AllKeyed(r1) && AllKeyed(r2)
    requires forall k :: WithStart(r1, k) == WithStart(r2, k)
    ensures r1 == [] <==> r2 == []
  {
    if r1 != [] {
      WithStartMember(r1, 0);
      assert WithStart(r2, Key(r1[0])) != [];
    }
    if r2 != [] {
      WithStartMember(r2, 0);
      assert WithStart(r1, Key(r2[0])) != [];
    }
  }

  /** A sorted list's first key is its smallest. */
  lemma HeadKeyIsLeast(r: seq<AlertRecord>, x: AlertRecord)
    requires AllKeyed(r) && SortedByStart(r) && r != [] && x in r
    ensures Key(r[0]) <= Key(x)
  {
    var j :| 0 <= j < |r| && r[j] == x;
  }

  /** Sortedness and per-key order pin the result down: any sorted list
      with the same alerts per key, in the same order, is the stable sort.
      This is the sense in which SortByStart is Python's sort. */
  lemma {:induction false} StableSortUnique(r1: seq<AlertRecord>, r2: seq<AlertRecord>)
    requires AllKeyed(r1) && AllKeyed(r2) && SortedByStart(r1) && SortedByStart(r2)
    requires forall k :: WithStart(r1, k) == WithStart(r2, k)
    ensures r1 == r2
    decreases |r1|
  {
    SameKeysBothEmpty(r1, r2);
    if r1 != [] {
      var m1, m2 := Key(r1[0]), Key(r2[0]);
      WithStartMember(r1, 0);
      WithStartMember(r2, 0);
      WithStartIn(r2, m1, r1[0]);
      HeadKeyIsLeast(r2, r1[0]);
      WithStartIn(r1, m2, r2[0]);
      HeadKeyIsLeast(r1, r2[0]);
      assert m1 == m2;
      assert WithStart(r1, m1)[0] == r1[0];
      assert WithStart(r2, m1)[0] == r2[0];
      forall k ensures WithStart(r1[1..], k) == WithStart(r2[1..], k) {
        var head := if r1[0].startTime == Some(k) then [r1[0]] else [];
        assert WithStart(r1, k) == head + WithStart(r1[1..], k);
        assert WithStart(r2, k) == head + WithStart(r2[1..], k);
        assert (head + WithStart(r1[1..], k))[|head|..] == WithStart(r1[1..], k);
        assert (head + WithStart(r2[1..], k))[|head|..] == WithStart(r2[1..], k);
      }
      StableSortUnique(r1[1..], r2[1..]);
      assert r1 == [r1[0]] + r1[1..] && r2 == [r2[0]] + r2[1..];
    }
  }

  /** The sort of the handler is the only sorted rearrangement that keeps
      the feed order among equal start times. */
  lemma SortByStartCharacterised(s: seq<AlertRecord>, r: seq<AlertRecord>)
    requires AllKeyed(s) && AllKeyed(r) && SortedByStart(r)
    requires forall k :: WithStart(r, k) == WithStart(s, k)
    ensures r == SortByStart(s)
  {
    forall k ensures WithStart(r, k) == WithStart(SortByStart(s), k) {
      SortIsStable(s, k);
    }
    StableSortUnique(r, SortByStart(s));
  }

  /** What the sort step yields: a list of fewer than two alerts is kept as
      is; a longer one is sorted stably when every start time is set and
      fails as soon as one is None. */
  lemma OrderAlertsOutcome(s: seq<AlertRecord>)
    ensures |s| < 2 ==> OrderAlerts(s) == Ok(s)
    ensures |s| >= 2 && (exists i :: 0 <= i < |s| && s[i].startTime.None?) ==> OrderAlerts(s) == Raised(Unorderable)
    ensures OrderAlerts(s).Ok? && AllKeyed(s) ==>
      var r := OrderAlerts(s).value;
      && AllKeyed(r) && SortedByStart(r)
      && multiset(r) == multiset(s)
      && forall k :: WithStart(r, k) == WithStart(s, k)
  {
    if OrderAlerts(s).Ok? && AllKeyed(s) {
      forall k ensures WithStart(OrderAlerts(s).value, k) == WithStart(s, k) {
        if |s| >= 2 { SortIsStable(s, k); }
      }
    }
  }

  /** An alert with start 100 next to one without a start: the comparison
      raises, so the handler answers `[]` instead of putting the undated
      alert first. */
  lemma UndatedAlertBreaksSort(dated: AlertRecord, undated: AlertRecord)
    requires dated.startTime == Some(100) && undated.startTime == None
    ensures OrderAlerts([dated, undated]) == Raised(Unorderable)
    ensures OrderAlerts([undated, dated]) == Raised(Unorderable)
  {
    assert [dated, undated][1].startTime.None?;
    assert [undated, dated][0].startTime.None?;
  }
}
