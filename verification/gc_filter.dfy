// Which objects a collector run lists (common/gc/filter.go), and what the re-check before the delete adds
// (isReapable and agedOut). Times and durations are in nanoseconds.
module GcFilter {
  import opened Options
  import opened Lifecycle

  const SECOND := 1_000_000_000

  // What the filter asks of an object. `time` is None for the zero time; `index` is used by the optional cap only.
  datatype Item = Item(id: nat, candidate: bool, terminating: bool, time: Option<int>, index: string)

  /** time.Duration.Truncate(time.Second), which rounds toward zero. */
  function Truncate(d: int): (r: int)
    ensures r % SECOND == 0
    ensures d >= 0 ==> r <= d < r + SECOND
    ensures d < 0 ==> r - SECOND < d <= r
  {
    if d >= 0 then d / SECOND * SECOND else -(-d / SECOND * SECOND)
  }

  function Age(o: Item, now: int): int {
    if o.time.None? then 0 else Truncate(now - o.time.value)
  }

  predicate Eligible(o: Item) {
    o.candidate && !o.terminating
  }

  /** The eligible objects older than ttl (or, if `aged` is false, the others), in order. */
  function Select(objs: seq<Item>, ttl: int, now: int, aged: bool): (r: seq<Item>)
    ensures forall o :: o in r <==> o in objs && Eligible(o) && (Age(o, now) > ttl) == aged
  {
    if objs == [] then []
    else
      var front, last := objs[..|objs| - 1], objs[|objs| - 1];
      Select(front, ttl, now, aged) + if Eligible(last) && (Age(last, now) > ttl) == aged then [last] else []
  }

  /** What Select asks of an object, written out. */
  predicate Asked(o: Item, ttl: int, now: int, aged: bool) {
    && o.candidate && !o.terminating
    && aged == if o.time.Some? then Truncate(now - o.time.value) > ttl else 0 > ttl
  }

  function Occurrences(s: seq<Item>, o: Item): nat {
    multiset(s)[o]
  }

  lemma AskedIsSelected(o: Item, ttl: int, now: int, aged: bool)
    ensures Asked(o, ttl, now, aged) <==> Eligible(o) && (Age(o, now) > ttl) == aged
  {}

  lemma SelectUnfolds(objs: seq<Item>, ttl: int, now: int, aged: bool)
    requires objs != []
    ensures var front, last := objs[..|objs| - 1], objs[|objs| - 1];
            Select(objs, ttl, now, aged) == Select(front, ttl, now, aged) + if Asked(last, ttl, now, aged) then [last] else []
  {
    AskedIsSelected(objs[|objs| - 1], ttl, now, aged);
  }

  lemma OccurrencesAppend(s: seq<Item>, last: Item, o: Item)
    ensures Occurrences(s + [last], o) == Occurrences(s, o) + if last == o then 1 else 0
  {
    Appended(s, last);
  }

  /** Every object asked for is taken as often as it is there, and nothing else is taken. */
  lemma {:induction false} SelectCounts(objs: seq<Item>, ttl: int, now: int, aged: bool, o: Item)
    ensures Occurrences(Select(objs, ttl, now, aged), o) == if Asked(o, ttl, now, aged) then Occurrences(objs, o) else 0
  {
    if objs != [] {
      var front, last := objs[..|objs| - 1], objs[|objs| - 1];
      var taken := Select(front, ttl, now, aged);
      SelectCounts(front, ttl, now, aged, o);
      SelectUnfolds(objs, ttl, now, aged);
      assert objs == front + [last];
      OccurrencesAppend(front, last, o);
      if Asked(last, ttl, now, aged) {
        OccurrencesAppend(taken, last, o);
      } else {
        assert taken + [] == taken;
      }
    }
  }

  predicate Increasing(s: seq<nat>) {
    forall i, j | 0 <= i < j < |s| :: s[i] < s[j]
  }

  // `taken` are the items of `objs` at the positions `at`, in order.
  predicate TakenAt(objs: seq<Item>, taken: seq<Item>, at: seq<nat>) {
    && |at| == |taken| && Increasing(at)
    && forall k | 0 <= k < |at| :: at[k] < |objs| && taken[k] == objs[at[k]]
  }

  lemma TakenAtAppend(objs: seq<Item>, taken: seq<Item>, at: seq<nat>, last: Item)
    requires TakenAt(objs, taken, at)
    ensures TakenAt(objs + [last], taken, at)
    ensures TakenAt(objs + [last], taken + [last], at + [|objs|])
  {}

  lemma TakenStep(front: seq<Item>, taken: seq<Item>, at: seq<nat>, last: Item, more: bool)
    requires TakenAt(front, taken, at)
    ensures TakenAt(front + [last], taken + if more then [last] else [], at + if more then [|front|] else [])
  {
    TakenAtAppend(front, taken, at, last);
    assert taken + [] == taken && at + [] == at;
  }

  /** The order is that of the list: what is taken stands at increasing positions of it. */
  lemma {:induction false} SelectInOrder(objs: seq<Item>, ttl: int, now: int, aged: bool) returns (at: seq<nat>)
    ensures TakenAt(objs, Select(objs, ttl, now, aged), at)
  {
    if objs == [] {
      at := [];
    } else {
      var front, last := objs[..|objs| - 1], objs[|objs| - 1];
      var more := Asked(last, ttl, now, aged);
      at := SelectInOrder(front, ttl, now, aged);
      TakenStep(front, Select(front, ttl, now, aged), at, last, more);
      at := at + if more then [|front|] else [];
      SelectUnfolds(objs, ttl, now, aged);
      assert front + [last] == objs;
    }
  }

  // ---- the cap per index ----

  function Count(s: seq<Item>, index: string): nat {
    if s == [] then 0
    else Count(s[..|s| - 1], index) + if s[|s| - 1].index == index then 1 else 0
  }

  /** Count is the number of positions that have the index. */
  lemma {:induction false} CountIsNumber(s: seq<Item>, index: string)
    ensures Count(s, index) == |set i: nat | i < |s| && s[i].index == index|
  {
    var all := set i: nat | i < |s| && s[i].index == index;
    if s == [] {
      assert all == {};
    } else {
      var n := |s| - 1;
      var front := set i: nat | i < n && s[..n][i].index == index;
      CountIsNumber(s[..n], index);
      assert all == front + if s[n].index == index then {n} else {};
    }
  }

  /** The items that come after the first maxCount of their index. */
  function Overflow(order: seq<Item>, maxCount: nat): seq<Item> {
    if order == [] then []
    else
      var front, last := order[..|order| - 1], order[|order| - 1];
      Overflow(front, maxCount) + if Count(front, last.index) >= maxCount then [last] else []
  }

  /** The first maxCount items of every index. */
  function Kept(order: seq<Item>, maxCount: nat): seq<Item> {
    if order == [] then []
    else
      var front, last := order[..|order| - 1], order[|order| - 1];
      Kept(front, maxCount) + if Count(front, last.index) >= maxCount then [] else [last]
  }

  predicate SortedByAge(s: seq<Item>, now: int) {
    forall i, j | 0 <= i < j < |s| :: Age(s[i], now) <= Age(s[j], now)
  }

  lemma Appended(s: seq<Item>, o: Item)
    ensures multiset(s + [o]) == multiset(s) + multiset{o}
  {}

  lemma CountAppend(s: seq<Item>, o: Item, index: string)
    ensures Count(s + [o], index) == Count(s, index) + if o.index == index then 1 else 0
  {
    assert (s + [o])[..|s|] == s;
  }

  /** One more item goes to one of the two parts. */
  lemma PartitionStep(kept: seq<Item>, dropped: seq<Item>, front: seq<Item>, o: Item,
                      kept': seq<Item>, dropped': seq<Item>, all: seq<Item>)
    requires multiset(kept) + multiset(dropped) == multiset(front) && all == front + [o]
    requires (kept' == kept + [o] && dropped' == dropped) || (kept' == kept && dropped' == dropped + [o])
    ensures multiset(kept') + multiset(dropped') == multiset(all)
  {
    Appended(front, o);
    if kept' == kept + [o] && dropped' == dropped {
      Appended(kept, o);
    } else {
      Appended(dropped, o);
    }
  }

  lemma CapUnfolds(order: seq<Item>, maxCount: nat)
    requires order != []
    ensures var front, last := order[..|order| - 1], order[|order| - 1];
            var kept, dropped := Kept(front, maxCount), Overflow(front, maxCount);
            || (Kept(order, maxCount) == kept + [last] && Overflow(order, maxCount) == dropped)
            || (Kept(order, maxCount) == kept && Overflow(order, maxCount) == dropped + [last])
  {}

  lemma {:induction false} CapPartitions(order: seq<Item>, maxCount: nat)
    ensures multiset(Kept(order, maxCount)) + multiset(Overflow(order, maxCount)) == multiset(order)
  {
    if order != [] {
      var front, last := order[..|order| - 1], order[|order| - 1];
      CapPartitions(front, maxCount);
      CapUnfolds(order, maxCount);
      assert order == front + [last];
      PartitionStep(Kept(front, maxCount), Overflow(front, maxCount), front, last,
                    Kept(order, maxCount), Overflow(order, maxCount), order);
    }
  }

  /** Of every index, all but the first maxCount are dropped. */
  lemma {:induction false} CapCounts(order: seq<Item>, maxCount: nat, index: string)
    ensures Count(Kept(order, maxCount), index) == if Count(order, index) < maxCount then Count(order, index) else maxCount
    ensures Count(Kept(order, maxCount), index) + Count(Overflow(order, maxCount), index) == Count(order, index)
  {
    if order != [] {
      var front, last := order[..|order| - 1], order[|order| - 1];
      CapCounts(front, maxCount, index);
      CountAppend(Overflow(front, maxCount), last, index);
      CountAppend(Kept(front, maxCount), last, index);
      if Count(front, last.index) >= maxCount {
        assert Kept(order, maxCount) == Kept(front, maxCount);
      } else {
        assert Overflow(order, maxCount) == Overflow(front, maxCount);
      }
    }
  }

  lemma {:induction false} OverflowIsFull(order: seq<Item>, maxCount: nat, o: Item)
    requires o in Overflow(order, maxCount)
    ensures o in order && Count(order, o.index) > maxCount
  {
    var front, last := order[..|order| - 1], order[|order| - 1];
    if o in Overflow(front, maxCount) {
      OverflowIsFull(front, maxCount, o);
    }
  }

  lemma {:induction false} KeptIsFrom(order: seq<Item>, maxCount: nat, o: Item)
    requires o in Kept(order, maxCount)
    ensures o in order
  {
    var front := order[..|order| - 1];
    if o in Kept(front, maxCount) {
      KeptIsFrom(front, maxCount, o);
    }
  }

  /** No kept item is older than a dropped one of its index. */
  lemma {:induction false} KeptAreYoungest(order: seq<Item>, maxCount: nat, now: int, kept: Item, dropped: Item)
    requires SortedByAge(order, now)
    requires kept in Kept(order, maxCount) && dropped in Overflow(order, maxCount) && kept.index == dropped.index
    ensures Age(kept, now) <= Age(dropped, now)
  {
    var front, last := order[..|order| - 1], order[|order| - 1];
    if kept in Kept(front, maxCount) && dropped in Overflow(front, maxCount) {
      KeptAreYoungest(front, maxCount, now, kept, dropped);
    } else if dropped in Overflow(front, maxCount) {
      OverflowIsFull(front, maxCount, dropped);
      assert false;
    } else {
      KeptIsFrom(order, maxCount, kept);
      var i :| 0 <= i < |order| && order[i] == kept;
    }
  }

  // ---- the filter ----

  /** What a run may list: the expired objects in order, then the overflow of some order by age of the rest. */
  ghost predicate Lists(objs: seq<Item>, ttl: int, indexed: bool, maxCount: int, now: int, result: seq<Item>) {
    if maxCount <= 0 || !indexed then result == Select(objs, ttl, now, true)
    else exists order: seq<Item> ::
      && multiset(order) == multiset(Select(objs, ttl, now, false))
      && SortedByAge(order, now)
      && result == Select(objs, ttl, now, true) + Overflow(order, maxCount)
  }

  predicate Ascending(s: seq<Item>, key: Item -> int) {
    forall i, j | 0 <= i < j < |s| :: key(s[i]) <= key(s[j])
  }

  function Inserted(s: seq<Item>, i: nat, o: Item): (r: seq<Item>)
    requires i <= |s|
    ensures |r| == |s| + 1
    ensures forall j | 0 <= j < |r| :: r[j] == if j < i then s[j] else if j == i then o else s[j - 1]
  {
    s[..i] + [o] + s[i..]
  }

  lemma InsertedItems(s: seq<Item>, i: nat, o: Item)
    requires i <= |s|
    ensures multiset(Inserted(s, i, o)) == multiset(s) + multiset{o}
  {
    assert s == s[..i] + s[i..];
  }

  lemma InsertKeeps(s: seq<Item>, i: nat, o: Item, key: Item -> int)
    requires i <= |s| && Ascending(s, key)
    requires i > 0 ==> key(s[i - 1]) <= key(o)
    requires i < |s| ==> key(o) <= key(s[i])
    ensures Ascending(Inserted(s, i, o), key)
  {
    var r := Inserted(s, i, o);
    forall j, k | 0 <= j < k < |r| ensures key(r[j]) <= key(r[k]) {
      if k < i {
        assert key(s[j]) <= key(s[k]);
      } else if j > i {
        assert key(s[j - 1]) <= key(s[k - 1]);
      } else if k == i {
        assert key(s[j]) <= key(s[i - 1]);
      } else if j == i {
        assert key(s[i]) <= key(s[k - 1]);
      } else {
        assert key(s[j]) <= key(s[k - 1]);
      }
    }
  }

  /** slices.SortFunc by age; nothing is relied on but the order and the contents. */
  method SortByAge(items: seq<Item>, now: int) returns (sorted: seq<Item>)
    ensures multiset(sorted) == multiset(items)
    ensures SortedByAge(sorted, now)
  {
    var key := (o: Item) => Age(o, now);
    sorted := Sort(items, key);
    assert forall i | 0 <= i < |sorted| :: key(sorted[i]) == Age(sorted[i], now);
  }

  /** Where an item goes in an ascending list: behind everything that is not above it. */
  method Slot(sorted: seq<Item>, o: Item, key: Item -> int) returns (i: nat)
    ensures i <= |sorted|
    ensures i > 0 ==> key(sorted[i - 1]) <= key(o)
    ensures i < |sorted| ==> key(o) <= key(sorted[i])
  {
    i := |sorted|;
    while i > 0 && key(sorted[i - 1]) > key(o)
      invariant i <= |sorted|
      invariant i < |sorted| ==> key(o) <= key(sorted[i])
    {
      i := i - 1;
    }
  }

  /** One more item sorted in: the list stays ascending and holds the items so far. */
  lemma SortStep(sorted: seq<Item>, i: nat, items: seq<Item>, n: nat, key: Item -> int)
    requires n < |items| && i <= |sorted| && Ascending(sorted, key)
    requires multiset(sorted) == multiset(items[..n])
    requires i > 0 ==> key(sorted[i - 1]) <= key(items[n])
    requires i < |sorted| ==> key(items[n]) <= key(sorted[i])
    ensures Ascending(Inserted(sorted, i, items[n]), key)
    ensures multiset(Inserted(sorted, i, items[n])) == multiset(items[..n + 1])
  {
    InsertKeeps(sorted, i, items[n], key);
    InsertedItems(sorted, i, items[n]);
    assert items[..n + 1] == items[..n] + [items[n]];
    Appended(items[..n], items[n]);
  }

  method Sort(items: seq<Item>, key: Item -> int) returns (sorted: seq<Item>)
    ensures multiset(sorted) == multiset(items)
    ensures Ascending(sorted, key)
  {
    sorted := [];
    var n := 0;
    while n < |items|
      invariant n <= |items|
      invariant multiset(sorted) == multiset(items[..n])
      invariant Ascending(sorted, key)
    {
      var i := Slot(sorted, items[n], key);
      SortStep(sorted, i, items, n, key);
      sorted := Inserted(sorted, i, items[n]);
      n := n + 1;
    }
    assert items[..n] == items;
  }

  /** The two loops of the filter, one object at a time: the age split and the cap. */
  method Split(objs: seq<Item>, ttl: int, now: int) returns (expired: seq<Item>, nonExpired: seq<Item>)
    ensures expired == Select(objs, ttl, now, true) && nonExpired == Select(objs, ttl, now, false)
  {
    expired, nonExpired := [], [];
    for i := 0 to |objs|
      invariant expired == Select(objs[..i], ttl, now, true)
      invariant nonExpired == Select(objs[..i], ttl, now, false)
    {
      assert objs[..i + 1][..i] == objs[..i];
      if !objs[i].candidate || objs[i].terminating {
        continue;
      }
      if Age(objs[i], now) > ttl {
        expired := expired + [objs[i]];
        continue;
      }
      nonExpired := nonExpired + [objs[i]];
    }
    assert objs[..|objs|] == objs;
  }

  method Cap(order: seq<Item>, maxCount: nat) returns (dropped: seq<Item>)
    ensures dropped == Overflow(order, maxCount)
  {
    dropped := [];
    var counts: map<string, nat> := map[];
    for i := 0 to |order|
      invariant dropped == Overflow(order[..i], maxCount)
      invariant forall x: string :: (if x in counts then counts[x] else 0) == Count(order[..i], x)
    {
      assert order[..i + 1][..i] == order[..i];
      var index := order[i].index;
      var count := if index in counts then counts[index] else 0;
      if count >= maxCount {
        dropped := dropped + [order[i]];
      }
      counts := counts[index := count + 1];
    }
    assert order[..|order|] == order;
  }

  method DefaultFilter(objs: seq<Item>, ttl: int, indexed: bool, maxCount: int, now: int) returns (result: seq<Item>)
    ensures Lists(objs, ttl, indexed, maxCount, now, result)
  {
    var expired, nonExpired := Split(objs, ttl, now);
    if maxCount <= 0 || !indexed {
      return expired;
    }
    var order := SortByAge(nonExpired, now);
    var dropped := Cap(order, maxCount);
    result := expired + dropped;
  }

  /** Everything listed was eligible; everything eligible and expired is listed; without a cap nothing else is. */
  lemma ListedExactly(objs: seq<Item>, ttl: int, indexed: bool, maxCount: int, now: int, result: seq<Item>)
    requires Lists(objs, ttl, indexed, maxCount, now, result)
    ensures forall o | o in result :: o in objs && Eligible(o)
    ensures forall o | o in objs && Eligible(o) && Age(o, now) > ttl :: o in result
    ensures maxCount <= 0 || !indexed ==> forall o | o in result :: Age(o, now) > ttl
  {
    if maxCount > 0 && indexed {
      var rest := Select(objs, ttl, now, false);
      var order: seq<Item> :| multiset(order) == multiset(rest) && SortedByAge(order, now)
                              && result == Select(objs, ttl, now, true) + Overflow(order, maxCount);
      forall o | o in Overflow(order, maxCount) ensures o in rest {
        OverflowIsFull(order, maxCount, o);
        assert o in multiset(order);
      }
    }
  }

  // The objects of an index that the ttl leaves, counted in the list itself.
  function Unexpired(objs: seq<Item>, ttl: int, now: int, index: string): nat {
    |set i: nat | i < |objs| && Asked(objs[i], ttl, now, false) && objs[i].index == index|
  }

  lemma UnexpiredAppend(objs: seq<Item>, ttl: int, now: int, index: string, last: Item)
    ensures Unexpired(objs + [last], ttl, now, index) ==
            Unexpired(objs, ttl, now, index) + if Asked(last, ttl, now, false) && last.index == index then 1 else 0
  {
    var more := objs + [last];
    var front := set i: nat | i < |objs| && Asked(objs[i], ttl, now, false) && objs[i].index == index;
    var all := set i: nat | i < |more| && Asked(more[i], ttl, now, false) && more[i].index == index;
    assert all == front + if Asked(last, ttl, now, false) && last.index == index then {|objs|} else {};
  }

  lemma {:induction false} SelectUnexpired(objs: seq<Item>, ttl: int, now: int, index: string)
    ensures Count(Select(objs, ttl, now, false), index) == Unexpired(objs, ttl, now, index)
  {
    var all := set i: nat | i < |objs| && Asked(objs[i], ttl, now, false) && objs[i].index == index;
    if objs == [] {
      assert all == {};
    } else {
      var n := |objs| - 1;
      var taken := Select(objs[..n], ttl, now, false);
      SelectUnexpired(objs[..n], ttl, now, index);
      SelectUnfolds(objs, ttl, now, false);
      UnexpiredAppend(objs[..n], ttl, now, index, objs[n]);
      assert objs[..n] + [objs[n]] == objs;
      if Asked(objs[n], ttl, now, false) {
        CountAppend(taken, objs[n], index);
      } else {
        assert taken + [] == taken;
      }
    }
  }

  /**
   * How often the filter lists an object, and what it leaves: an expired object as often as it is there, and of the
   * unexpired ones all but the maxCount youngest of every index.
   */
  ghost predicate CapsTo(objs: seq<Item>, ttl: int, maxCount: nat, now: int, result: seq<Item>,
                         dropped: seq<Item>, kept: seq<Item>) {
    && (forall o: Item :: Occurrences(result, o) ==
          if Asked(o, ttl, now, true) then Occurrences(objs, o) else Occurrences(dropped, o))
    && (forall o: Item :: Occurrences(dropped, o) + Occurrences(kept, o) ==
          if Asked(o, ttl, now, false) then Occurrences(objs, o) else 0)
    && (forall index: string :: |set i: nat | i < |kept| && kept[i].index == index| ==
          Min(maxCount, Unexpired(objs, ttl, now, index)))
    && (forall k, d | k in kept && d in dropped && k.index == d.index :: Age(k, now) <= Age(d, now))
  }

  function Min(a: nat, b: nat): nat {
    if a < b then a else b
  }

  lemma CappedNumbers(objs: seq<Item>, ttl: int, maxCount: nat, now: int, order: seq<Item>, index: string)
    requires multiset(order) == multiset(Select(objs, ttl, now, false))
    ensures var kept := Kept(order, maxCount);
            |set i: nat | i < |kept| && kept[i].index == index| == Min(maxCount, Unexpired(objs, ttl, now, index))
  {
    CapCounts(order, maxCount, index);
    SameCounts(order, Select(objs, ttl, now, false), index);
    SelectUnexpired(objs, ttl, now, index);
    CountIsNumber(Kept(order, maxCount), index);
  }

  lemma CappedOccurrences(objs: seq<Item>, ttl: int, maxCount: nat, now: int, order: seq<Item>, o: Item)
    requires multiset(order) == multiset(Select(objs, ttl, now, false))
    ensures var dropped, kept := Overflow(order, maxCount), Kept(order, maxCount);
            && Occurrences(dropped, o) + Occurrences(kept, o) ==
                 (if Asked(o, ttl, now, false) then Occurrences(objs, o) else 0)
            && Occurrences(Select(objs, ttl, now, true) + dropped, o) ==
                 if Asked(o, ttl, now, true) then Occurrences(objs, o) else Occurrences(dropped, o)
  {
    CapPartitions(order, maxCount);
    SelectCounts(objs, ttl, now, false, o);
    SelectCounts(objs, ttl, now, true, o);
    assert multiset(Kept(order, maxCount))[o] + multiset(Overflow(order, maxCount))[o] == multiset(order)[o];
  }

  lemma CappedExactly(objs: seq<Item>, ttl: int, maxCount: nat, now: int, result: seq<Item>)
    returns (dropped: seq<Item>, kept: seq<Item>)
    requires Lists(objs, ttl, true, maxCount, now, result) && maxCount > 0
    ensures CapsTo(objs, ttl, maxCount, now, result, dropped, kept)
    ensures result == Select(objs, ttl, now, true) + dropped
  {
    var order: seq<Item> :| multiset(order) == multiset(Select(objs, ttl, now, false)) && SortedByAge(order, now)
                            && result == Select(objs, ttl, now, true) + Overflow(order, maxCount);
    dropped, kept := Overflow(order, maxCount), Kept(order, maxCount);
    forall o: Item
      ensures Occurrences(dropped, o) + Occurrences(kept, o) == if Asked(o, ttl, now, false) then Occurrences(objs, o) else 0
      ensures Occurrences(result, o) == if Asked(o, ttl, now, true) then Occurrences(objs, o) else Occurrences(dropped, o)
    {
      CappedOccurrences(objs, ttl, maxCount, now, order, o);
    }
    forall index: string
      ensures |set i: nat | i < |kept| && kept[i].index == index| == Min(maxCount, Unexpired(objs, ttl, now, index))
    {
      CappedNumbers(objs, ttl, maxCount, now, order, index);
    }
    forall k, d | k in kept && d in dropped && k.index == d.index ensures Age(k, now) <= Age(d, now) {
      KeptAreYoungest(order, maxCount, now, k, d);
    }
  }

  /** Without a cap an object is listed exactly as often as it is there if it has expired, and not at all otherwise. */
  lemma UncappedExactly(objs: seq<Item>, ttl: int, indexed: bool, maxCount: int, now: int, result: seq<Item>, o: Item)
    requires Lists(objs, ttl, indexed, maxCount, now, result) && (maxCount <= 0 || !indexed)
    ensures Occurrences(result, o) == if Asked(o, ttl, now, true) then Occurrences(objs, o) else 0
  {
    SelectCounts(objs, ttl, now, true, o);
  }

  lemma RemoveOne(b: seq<Item>, o: Item) returns (rest: seq<Item>)
    requires o in b
    ensures multiset(b) == multiset(rest) + multiset{o}
    ensures forall index: string :: Count(b, index) == Count(rest, index) + if o.index == index then 1 else 0
  {
    var i :| 0 <= i < |b| && b[i] == o;
    rest := b[..i] + b[i + 1..];
    assert b == b[..i] + [o] + b[i + 1..];
    forall index: string ensures Count(b, index) == Count(rest, index) + if o.index == index then 1 else 0 {
      CountConcat(b[..i], b[i + 1..], index);
      CountConcat(b[..i] + [o], b[i + 1..], index);
      CountAppend(b[..i], o, index);
    }
  }

  /** Counting does not depend on the order. */
  lemma {:induction false} SameCounts(a: seq<Item>, b: seq<Item>, index: string)
    requires multiset(a) == multiset(b)
    ensures Count(a, index) == Count(b, index)
    decreases |a|
  {
    if a == [] {
      assert |multiset(b)| == 0;
    } else {
      var front, last := a[..|a| - 1], a[|a| - 1];
      assert a == front + [last];
      assert last in multiset(b);
      var rest := RemoveOne(b, last);
      assert multiset(front) == multiset(a) - multiset{last};
      assert multiset(rest) == multiset(b) - multiset{last};
      SameCounts(front, rest, index);
      CountAppend(front, last, index);
    }
  }

  lemma {:induction false} CountConcat(a: seq<Item>, b: seq<Item>, index: string)
    ensures Count(a + b, index) == Count(a, index) + Count(b, index)
  {
    if b == [] {
      assert a + b == a;
    } else {
      var front := b[..|b| - 1];
      CountConcat(a, front, index);
      assert (a + b)[..|a + b| - 1] == a + front;
    }
  }

  // ---- the re-check before the delete ----

  /** ShouldBeDeleted: isReapable and agedOut on the untruncated difference. */
  predicate ShouldBeDeleted(o: Item, ttl: int, now: int) {
    Eligible(o) && o.time.Some? && now - o.time.value > ttl
  }

  predicate Listed(o: Item, ttl: int, now: int) {
    Eligible(o) && Age(o, now) > ttl
  }

  /** The list never disagrees with the re-check, now or later, exactly when the ttl is not negative. */
  lemma ListAgreesWithRecheck(ttl: int)
    ensures (forall o: Item, now: int, later: int | now <= later && Listed(o, ttl, now) :: ShouldBeDeleted(o, ttl, later))
        <==> ttl >= 0
  {
    if ttl < 0 {
      var undated := Item(0, true, false, None, "");
      assert Listed(undated, ttl, 0) && !ShouldBeDeleted(undated, ttl, 0);
    }
  }

  /** What the re-check would delete is listed at the latest one second later. */
  lemma DueIsListedWithinASecond(o: Item, ttl: int, now: int)
    requires ttl >= 0 && ShouldBeDeleted(o, ttl, now)
    ensures Listed(o, ttl, now + SECOND)
  {
    var d := now - o.time.value;
    assert Truncate(d + SECOND) > d;
  }
}
