// Pending deadlines by key, and the one batch a wake-up delivers
// (crates/cawd/src/timers.rs).

module TimerWheel {
  import opened Bytes

  datatype Entry<K> = Entry(key: K, at: nat)

  // The deadline a key is armed for.
  function Lookup<K(==)>(es: seq<Entry<K>>, key: K): Option<nat> {
    if es == [] then None
    else if es[0].key == key then Some(es[0].at)
    else Lookup(es[1..], key)
  }

  // Where a key stands; one past the end when it is not armed.
  function Position<K(==)>(es: seq<Entry<K>>, key: K): (i: nat)
    ensures i <= |es|
    ensures i < |es| <==> Lookup(es, key).Some?
    ensures i < |es| ==> es[i].key == key && Lookup(es, key) == Some(es[i].at)
    ensures forall j :: 0 <= j < i ==> es[j].key != key
  {
    if es == [] || es[0].key == key then 0 else 1 + Position(es[1..], key)
  }

  predicate Distinct<K(==)>(es: seq<Entry<K>>) {
    forall i, j :: 0 <= i < j < |es| ==> es[i].key != es[j].key
  }

  // Replace in place, or append.
  function Arm<K(==)>(es: seq<Entry<K>>, key: K, at: nat): seq<Entry<K>> {
    var i := Position(es, key);
    if i < |es| then es[i := Entry(key, at)] else es + [Entry(key, at)]
  }

  function Keep<K>(es: seq<Entry<K>>, wanted: Entry<K> -> bool): (kept: seq<Entry<K>>)
    ensures forall i :: 0 <= i < |kept| ==> kept[i] in es && wanted(kept[i])
    ensures forall i :: 0 <= i < |es| && wanted(es[i]) ==> es[i] in kept
  {
    if es == [] then []
    else (if wanted(es[0]) then [es[0]] else []) + Keep(es[1..], wanted)
  }

  function Due<K>(es: seq<Entry<K>>, now: nat): seq<Entry<K>> {
    Keep(es, (e: Entry<K>) => e.at <= now)
  }

  function Remaining<K>(es: seq<Entry<K>>, now: nat): seq<Entry<K>> {
    Keep(es, (e: Entry<K>) => e.at > now)
  }

  // ---- soonest first -------------------------------------------------------------

  function Insert<K>(e: Entry<K>, sorted: seq<Entry<K>>): seq<Entry<K>> {
    if sorted == [] || e.at <= sorted[0].at then [e] + sorted
    else [sorted[0]] + Insert(e, sorted[1..])
  }

  // Stable: entries of one instant stay in the order they stand in.
  function Sorted<K>(es: seq<Entry<K>>): seq<Entry<K>> {
    if es == [] then [] else Insert(es[0], Sorted(es[1..]))
  }

  predicate Ascending<K>(es: seq<Entry<K>>) {
    forall i, j :: 0 <= i < j < |es| ==> es[i].at <= es[j].at
  }

  function Keys<K>(es: seq<Entry<K>>): (ks: seq<K>)
    ensures |ks| == |es| && forall i :: 0 <= i < |es| ==> ks[i] == es[i].key
  {
    if es == [] then [] else [es[0].key] + Keys(es[1..])
  }

  function Expired<K>(es: seq<Entry<K>>, now: nat): seq<K> {
    Keys(Sorted(Due(es, now)))
  }

  lemma {:induction false} InsertElements<K>(e: Entry<K>, sorted: seq<Entry<K>>)
    ensures multiset(Insert(e, sorted)) == multiset{e} + multiset(sorted)
    ensures forall i :: 0 <= i < |Insert(e, sorted)| ==> Insert(e, sorted)[i] == e || Insert(e, sorted)[i] in sorted
  {
    if sorted != [] && e.at > sorted[0].at {
      InsertElements(e, sorted[1..]);
      assert sorted == [sorted[0]] + sorted[1..];
    }
  }

  lemma AscendingFrom<K>(head: Entry<K>, rest: seq<Entry<K>>)
    requires Ascending(rest) && forall i :: 0 <= i < |rest| ==> head.at <= rest[i].at
    ensures Ascending([head] + rest)
  {
  }

  lemma {:induction false} InsertKeepsOrder<K>(e: Entry<K>, sorted: seq<Entry<K>>)
    requires Ascending(sorted)
    ensures Ascending(Insert(e, sorted))
  {
    if sorted == [] || e.at <= sorted[0].at {
      AscendingFrom(e, sorted);
    } else {
      InsertKeepsOrder(e, sorted[1..]);
      InsertElements(e, sorted[1..]);
      AscendingFrom(sorted[0], Insert(e, sorted[1..]));
    }
  }

  // A batch is what was due, soonest first, each once.
  lemma {:induction false} SortedIsAPermutation<K>(es: seq<Entry<K>>)
    ensures Ascending(Sorted(es)) && multiset(Sorted(es)) == multiset(es)
  {
    if es != [] {
      SortedIsAPermutation(es[1..]);
      InsertKeepsOrder(es[0], Sorted(es[1..]));
      InsertElements(es[0], Sorted(es[1..]));
      assert es == [es[0]] + es[1..];
    }
  }

  function At<K>(es: seq<Entry<K>>, instant: nat): seq<Entry<K>> {
    Keep(es, (e: Entry<K>) => e.at == instant)
  }

  lemma {:induction false} InsertIsStable<K>(e: Entry<K>, sorted: seq<Entry<K>>, instant: nat)
    requires Ascending(sorted)
    ensures At(Insert(e, sorted), instant) == (if e.at == instant then [e] else []) + At(sorted, instant)
  {
    if sorted == [] || e.at <= sorted[0].at {
      assert ([e] + sorted)[1..] == sorted;
    } else {
      InsertIsStable(e, sorted[1..], instant);
      assert Insert(e, sorted)[1..] == Insert(e, sorted[1..]);
    }
  }

  // Timers of one instant fire in the order they stand in.
  lemma {:induction false} SortedIsStable<K>(es: seq<Entry<K>>, instant: nat)
    ensures At(Sorted(es), instant) == At(es, instant)
  {
    if es != [] {
      SortedIsStable(es[1..], instant);
      SortedIsAPermutation(es[1..]);
      InsertIsStable(es[0], Sorted(es[1..]), instant);
    }
  }

  // Nothing to sort when everything is due at once.
  lemma {:induction false} OneInstantIsSorted<K>(es: seq<Entry<K>>, now: nat)
    requires forall i :: 0 <= i < |es| ==> es[i].at == now
    ensures Sorted(es) == es
  {
    if es != [] {
      OneInstantIsSorted(es[1..], now);
    }
  }

  // ---- what arming and waking change ------------------------------------------------

  lemma LookupAt<K>(es: seq<Entry<K>>, i: nat)
    requires Distinct(es) && i < |es|
    ensures Position(es, es[i].key) == i && Lookup(es, es[i].key) == Some(es[i].at)
  {
    var p := Position(es, es[i].key);
  }

  lemma LookupAbsent<K>(es: seq<Entry<K>>, key: K)
    requires forall i :: 0 <= i < |es| ==> es[i].key != key
    ensures Lookup(es, key) == None && Position(es, key) == |es|
  {
    var p := Position(es, key);
  }

  // Arming changes one deadline and nobody's place.
  lemma ArmChangesOne<K>(es: seq<Entry<K>>, key: K, at: nat, other: K)
    requires Distinct(es)
    ensures Distinct(Arm(es, key, at))
    ensures Lookup(Arm(es, key, at), key) == Some(at) && Position(Arm(es, key, at), key) == Position(es, key)
    ensures other != key ==> Lookup(Arm(es, key, at), other) == Lookup(es, other)
    ensures other != key && Lookup(es, other).Some? ==> Position(Arm(es, key, at), other) == Position(es, other)
  {
    var r := Arm(es, key, at);
    var p, q := Position(es, key), Position(es, other);
    assert r[p] == Entry(key, at);
    LookupAt(r, p);
    if other != key {
      if q < |es| {
        assert r[q] == es[q];
        LookupAt(r, q);
      } else {
        LookupAbsent(r, other);
      }
    }
  }

  lemma {:induction false} KeepIsDistinct<K>(es: seq<Entry<K>>, wanted: Entry<K> -> bool)
    requires Distinct(es)
    ensures Distinct(Keep(es, wanted))
  {
    if es != [] {
      KeepIsDistinct(es[1..], wanted);
      var rest := Keep(es[1..], wanted);
      forall i | 0 <= i < |rest| ensures rest[i].key != es[0].key {
        assert rest[i] in es[1..];
      }
    }
  }

  // What is kept keeps its deadline; what is dropped is armed no longer.
  lemma {:induction false} LookupOfKeep<K>(es: seq<Entry<K>>, wanted: Entry<K> -> bool, key: K)
    requires Distinct(es)
    ensures Lookup(Keep(es, wanted), key) ==
              if Lookup(es, key).Some? && wanted(Entry(key, Lookup(es, key).value)) then Lookup(es, key) else None
  {
    var r := Keep(es, wanted);
    KeepIsDistinct(es, wanted);
    var p := Position(es, key);
    if p < |es| && wanted(es[p]) {
      assert es[p] == Entry(key, es[p].at) && es[p] in r;
      var i :| 0 <= i < |r| && r[i] == es[p];
      LookupAt(r, i);
    } else {
      forall i | 0 <= i < |r| ensures r[i].key != key {
        assert r[i] in es && wanted(r[i]);
        var j :| 0 <= j < |es| && es[j] == r[i];
        if r[i].key == key { LookupAt(es, j); }
      }
      LookupAbsent(r, key);
    }
  }

  // One entry more at the front of what is kept, or none.
  lemma KeepUnfolds<K>(es: seq<Entry<K>>, wanted: Entry<K> -> bool)
    requires es != []
    ensures Keep(es, wanted) == (if wanted(es[0]) then [es[0]] else []) + Keep(es[1..], wanted)
  {
  }

  predicate Before<K(==)>(es: seq<Entry<K>>, a: K, b: K) {
    Position(es, a) < Position(es, b)
  }

  // Behind an entry that is neither, two keys stand as they do without it.
  lemma BeforeBehind<K>(first: Entry<K>, rest: seq<Entry<K>>, a: K, b: K)
    requires first.key != a && first.key != b
    ensures Before([first] + rest, a, b) <==> Before(rest, a, b)
    ensures Lookup([first] + rest, a) == Lookup(rest, a) && Lookup([first] + rest, b) == Lookup(rest, b)
  {
    assert ([first] + rest)[1..] == rest;
  }

  lemma FirstIsBefore<K>(first: Entry<K>, rest: seq<Entry<K>>, a: K, b: K)
    requires a != b
    ensures Before([first] + rest, a, b) ==> first.key != b
    ensures first.key == a ==> Before([first] + rest, a, b) && Lookup([first] + rest, a) == Some(first.at)
  {
  }

  // One entry more in front of the whole, and of what is kept when wanted.
  lemma OrderInFront<K>(first: Entry<K>, rest: seq<Entry<K>>, kept: seq<Entry<K>>, taken: bool, a: K, b: K)
    requires a != b && Before([first] + rest, a, b)
    requires if first.key == a then taken else Before(rest, a, b) ==> Before(kept, a, b)
    ensures Before((if taken then [first] else []) + kept, a, b)
  {
    FirstIsBefore(first, rest, a, b);
    if first.key == a {
      FirstIsBefore(first, kept, a, b);
    } else {
      BeforeBehind(first, rest, a, b);
      BeforeBehind(first, kept, a, b);
      assert [] + kept == kept;
    }
  }

  // A wanted key keeps its place before another.
  lemma {:induction false} OrderOfKeep<K>(es: seq<Entry<K>>, wanted: Entry<K> -> bool, a: K, b: K)
    requires a != b && Before(es, a, b)
    requires Lookup(es, a).Some? ==> wanted(Entry(a, Lookup(es, a).value))
    ensures Before(Keep(es, wanted), a, b)
  {
    assert es != [];
    KeepUnfolds(es, wanted);
    var first, rest := es[0], es[1..];
    assert es == [first] + rest;
    assert first.key == a ==> Entry(a, Lookup(es, a).value) == first;
    assert first.key != a ==> Lookup(es, a) == Lookup(rest, a);
    hide Keep, Lookup, Position, Before;
    if first.key != a {
      FirstIsBefore(first, rest, a, b);
      BeforeBehind(first, rest, a, b);
      OrderOfKeep(rest, wanted, a, b);
    }
    OrderInFront(first, rest, Keep(rest, wanted), wanted(first), a, b);
  }

  // Keeping some entries keeps their order.
  lemma PositionsOfKeep<K>(es: seq<Entry<K>>, wanted: Entry<K> -> bool, a: K, b: K)
    requires Distinct(es) && Lookup(Keep(es, wanted), a).Some? && Lookup(Keep(es, wanted), b).Some?
    ensures Position(es, a) < Position(es, b) ==> Position(Keep(es, wanted), a) < Position(Keep(es, wanted), b)
  {
    if Position(es, a) < Position(es, b) {
      assert Before(es, a, b);
      LookupOfKeep(es, wanted, a);
      hide Keep, Lookup, Position;
      OrderOfKeep(es, wanted, a, b);
      assert Before(Keep(es, wanted), a, b);
    }
  }

  // ---- the object the reactor owns ----------------------------------------------------

  class Timers<K(==)> {
    var entries: seq<Entry<K>>

    constructor ()
      ensures entries == []
    {
      entries := [];
    }

    method ArmAt(key: K, delay: nat, now: nat)
      modifies this
      ensures entries == Arm(old(entries), key, now + delay)
    {
      var i := 0;
      while i < |entries| && entries[i].key != key
        invariant 0 <= i <= |entries| && entries == old(entries)
        invariant forall j :: 0 <= j < i ==> entries[j].key != key
      {
        i := i + 1;
      }
      if i < |entries| {
        entries := entries[i := Entry(key, now + delay)];
      } else {
        entries := entries + [Entry(key, now + delay)];
      }
    }

    method Cancel(key: K)
      modifies this
      ensures entries == Keep(old(entries), (e: Entry<K>) => e.key != key)
    {
      entries := Keep(entries, (e: Entry<K>) => e.key != key);
    }

    method CancelIf(matching: K -> bool)
      modifies this
      ensures entries == Keep(old(entries), (e: Entry<K>) => !matching(e.key))
    {
      entries := Keep(entries, (e: Entry<K>) => !matching(e.key));
    }

    method NextDeadline() returns (at: Option<nat>)
      ensures at.None? <==> entries == []
      ensures at.Some? ==> (exists e :: e in entries && e.at == at.value) && forall e :: e in entries ==> at.value <= e.at
    {
      at := None;
      for i := 0 to |entries|
        invariant at.None? <==> i == 0
        invariant at.Some? ==> exists e :: e in entries[..i] && e.at == at.value
        invariant at.Some? ==> forall e :: e in entries[..i] ==> at.value <= e.at
      {
        assert entries[..i + 1] == entries[..i] + [entries[i]];
        if at.None? || entries[i].at < at.value {
          assert entries[i] in entries[..i + 1];
          at := Some(entries[i].at);
        }
      }
      assert entries[..|entries|] == entries;
    }

    method Expire(now: nat) returns (keys: seq<K>)
      modifies this
      ensures keys == Expired(old(entries), now) && entries == Remaining(old(entries), now)
    {
      keys := Keys(Sorted(Due(entries, now)));
      entries := Remaining(entries, now);
    }
  }
}
