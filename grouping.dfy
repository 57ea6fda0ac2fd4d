/**
 * Grouping a sequence by a text key, the way the report code does it with
 * `reduce` and an accumulator looked up by name: the distinct keys in the
 * order they first appear, the sum of a value over the members of one key,
 * and the first member of a key.
 */
module Grouping {
  import opened Common

  predicate Distinct(ks: seq<string>) {
    forall i, j :: 0 <= i < j < |ks| ==> ks[i] != ks[j]
  }

  ghost predicate HasKey<T>(data: seq<T>, key: T -> string, k: string) {
    exists i :: 0 <= i < |data| && key(data[i]) == k
  }

  lemma HasKeyAppend<T>(data: seq<T>, e: T, key: T -> string, k: string)
    ensures HasKey(data + [e], key, k) <==> HasKey(data, key, k) || key(e) == k
  {
    if HasKey(data + [e], key, k) {
      var i :| 0 <= i < |data + [e]| && key((data + [e])[i]) == k;
      if i < |data| {
        assert (data + [e])[i] == data[i];
      }
    }
    if HasKey(data, key, k) {
      var i :| 0 <= i < |data| && key(data[i]) == k;
      assert (data + [e])[i] == data[i];
    }
    if key(e) == k {
      assert (data + [e])[|data|] == e;
    }
  }

  /** The distinct keys, in the order in which they first appear. */
  function Keys<T>(data: seq<T>, key: T -> string): seq<string> {
    if data == [] then []
    else
      var ks := Keys(data[..|data| - 1], key);
      if key(data[|data| - 1]) in ks then ks else ks + [key(data[|data| - 1])]
  }

  lemma KeysStep<T>(data: seq<T>, e: T, key: T -> string)
    ensures Keys(data + [e], key) == if key(e) in Keys(data, key) then Keys(data, key) else Keys(data, key) + [key(e)]
  {
    assert (data + [e])[..|data + [e]| - 1] == data;
  }

  /** Every key appears once, and the keys are exactly those of the members. */
  lemma {:induction false} KeysFacts<T>(data: seq<T>, key: T -> string)
    ensures Distinct(Keys(data, key))
    ensures forall k :: k in Keys(data, key) <==> HasKey(data, key, k)
    decreases |data|
  {
    if data != [] {
      var init := data[..|data| - 1];
      var e := data[|data| - 1];
      assert data == init + [e];
      KeysFacts(init, key);
      KeysStep(init, e, key);
      forall k
        ensures k in Keys(data, key) <==> HasKey(data, key, k)
      {
        HasKeyAppend(init, e, key, k);
      }
    }
  }

  /** There are no more keys than members, and at least one when there is a member. */
  lemma {:induction false} KeysCount<T>(data: seq<T>, key: T -> string)
    ensures |Keys(data, key)| <= |data|
    ensures data != [] ==> |Keys(data, key)| >= 1
    decreases |data|
  {
    if data != [] {
      KeysCount(data[..|data| - 1], key);
    }
  }

  function Is<T>(key: T -> string, k: string): T -> bool {
    (t: T) => key(t) == k
  }

  /** The position of the first member with key `k`. */
  function FirstIndexOf<T>(data: seq<T>, key: T -> string, k: string): (i: nat)
    requires HasKey(data, key, k)
    ensures i < |data| && key(data[i]) == k
    ensures forall j :: 0 <= j < i ==> key(data[j]) != k
  {
    var r := FindIndex(data, Is(key, k));
    assert r.Some? by {
      var i :| 0 <= i < |data| && key(data[i]) == k;
      assert Is(key, k)(data[i]);
    }
    r.value
  }

  /** The first member with key `k`: the one whose fields start the group. */
  function FirstWith<T>(data: seq<T>, key: T -> string, k: string): (t: T)
    requires HasKey(data, key, k)
    ensures t in data && key(t) == k
  {
    data[FirstIndexOf(data, key, k)]
  }

  /** Appending a member keeps the first member of every key already present; a new key starts at the appended one. */
  lemma FirstIndexAppend<T>(data: seq<T>, e: T, key: T -> string, k: string)
    requires HasKey(data + [e], key, k)
    ensures HasKey(data, key, k) ==> FirstIndexOf(data + [e], key, k) == FirstIndexOf(data, key, k)
    ensures !HasKey(data, key, k) ==> FirstIndexOf(data + [e], key, k) == |data|
    ensures FirstWith(data + [e], key, k) == if HasKey(data, key, k) then FirstWith(data, key, k) else e
  {
    FindIndexAppend(data, e, Is(key, k));
    if HasKey(data, key, k) {
      var i :| 0 <= i < |data| && key(data[i]) == k;
      assert Is(key, k)(data[i]);
      assert FindIndex(data, Is(key, k)).Some?;
      assert (data + [e])[FirstIndexOf(data, key, k)] == data[FirstIndexOf(data, key, k)];
    } else {
      HasKeyAppend(data, e, key, k);
      assert FindIndex(data, Is(key, k)).None?;
    }
  }

  /** The keys come in the order of their first members. */
  lemma {:induction false} KeysInFirstAppearanceOrder<T>(data: seq<T>, key: T -> string, a: int, b: int)
    requires 0 <= a < b < |Keys(data, key)|
    ensures HasKey(data, key, Keys(data, key)[a]) && HasKey(data, key, Keys(data, key)[b])
    ensures FirstIndexOf(data, key, Keys(data, key)[a]) < FirstIndexOf(data, key, Keys(data, key)[b])
    decreases |data|
  {
    KeysFacts(data, key);
    assert Keys(data, key)[a] in Keys(data, key) && Keys(data, key)[b] in Keys(data, key);
    var init := data[..|data| - 1];
    var e := data[|data| - 1];
    assert data == init + [e];
    KeysStep(init, e, key);
    KeysFacts(init, key);
    var ks := Keys(init, key);
    var x := Keys(data, key)[a];
    var y := Keys(data, key)[b];
    assert x == ks[a];
    assert x in ks;
    FirstIndexAppend(init, e, key, x);
    FirstIndexAppend(init, e, key, y);
    if b < |ks| {
      assert y == ks[b];
      assert y in ks;
      KeysInFirstAppearanceOrder(init, key, a, b);
    } else {
      assert y !in ks;
    }
  }

  /** The sum of `value` over the members with key `k`. */
  function SumWhere<T>(data: seq<T>, key: T -> string, value: T -> real, k: string): real {
    if data == [] then 0.0
    else SumWhere(data[..|data| - 1], key, value, k) + (if key(data[|data| - 1]) == k then value(data[|data| - 1]) else 0.0)
  }

  lemma SumWhereStep<T>(data: seq<T>, e: T, key: T -> string, value: T -> real, k: string)
    ensures SumWhere(data + [e], key, value, k) == SumWhere(data, key, value, k) + (if key(e) == k then value(e) else 0.0)
  {
    assert (data + [e])[..|data + [e]| - 1] == data;
  }

  /** A key with no member sums to 0. */
  lemma {:induction false} SumWhereAbsent<T>(data: seq<T>, key: T -> string, value: T -> real, k: string)
    requires !HasKey(data, key, k)
    ensures SumWhere(data, key, value, k) == 0.0
    decreases |data|
  {
    if data != [] {
      var init := data[..|data| - 1];
      assert data == init + [data[|data| - 1]];
      HasKeyAppend(init, data[|data| - 1], key, k);
      SumWhereAbsent(init, key, value, k);
    }
  }

  /** The sum of `value` over all members. */
  function Total<T>(data: seq<T>, value: T -> real): real {
    if data == [] then 0.0 else Total(data[..|data| - 1], value) + value(data[|data| - 1])
  }

  lemma TotalStep<T>(data: seq<T>, e: T, value: T -> real)
    ensures Total(data + [e], value) == Total(data, value) + value(e)
  {
    assert (data + [e])[..|data + [e]| - 1] == data;
  }

  /** The group sums of the keys `ks`, added up. */
  function SumKeys<T>(data: seq<T>, key: T -> string, value: T -> real, ks: seq<string>): real {
    if ks == [] then 0.0 else SumKeys(data, key, value, ks[..|ks| - 1]) + SumWhere(data, key, value, ks[|ks| - 1])
  }

  lemma {:induction false} SumKeysStep<T>(data: seq<T>, e: T, key: T -> string, value: T -> real, ks: seq<string>)
    requires Distinct(ks)
    ensures SumKeys(data + [e], key, value, ks) == SumKeys(data, key, value, ks) + (if key(e) in ks then value(e) else 0.0)
    decreases |ks|
  {
    if ks != [] {
      var init := ks[..|ks| - 1];
      var y := ks[|ks| - 1];
      assert ks == init + [y];
      assert Distinct(init);
      assert y !in init;
      SumKeysStep(data, e, key, value, init);
      SumWhereStep(data, e, key, value, y);
    }
  }

  lemma SumKeysAppend<T>(data: seq<T>, key: T -> string, value: T -> real, ks: seq<string>, y: string)
    ensures SumKeys(data, key, value, ks + [y]) == SumKeys(data, key, value, ks) + SumWhere(data, key, value, y)
  {
    assert (ks + [y])[..|ks + [y]| - 1] == ks;
  }

  /** The group sums add up to the sum over all members. */
  lemma {:induction false} GroupsSumToTotal<T>(data: seq<T>, key: T -> string, value: T -> real)
    ensures SumKeys(data, key, value, Keys(data, key)) == Total(data, value)
    decreases |data|
  {
    if data != [] {
      var init := data[..|data| - 1];
      var e := data[|data| - 1];
      assert data == init + [e];
      GroupsSumToTotal(init, key, value);
      GroupsSumStep(init, e, key, value);
    }
  }

  /** Appending a member adds its value to the group sums: to its key's sum, or as a new key's. */
  lemma GroupsSumStep<T>(data: seq<T>, e: T, key: T -> string, value: T -> real)
    requires SumKeys(data, key, value, Keys(data, key)) == Total(data, value)
    ensures SumKeys(data + [e], key, value, Keys(data + [e], key)) == Total(data + [e], value)
  {
    KeysFacts(data, key);
    KeysStep(data, e, key);
    TotalStep(data, e, value);
    var ks := Keys(data, key);
    SumKeysStep(data, e, key, value, ks);
    if key(e) !in ks {
      SumKeysAppend(data + [e], key, value, ks, key(e));
      SumWhereStep(data, e, key, value, key(e));
      SumWhereAbsent(data, key, value, key(e));
    }
  }

  /** Summing a non-negative value over a group gives a non-negative sum. */
  lemma {:induction false} SumWhereNonNegative<T>(data: seq<T>, key: T -> string, value: T -> real, k: string)
    requires forall i :: 0 <= i < |data| ==> value(data[i]) >= 0.0
    ensures SumWhere(data, key, value, k) >= 0.0
  {
    if data != [] {
      SumWhereNonNegative(data[..|data| - 1], key, value, k);
    }
  }
}
