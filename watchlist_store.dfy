/**
  `createWatchlistStore` of `watchlist_store.js`: a newest-first list of at
  most 200 watched items with distinct keys, each carrying the last decision
  seen for it. The JSON file load and save are not part of this model.
*/
module WatchlistStore {
  import opened Js

  const MaxItems: int := 200

  /** A stored item. `rest` stands for the caller's other fields, kept as given;
      `lastDecision` is whatever decision object was last recorded. */
  datatype Item = Item(key: string, rest: string, addedAt: int, lastDecision: Option<string>, lastSeen: int)

  predicate HasKey(items: seq<Item>, key: string) {
    exists i :: 0 <= i < |items| && items[i].key == key
  }

  predicate DistinctKeys(items: seq<Item>) {
    forall i, j :: 0 <= i < j < |items| ==> items[i].key != items[j].key
  }

  /** `items.filter(x => x.key !== key)`. */
  function Without(items: seq<Item>, key: string): (r: seq<Item>)
    ensures |r| <= |items|
    ensures !HasKey(r, key)
    ensures forall i :: 0 <= i < |r| ==> r[i] in items
    ensures !HasKey(items, key) ==> r == items
  {
    if items == [] then []
    else if items[0].key == key then Without(items[1..], key)
    else
      assert !HasKey(items, key) ==> !HasKey(items[1..], key) by {
        if HasKey(items[1..], key) {
          var i :| 0 <= i < |items[1..]| && items[1..][i].key == key;
          assert items[i + 1].key == key;
        }
      }
      [items[0]] + Without(items[1..], key)
  }

  lemma DistinctTail(items: seq<Item>)
    requires items != [] && DistinctKeys(items)
    ensures DistinctKeys(items[1..])
    ensures !HasKey(items[1..], items[0].key)
  {
    forall i, j | 0 <= i < j < |items[1..]| ensures items[1..][i].key != items[1..][j].key {
      assert items[1..][i] == items[i + 1] && items[1..][j] == items[j + 1];
    }
  }

  /** An item whose key no item of `rest` has can go in front of `rest`. */
  lemma ConsKeepsDistinct(x: Item, rest: seq<Item>)
    requires DistinctKeys(rest)
    requires forall i :: 0 <= i < |rest| ==> rest[i].key != x.key
    ensures DistinctKeys([x] + rest)
  {
    var r := [x] + rest;
    forall i, j | 0 <= i < j < |r| ensures r[i].key != r[j].key {
      assert r[j] == rest[j - 1];
      if i > 0 {
        assert r[i] == rest[i - 1];
      }
    }
  }

  /** Filtering out a key keeps the keys distinct. */
  lemma {:induction false} WithoutKeepsDistinct(items: seq<Item>, key: string)
    requires DistinctKeys(items)
    ensures DistinctKeys(Without(items, key))
  {
    if items != [] {
      DistinctTail(items);
      WithoutKeepsDistinct(items[1..], key);
      if items[0].key != key {
        var rest := Without(items[1..], key);
        forall i | 0 <= i < |rest| ensures rest[i].key != items[0].key {
          var k :| 0 <= k < |items[1..]| && items[1..][k] == rest[i];
        }
        ConsKeepsDistinct(items[0], rest);
      }
    }
  }

  /** Filtering out a present key of a list with distinct keys removes exactly
      one item. */
  lemma {:induction false} WithoutRemovesOne(items: seq<Item>, key: string)
    requires DistinctKeys(items)
    ensures HasKey(items, key) ==> |Without(items, key)| == |items| - 1
  {
    if items != [] && HasKey(items, key) {
      DistinctTail(items);
      if items[0].key != key {
        var i :| 0 <= i < |items| && items[i].key == key;
        assert items[1..][i - 1].key == key;
        WithoutRemovesOne(items[1..], key);
      }
    }
  }

  /** The position of `key`. */
  function IndexOf(items: seq<Item>, key: string): (i: int)
    requires HasKey(items, key)
    ensures 0 <= i < |items| && items[i].key == key
    ensures forall j :: 0 <= j < i ==> items[j].key != key
  {
    if items[0].key == key then 0
    else
      assert HasKey(items[1..], key) by {
        var i :| 0 <= i < |items| && items[i].key == key;
        assert items[1..][i - 1].key == key;
      }
      1 + IndexOf(items[1..], key)
  }

  /** Splitting `items` at `i`, seen from its tail. */
  lemma ConsSplit<T>(items: seq<T>, i: int, rest: seq<T>)
    requires 0 < i < |items|
    ensures [items[0]] + (items[1..][..i - 1] + rest) == items[..i] + rest
    ensures items[1..][i..] == items[i + 1..]
  {
    assert items[..i] == [items[0]] + items[1..][..i - 1];
  }

  /** Filtering out a present key keeps everything before its first item, in
      order, and filters only what follows it. */
  lemma {:induction false} WithoutSplitsAtKey(items: seq<Item>, key: string)
    requires HasKey(items, key)
    ensures var i := IndexOf(items, key);
              Without(items, key) == items[..i] + Without(items[i + 1..], key)
  {
    if items[0].key != key {
      var i := IndexOf(items, key);
      var tail := items[1..];
      assert HasKey(tail, key) by {
        assert tail[i - 1].key == key;
      }
      WithoutSplitsAtKey(tail, key);
      assert IndexOf(tail, key) == i - 1;
      ConsSplit(items, i, Without(items[i + 1..], key));
    }
  }

  /** With distinct keys, filtering out a present key removes exactly its item
      and keeps the others in order. */
  lemma WithoutRemovesItemAt(items: seq<Item>, key: string)
    requires HasKey(items, key) && DistinctKeys(items)
    ensures var i := IndexOf(items, key);
              Without(items, key) == items[..i] + items[i + 1..]
  {
    var i := IndexOf(items, key);
    WithoutSplitsAtKey(items, key);
    var after := items[i + 1..];
    assert !HasKey(after, key) by {
      forall j | 0 <= j < |after| ensures after[j].key != key {
        assert after[j] == items[i + 1 + j];
      }
    }
  }

  class Watchlist {
    var items: seq<Item>

    ghost predicate Valid()
      reads this
    {
      |items| <= MaxItems && DistinctKeys(items) && forall i :: 0 <= i < |items| ==> items[i].key != ""
    }

    constructor()
      ensures items == [] && Valid()
    {
      items := [];
    }

    /** `add(item)` at time `now`. */
    method Add(key: string, rest: string, now: int) returns (ok: bool)
      requires Valid()
      modifies this
      ensures Valid()
      ensures ok <==> key != ""
      ensures key == "" || HasKey(old(items), key) ==> items == old(items)
      ensures key != "" && !HasKey(old(items), key) ==>
                items == SlicePrefix([Item(key, rest, now, None, 0)] + old(items), MaxItems)
    {
      if key == "" {
        return false;
      }
      if HasKey(items, key) {
        return true;
      }
      var added := Item(key, rest, now, None, 0);
      var next := [added] + items;
      items := SlicePrefix(next, MaxItems);
      forall i, j | 0 <= i < j < |items| ensures items[i].key != items[j].key {
        assert items[i] == next[i] && items[j] == next[j];
        if i > 0 { assert next[i] == old(items)[i - 1]; }
        assert next[j] == old(items)[j - 1];
      }
      return true;
    }

    /** `remove(key)`: true exactly when an item had that key. */
    method Remove(key: string) returns (removed: bool)
      requires Valid()
      modifies this
      ensures Valid()
      ensures removed <==> HasKey(old(items), key)
      ensures items == Without(old(items), key)
      ensures removed ==> var i := IndexOf(old(items), key);
                items == old(items)[..i] + old(items)[i + 1..]
      ensures !HasKey(items, key)
    {
      var before := |items|;
      if HasKey(items, key) {
        WithoutRemovesItemAt(items, key);
      }
      WithoutRemovesOne(items, key);
      WithoutKeepsDistinct(items, key);
      items := Without(items, key);
      forall i | 0 <= i < |items| ensures items[i].key != "" {
        assert items[i] in old(items);
      }
      removed := |items| != before;
    }

    /** `list()`: the items, newest first. */
    method List() returns (r: seq<Item>)
      requires Valid()
      ensures r == items
      ensures |r| <= MaxItems && DistinctKeys(r)
    {
      r := items;
    }

    /** `updateDecision(key, decision)` at time `now`. */
    method UpdateDecision(key: string, decision: string, now: int) returns (found: bool)
      requires Valid()
      modifies this
      ensures Valid()
      ensures found <==> HasKey(old(items), key)
      ensures !found ==> items == old(items)
      ensures found ==> var i := IndexOf(old(items), key);
                items == old(items)[i := old(items)[i].(lastSeen := now, lastDecision := Some(decision))]
    {
      if !HasKey(items, key) {
        return false;
      }
      var i := IndexOf(items, key);
      items := items[i := items[i].(lastSeen := now, lastDecision := Some(decision))];
      return true;
    }
  }
}
