/**
 * The least-recently-used cache: a list of keys, most recently used first, and a map from keys to
 * values and to positions in that list. List nodes are numbered in the order of their creation; an
 * iterator is a node number.
 */
module LruCache {
  import opened Sequences
  import opened Recency

  datatype Node<K> = Node(id: nat, key: K)

  datatype Entry<V> = Entry(value: V, node: nat)

  function Keys<K>(index: seq<Node<K>>): (r: seq<K>)
    ensures |r| == |index| && forall i :: 0 <= i < |index| ==> r[i] == index[i].key
  {
    seq(|index|, i requires 0 <= i < |index| => index[i].key)
  }

  /** The cached keys, least recently used first. */
  function OldestFirst<K>(index: seq<Node<K>>): (r: seq<K>)
    ensures |r| == |index| && forall i :: 0 <= i < |index| ==> r[i] == index[|index| - 1 - i].key
  {
    seq(|index|, i requires 0 <= i < |index| => index[|index| - 1 - i].key)
  }

  function FindNode<K>(index: seq<Node<K>>, id: nat): (k: nat)
    ensures k <= |index|
    ensures k < |index| ==> index[k].id == id
    ensures forall i :: 0 <= i < k ==> index[i].id != id
  {
    Find(index, (n: Node<K>) => n.id == id)
  }

  /** Even a cache of capacity zero keeps the entry it has just returned. */
  function Room(capacity: nat): nat {
    if capacity < 1 then 1 else capacity
  }

  /**
   * The list and the map hold the same keys, each once; every entry holds the generated value and
   * points at the node of its key.
   */
  ghost predicate Linked<K(!new), V>(index: seq<Node<K>>, cache: map<K, Entry<V>>, nextNode: nat, g: K -> V) {
    && Distinct(Keys(index))
    && (forall i, j :: 0 <= i < j < |index| ==> index[i].id != index[j].id)
    && (forall i :: 0 <= i < |index| ==> index[i].id < nextNode)
    && (forall k :: k in cache <==> k in Keys(index))
    && (forall i :: 0 <= i < |index| ==> Cached(cache, index[i], g))
  }

  ghost predicate Cached<K, V>(cache: map<K, Entry<V>>, n: Node<K>, g: K -> V) {
    n.key in cache && cache[n.key] == Entry(g(n.key), n.id)
  }

  lemma {:induction false} CacheSize<K(!new), V>(index: seq<Node<K>>, cache: map<K, Entry<V>>, nextNode: nat, g: K -> V)
    requires Linked(index, cache, nextNode, g)
    ensures |cache| == |index|
  {
    DistinctSize(Keys(index));
    assert cache.Keys == set k | k in Keys(index);
  }

  /** The iterator stored for a key leads to the node of that key. */
  lemma {:induction false} NodeOfKey<K(!new), V>(
    index: seq<Node<K>>, cache: map<K, Entry<V>>, nextNode: nat, g: K -> V, key: K)
    requires Linked(index, cache, nextNode, g) && key in cache
    ensures FindNode(index, cache[key].node) < |index|
    ensures index[FindNode(index, cache[key].node)].key == key
    ensures cache[key].value == g(key)
  {
    var i :| 0 <= i < |index| && Keys(index)[i] == key;
    assert Cached(cache, index[i], g);
    var k := FindNode(index, cache[key].node);
    assert k <= i;
  }

  /** Where the i-th node was before the k-th one was moved to the front. */
  function Source(i: nat, k: nat): nat {
    if i == 0 then k else if i <= k then i - 1 else i
  }

  lemma {:induction false} MovedNodes<K>(index: seq<Node<K>>, k: nat, r: seq<Node<K>>)
    requires k < |index| && r == [index[k]] + Without(index, k)
    ensures |r| == |index| && forall i :: 0 <= i < |r| ==> Source(i, k) < |index| && r[i] == index[Source(i, k)]
  {
  }

  lemma {:induction false} MovedKeys<K(!new)>(index: seq<Node<K>>, k: nat, r: seq<Node<K>>)
    requires k < |index| && r == [index[k]] + Without(index, k)
    ensures forall x :: x in Keys(index) <==> x in Keys(r)
  {
    MovedNodes(index, k, r);
    forall i | 0 <= i < |index| ensures Keys(index)[i] in Keys(r) {
      var j := if i == k then 0 else if i < k then i + 1 else i;
      assert Source(j, k) == i;
      assert Keys(r)[j] == Keys(index)[i];
    }
    forall i | 0 <= i < |r| ensures Keys(r)[i] in Keys(index) {
      assert Keys(index)[Source(i, k)] == Keys(r)[i];
    }
  }

  lemma {:induction false} RefreshedLinked<K(!new), V>(
    index: seq<Node<K>>, cache: map<K, Entry<V>>, nextNode: nat, g: K -> V, k: nat)
    requires Linked(index, cache, nextNode, g) && k < |index|
    ensures Linked([index[k]] + Without(index, k), cache, nextNode, g)
  {
    var r := [index[k]] + Without(index, k);
    MovedNodes(index, k, r);
    MovedKeys(index, k, r);
    forall i, j | 0 <= i < j < |r| ensures r[i].id != r[j].id && Keys(r)[i] != Keys(r)[j] {
      var (a, b) := (Source(i, k), Source(j, k));
      assert Keys(index)[if a < b then a else b] != Keys(index)[if a < b then b else a];
    }
  }

  lemma {:induction false} FoundAt<K>(index: seq<Node<K>>, k: nat, p: nat)
    requires Distinct(Keys(index)) && k < |index| && p + k + 1 == |index|
    ensures IndexOf(OldestFirst(index), index[k].key) == p
  {
    var m := OldestFirst(index);
    assert m[p] == index[k].key;
    forall i | 0 <= i < p ensures m[i] != index[k].key {
      assert Keys(index)[|index| - 1 - i] != Keys(index)[k];
    }
  }

  lemma {:induction false} MovedFirst<K>(index: seq<Node<K>>, k: nat, p: nat)
    requires k < |index| && p + k + 1 == |index|
    ensures OldestFirst([index[k]] + Without(index, k)) == Without(OldestFirst(index), p) + [index[k].key]
  {
  }

  lemma {:induction false} RefreshedOrder<K>(index: seq<Node<K>>, k: nat, c: nat)
    requires Distinct(Keys(index)) && k < |index| && c > 0
    ensures OldestFirst([index[k]] + Without(index, k)) == Touched(OldestFirst(index), c, index[k].key)
  {
    FoundAt(index, k, |index| - 1 - k);
    MovedFirst(index, k, |index| - 1 - k);
  }

  lemma {:induction false} AddedLinked<K(!new), V>(
    index: seq<Node<K>>, cache: map<K, Entry<V>>, nextNode: nat, g: K -> V, key: K)
    requires Linked(index, cache, nextNode, g) && key !in cache
    ensures Linked([Node(nextNode, key)] + index, cache[key := Entry(g(key), nextNode)], nextNode + 1, g)
  {
    var (r, c) := ([Node(nextNode, key)] + index, cache[key := Entry(g(key), nextNode)]);
    assert Keys(r) == [key] + Keys(index);
    forall i | 0 <= i < |r| ensures Cached(c, r[i], g) {
      if i > 0 {
        assert Cached(cache, index[i - 1], g);
        assert Keys(index)[i - 1] != key;
      }
    }
  }

  lemma {:induction false} AddedOrder<K>(before: seq<Node<K>>, index: seq<Node<K>>, c: nat, n: Node<K>)
    requires 0 < c && |before| <= c && n.key !in Keys(before)
    requires index == if |before| == c then before[..|before| - 1] else before
    ensures OldestFirst([n] + index) == Touched(OldestFirst(before), c, n.key)
  {
    var m := OldestFirst(before);
    forall i | 0 <= i < |m| ensures m[i] != n.key {
      assert Keys(before)[|before| - 1 - i] == m[i];
    }
    assert OldestFirst([n] + index) == Trimmed(m, c - 1) + [n.key];
  }

  lemma {:induction false} RemovedLinked<K(!new), V>(
    index: seq<Node<K>>, cache: map<K, Entry<V>>, nextNode: nat, g: K -> V)
    requires Linked(index, cache, nextNode, g) && index != []
    ensures Linked(index[..|index| - 1], cache - {index[|index| - 1].key}, nextNode, g)
  {
    var (n, r) := (|index| - 1, index[..|index| - 1]);
    var c := cache - {index[n].key};
    assert Keys(index) == Keys(r) + [index[n].key];
    forall i | 0 <= i < |r| ensures Cached(c, r[i], g) {
      assert Cached(cache, index[i], g);
      assert Keys(index)[i] != Keys(index)[n];
    }
    forall x | x in Keys(r) ensures x != index[n].key {
      var i :| 0 <= i < |r| && Keys(r)[i] == x;
      assert Keys(index)[i] != Keys(index)[n];
    }
  }

  /**
   * After any history of accesses the cached keys are exactly the most recently accessed distinct
   * ones, as many as there is room for.
   */
  lemma {:induction false} CachesLatestKeys<K(!new)>(capacity: nat, history: seq<K>, key: K)
    ensures HoldsLatest(TouchedAll([], Room(capacity), history), history, Room(capacity))
    ensures key in TouchedAll([], Room(capacity), history) <==>
            Used(history, key) && |UsedSince(history, key)| < Room(capacity)
  {
    MemoryHoldsLatest(Room(capacity), history);
    KnownIffRecent(TouchedAll([], Room(capacity), history), history, Room(capacity), key);
  }

  /** Hence a key is cached exactly if it was accessed and there is room for all accessed since. */
  lemma {:induction false} CachesRecentKeys<K(!new), V>(
    index: seq<Node<K>>, cache: map<K, Entry<V>>, nextNode: nat, g: K -> V, capacity: nat, history: seq<K>)
    requires Linked(index, cache, nextNode, g) && OldestFirst(index) == TouchedAll([], Room(capacity), history)
    ensures HoldsLatest(OldestFirst(index), history, Room(capacity))
    ensures forall k :: k in cache <==> Used(history, k) && |UsedSince(history, k)| < Room(capacity)
  {
    MemoryHoldsLatest(Room(capacity), history);
    forall k ensures k in cache <==> Used(history, k) && |UsedSince(history, k)| < Room(capacity) {
      CachesLatestKeys(capacity, history, k);
      SameKeys(index, k);
    }
  }

  lemma {:induction false} SameKeys<K(!new)>(index: seq<Node<K>>, key: K)
    ensures key in Keys(index) <==> key in OldestFirst(index)
  {
    var n := |index|;
    if key in Keys(index) {
      var i :| 0 <= i < n && Keys(index)[i] == key;
      assert OldestFirst(index)[n - 1 - i] == key;
    } else {
      forall i | 0 <= i < n ensures OldestFirst(index)[i] != key {
        assert Keys(index)[n - 1 - i] != key;
      }
    }
  }

  class Cache<K(==,!new), V> {
    const generator: K -> V
    const capacity: nat
    var index: seq<Node<K>>
    var cache: map<K, Entry<V>>
    var nextNode: nat

    /** The keys accessed so far. */
    ghost var history: seq<K>

    ghost predicate Sound()
      reads this
    {
      Linked(index, cache, nextNode, generator) && |index| <= Room(capacity)
    }

    ghost predicate Valid()
      reads this
    {
      Sound() && OldestFirst(index) == TouchedAll([], Room(capacity), history)
    }

    constructor (generator: K -> V, capacity: nat)
      ensures Valid() && this.generator == generator && this.capacity == capacity && index == [] && history == []
    {
      this.generator, this.capacity := generator, capacity;
      index, cache, nextNode, history := [], map[], 0, [];
    }

    /**
     * Access an entry: the value is always the generated one, the key becomes the latest, and exactly the
     * most recently accessed keys of the whole history are cached.
     */
    method Access(key: K) returns (value: V)
      requires Valid()
      modifies this
      ensures Valid() && value == generator(key) && history == old(history) + [key]
      ensures OldestFirst(index) == Touched(old(OldestFirst(index)), Room(capacity), key)
      ensures |cache| == |index|
      ensures HoldsLatest(OldestFirst(index), history, Room(capacity))
      ensures forall k :: k in cache <==>
                Used(history, k) && |UsedSince(history, k)| < if capacity == 0 then 1 else capacity
    {
      if key in cache {
        value := Refresh(key);
      } else {
        value := Add(key);
      }
      TouchedAllAppend(Room(capacity), history, key);
      history := history + [key];
      CacheSize(index, cache, nextNode, generator);
      CachesRecentKeys(index, cache, nextNode, generator, capacity, history);
    }

    method Refresh(key: K) returns (value: V)
      requires Sound() && key in cache
      modifies this`index
      ensures Sound() && value == generator(key)
      ensures OldestFirst(index) == Touched(old(OldestFirst(index)), Room(capacity), key)
    {
      var k := FindNode(index, cache[key].node);
      NodeOfKey(index, cache, nextNode, generator, key);
      RefreshedOrder(index, k, Room(capacity));
      RefreshedLinked(index, cache, nextNode, generator, k);
      index := [index[k]] + Without(index, k);
      value := cache[key].value;
    }

    method Add(key: K) returns (value: V)
      requires Sound() && key !in cache
      modifies this`index, this`cache, this`nextNode
      ensures Sound() && value == generator(key)
      ensures OldestFirst(index) == Touched(old(OldestFirst(index)), Room(capacity), key)
    {
      CacheSize(index, cache, nextNode, generator);
      ghost var before := index;
      if |cache| >= capacity {
        Remove();
      }
      AddedLinked(index, cache, nextNode, generator, key);
      AddedOrder(before, index, Room(capacity), Node(nextNode, key));
      index := [Node(nextNode, key)] + index;
      cache := cache[key := Entry(generator(key), nextNode)];
      nextNode := nextNode + 1;
      value := cache[key].value;
    }

    /** Drop the least recently used entry. */
    method Remove()
      requires Linked(index, cache, nextNode, generator)
      modifies this`index, this`cache
      ensures Linked(index, cache, nextNode, generator)
      ensures index == if old(index) == [] then [] else old(index)[..|old(index)| - 1]
      ensures forall k :: k in cache ==> k in old(cache)
    {
      if index != [] {
        var last := |index| - 1;
        RemovedLinked(index, cache, nextNode, generator);
        cache := cache - {index[last].key};
        index := index[..last];
      }
    }
  }
}
