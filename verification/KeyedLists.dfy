/** Lists in which entries are identified by a key: what adding unknown keys and dropping stale keys means. */
module KeyedLists {
  import opened Common

  function KeySeq<T, K>(items: seq<T>, key: T -> K): (keys: seq<K>)
    ensures |keys| == |items| && forall i :: 0 <= i < |items| ==> keys[i] == key(items[i])
  {
    seq(|items|, i requires 0 <= i < |items| => key(items[i]))
  }

  lemma KeySeqNext<T, K>(items: seq<T>, i: nat, key: T -> K)
    requires i < |items|
    ensures KeySeq(items[..i + 1], key) == KeySeq(items[..i], key) + [key(items[i])]
  {
  }

  function Elements<T(==)>(items: seq<T>): set<T> {
    set x | x in items
  }

  function KeySet<T, K(==)>(items: seq<T>, key: T -> K): set<K> {
    set i | 0 <= i < |items| :: key(items[i])
  }

  /** The entries of `items` whose key is not in `have`, each key once, at its first occurrence. */
  function NewOnes<T, K(==)>(have: set<K>, items: seq<T>, key: T -> K): seq<T> {
    if items == [] then []
    else
      var init, last := items[..|items| - 1], items[|items| - 1];
      NewOnes(have, init, key) +
      if key(last) in have || key(last) in KeySet(init, key) then [] else [last]
  }

  /** `base` extended by the entries of `items` with keys it does not have. */
  function AppendNew<T, K(==)>(base: seq<T>, items: seq<T>, key: T -> K): seq<T> {
    base + NewOnes(KeySet(base, key), items, key)
  }

  /** The entries whose key is in `found`, in order; `keys[i]` is the key of `items[i]`. */
  function Keep<T, K(==)>(items: seq<T>, keys: seq<K>, found: set<K>): seq<T>
    requires |keys| == |items|
    decreases |items|
  {
    if items == [] then []
    else (if keys[0] in found then [items[0]] else []) + Keep(items[1..], keys[1..], found)
  }

  // ----- key sets -----

  lemma KeySetOfSum<T, K>(a: seq<T>, b: seq<T>, key: T -> K)
    ensures KeySet(a + b, key) == KeySet(a, key) + KeySet(b, key)
  {
    forall k | k in KeySet(a, key) + KeySet(b, key) ensures k in KeySet(a + b, key) {
      if i :| 0 <= i < |a| && key(a[i]) == k {
        assert (a + b)[i] == a[i];
      } else {
        var j :| 0 <= j < |b| && key(b[j]) == k;
        assert (a + b)[|a| + j] == b[j];
      }
    }
  }

  lemma KeySetSplit<T, K>(items: seq<T>, key: T -> K)
    requires items != []
    ensures KeySet(items, key) == KeySet(items[..|items| - 1], key) + {key(items[|items| - 1])}
  {
    var init, last := items[..|items| - 1], items[|items| - 1];
    assert items == init + [last];
    KeySetOfSum(init, [last], key);
    assert KeySet([last], key) == {key(last)} by {
      assert [last][0] == last;
    }
  }

  /** The new ones have exactly the keys that were missing. */
  lemma {:induction false} NewOnesKeys<T, K>(have: set<K>, items: seq<T>, key: T -> K)
    ensures KeySet(NewOnes(have, items, key), key) == KeySet(items, key) - have
    decreases |items|
  {
    if items != [] {
      var init, last := items[..|items| - 1], items[|items| - 1];
      NewOnesKeys(have, init, key);
      KeySetSplit(items, key);
      KeySetOfSum(NewOnes(have, init, key), [last], key);
      assert KeySet([last], key) == {key(last)} by {
        assert [last][0] == last;
      }
      assert NewOnes(have, init, key) + [] == NewOnes(have, init, key);
    }
  }

  lemma AppendNewKeys<T, K>(base: seq<T>, items: seq<T>, key: T -> K)
    ensures KeySet(AppendNew(base, items, key), key) == KeySet(base, key) + KeySet(items, key)
  {
    NewOnesKeys(KeySet(base, key), items, key);
    KeySetOfSum(base, NewOnes(KeySet(base, key), items, key), key);
  }

  /** Appending one item more, by whether a search found its key. */
  lemma AppendNext<T, K>(base: seq<T>, items: seq<T>, i: nat, key: T -> K, found: bool)
    requires i < |items|
    requires found <==> key(items[i]) in KeySet(AppendNew(base, items[..i], key), key)
    ensures AppendNew(base, items[..i + 1], key) ==
            AppendNew(base, items[..i], key) + if found then [] else [items[i]]
  {
    AppendNewKeys(base, items[..i], key);
    assert items[..i + 1][..i] == items[..i];
  }

  /** The new ones have each key once. */
  lemma {:induction false} NewOnesDistinct<T, K>(have: set<K>, items: seq<T>, key: T -> K)
    ensures Distinct(KeySeq(NewOnes(have, items, key), key))
    decreases |items|
  {
    if items != [] {
      var init, last := items[..|items| - 1], items[|items| - 1];
      NewOnesDistinct(have, init, key);
      NewOnesKeys(have, init, key);
      var before := NewOnes(have, init, key);
      forall i | 0 <= i < |before| ensures key(before[i]) in KeySet(init, key) - have {
        assert key(before[i]) in KeySet(before, key);
      }
    }
  }

  /** A key is among the old and the added ones exactly when it was there or comes in. */
  lemma PresentKeys<T, K>(have: seq<K>, items: seq<T>, key: T -> K, k: K)
    ensures k in have + KeySeq(NewOnes(Elements(have), items, key), key) <==>
            k in have || k in KeySet(items, key)
  {
    var news := NewOnes(Elements(have), items, key);
    NewOnesKeys(Elements(have), items, key);
    assert k in KeySeq(news, key) <==> k in KeySet(news, key) by {
      if k in KeySeq(news, key) {
        var i :| 0 <= i < |news| && KeySeq(news, key)[i] == k;
        assert key(news[i]) == k;
      }
      if k in KeySet(news, key) {
        var i :| 0 <= i < |news| && key(news[i]) == k;
        assert KeySeq(news, key)[i] == k;
      }
    }
  }

  /** `news` are the new ones among the first `i` items. */
  ghost predicate NewsAre<T, K>(have: seq<K>, items: seq<T>, i: nat, key: T -> K, news: seq<T>)
    requires i <= |items|
  {
    forall k: nat {:trigger Open(k)} :: Open(k) ==> news == NewOnes(Elements(have), items[..i], key)
  }

  lemma NoNewsYet<T, K>(have: seq<K>, items: seq<T>, key: T -> K)
    ensures NewsAre(have, items, 0, key, [])
  {
  }

  /** The new ones after one more item, by whether a search among the old and added entries found its key. */
  lemma NextNews<T, K>(have: seq<K>, items: seq<T>, i: nat, key: T -> K, news: seq<T>, found: bool)
    requires i < |items| && NewsAre(have, items, i, key, news)
    requires found <==> key(items[i]) in have + KeySeq(news, key)
    ensures NewsAre(have, items, i + 1, key, news + if found then [] else [items[i]])
  {
    assert Open(0);
    PresentKeys(have, items[..i], key, key(items[i]));
    assert items[..i + 1][..i] == items[..i];
    assert news + [] == news;
  }

  lemma AllNews<T, K>(have: seq<K>, items: seq<T>, key: T -> K, news: seq<T>)
    requires NewsAre(have, items, |items|, key, news)
    ensures news == NewOnes(Elements(have), items, key)
  {
    assert Open(0);
    assert items[..|items|] == items;
  }

  // ----- which entries the new ones are -----

  /** The entry at `i` has a key that is not in `have` and at no earlier position. */
  predicate FirstAt<T, K>(have: set<K>, items: seq<T>, key: T -> K, i: nat)
    requires i < |items|
  {
    key(items[i]) !in have && forall j :: 0 <= j < i ==> key(items[j]) != key(items[i])
  }

  /** `at` are the positions of the first occurrences of the keys not in `have`, in order. */
  ghost predicate FirstPositions<T, K>(have: set<K>, items: seq<T>, key: T -> K, at: seq<nat>) {
    && (forall a, b :: 0 <= a < b < |at| ==> at[a] < at[b])
    && (forall a :: 0 <= a < |at| ==> at[a] < |items| && FirstAt(have, items, key, at[a]))
    && (forall i :: 0 <= i < |items| && FirstAt(have, items, key, i) ==> i in at)
  }

  /** The new ones are the entries at those positions. */
  lemma {:induction false} NewOnesAreFirst<T, K>(have: set<K>, items: seq<T>, key: T -> K) returns (at: seq<nat>)
    ensures FirstPositions(have, items, key, at) && |at| == |NewOnes(have, items, key)|
    ensures forall a :: 0 <= a < |at| ==> NewOnes(have, items, key)[a] == items[at[a]]
    decreases |items|
  {
    if items == [] {
      at := [];
    } else {
      var n := |items| - 1;
      var init := items[..n];
      at := NewOnesAreFirst(have, init, key);
      OneMorePosition(have, items, key, at);
      LastIsFirst(have, items, key);
      at := at + if FirstAt(have, items, key, n) then [n] else [];
    }
  }

  lemma LastIsFirst<T, K>(have: set<K>, items: seq<T>, key: T -> K)
    requires items != []
    ensures var n := |items| - 1;
      FirstAt(have, items, key, n) <==> key(items[n]) !in have && key(items[n]) !in KeySet(items[..n], key)
  {
    var n := |items| - 1;
    forall j | 0 <= j < n ensures key(items[j]) in KeySet(items[..n], key) {
      assert items[..n][j] == items[j];
    }
  }

  lemma OneMorePosition<T, K>(have: set<K>, items: seq<T>, key: T -> K, at: seq<nat>)
    requires items != [] && FirstPositions(have, items[..|items| - 1], key, at)
    ensures var n := |items| - 1;
      FirstPositions(have, items, key, at + if FirstAt(have, items, key, n) then [n] else [])
  {
    var n := |items| - 1;
    var init := items[..n];
    forall i | 0 <= i < n ensures FirstAt(have, items, key, i) == FirstAt(have, init, key, i) {
      assert forall j :: 0 <= j <= i ==> items[j] == init[j];
    }
  }

  // ----- sums of lists -----

  lemma {:induction false} NewOnesOfSum<T, K>(have: set<K>, a: seq<T>, b: seq<T>, key: T -> K)
    ensures NewOnes(have, a + b, key) == NewOnes(have, a, key) + NewOnes(have + KeySet(a, key), b, key)
    decreases |b|
  {
    if b == [] {
      assert a + b == a;
    } else {
      var init, last := b[..|b| - 1], b[|b| - 1];
      NewOnesOfSum(have, a, init, key);
      assert (a + b)[..|a + b| - 1] == a + init && (a + b)[|a + b| - 1] == last;
      KeySetOfSum(a, init, key);
    }
  }

  /** Dropping first what a smaller list already has makes no difference. */
  lemma {:induction false} NewOnesTwice<T, K>(have: set<K>, less: set<K>, items: seq<T>, key: T -> K)
    requires less <= have
    ensures NewOnes(have, NewOnes(less, items, key), key) == NewOnes(have, items, key)
    decreases |items|
  {
    if items != [] {
      var init, last := items[..|items| - 1], items[|items| - 1];
      var before := NewOnes(less, init, key);
      NewOnesTwice(have, less, init, key);
      NewOnesKeys(less, init, key);
      if key(last) in less || key(last) in KeySet(init, key) {
        assert before + [] == before;
      } else {
        assert (before + [last])[..|before + [last]| - 1] == before;
      }
    }
  }

  /** Adding is associative. */
  lemma AppendNewAssociative<T, K>(a: seq<T>, b: seq<T>, c: seq<T>, key: T -> K)
    ensures AppendNew(AppendNew(a, b, key), c, key) == AppendNew(a, AppendNew(b, c, key), key)
  {
    var ka, kb := KeySet(a, key), KeySet(b, key);
    AppendNewKeys(a, b, key);
    NewOnesOfSum(ka, b, NewOnes(kb, c, key), key);
    NewOnesTwice(ka + kb, kb, c, key);
  }

  /** First occurrences of a longer list. */
  lemma FirstOccurrencesOfSum<T, K>(a: seq<T>, b: seq<T>, key: T -> K)
    ensures NewOnes({}, a + b, key) == AppendNew(NewOnes({}, a, key), b, key)
  {
    NewOnesOfSum({}, a, b, key);
    NewOnesKeys({}, a, key);
    assert {} + KeySet(a, key) == KeySet(a, key) - {};
  }

  /** Adding what is all there already adds nothing. */
  lemma {:induction false} NothingNew<T, K>(have: set<K>, items: seq<T>, key: T -> K)
    requires KeySet(items, key) <= have
    ensures NewOnes(have, items, key) == []
    decreases |items|
  {
    if items != [] {
      KeySetSplit(items, key);
      NothingNew(have, items[..|items| - 1], key);
    }
  }

  // ----- keeping -----

  lemma {:induction false} KeepAll<T, K>(items: seq<T>, keys: seq<K>, found: set<K>)
    requires |keys| == |items| && forall i :: 0 <= i < |keys| ==> keys[i] in found
    ensures Keep(items, keys, found) == items
    decreases |items|
  {
    if items != [] {
      KeepAll(items[1..], keys[1..], found);
    }
  }

  lemma {:induction false} KeepOfSum<T, K>(a: seq<T>, b: seq<T>, ka: seq<K>, kb: seq<K>, found: set<K>)
    requires |ka| == |a| && |kb| == |b|
    ensures Keep(a + b, ka + kb, found) == Keep(a, ka, found) + Keep(b, kb, found)
    decreases |a|
  {
    if a == [] {
      assert a + b == b && ka + kb == kb;
    } else {
      KeepOfSum(a[1..], b, ka[1..], kb, found);
      assert (a + b)[1..] == a[1..] + b && (ka + kb)[1..] == ka[1..] + kb;
      var head := if ka[0] in found then [a[0]] else [];
      assert Keep(a + b, ka + kb, found) == head + Keep(a[1..] + b, ka[1..] + kb, found);
    }
  }

  /** Splicing out the last entry that is not kept, the ones after it being kept already. */
  lemma KeepLast<T, K>(items: seq<T>, keys: seq<K>, found: set<K>, i: nat)
    requires |keys| == |items| && i < |items|
    ensures Keep(items[i..], keys[i..], found) ==
            (if keys[i] in found then [items[i]] else []) + Keep(items[i + 1..], keys[i + 1..], found)
  {
    assert items[i..][1..] == items[i + 1..] && keys[i..][1..] == keys[i + 1..];
  }

  /** An entry is kept exactly when it was there and its key was found. */
  lemma {:induction false} KeptMember<T, K>(items: seq<T>, keys: seq<K>, found: set<K>, x: T)
    requires |keys| == |items|
    ensures x in Keep(items, keys, found) <==> exists i :: 0 <= i < |items| && items[i] == x && keys[i] in found
    decreases |items|
  {
    if items != [] {
      KeptMember(items[1..], keys[1..], found, x);
      if x in Keep(items[1..], keys[1..], found) {
        var i :| 0 <= i < |items| - 1 && items[1..][i] == x && keys[1..][i] in found;
        assert items[i + 1] == x && keys[i + 1] in found;
      }
      if i :| 0 <= i < |items| && items[i] == x && keys[i] in found {
        if i > 0 {
          assert items[1..][i - 1] == x && keys[1..][i - 1] in found;
        }
      }
    }
  }

  /** `at` are the positions of the found keys, in order. */
  ghost predicate FoundPositions<K>(keys: seq<K>, found: set<K>, at: seq<nat>) {
    && (forall a, b :: 0 <= a < b < |at| ==> at[a] < at[b])
    && (forall a :: 0 <= a < |at| ==> at[a] < |keys| && keys[at[a]] in found)
    && (forall i :: 0 <= i < |keys| && keys[i] in found ==> i in at)
  }

  /** What is kept are the entries at those positions. */
  lemma {:induction false} KeptAreFound<T, K>(items: seq<T>, keys: seq<K>, found: set<K>) returns (at: seq<nat>)
    requires |keys| == |items|
    ensures FoundPositions(keys, found, at) && |at| == |Keep(items, keys, found)|
    ensures forall a :: 0 <= a < |at| ==> Keep(items, keys, found)[a] == items[at[a]]
    decreases |items|
  {
    if items == [] {
      at := [];
    } else {
      var n := |items| - 1;
      at := KeptAreFound(items[..n], keys[..n], found);
      KeepSplit(items, keys, found);
      at := at + if keys[n] in found then [n] else [];
    }
  }

  lemma KeepSplit<T, K>(items: seq<T>, keys: seq<K>, found: set<K>)
    requires |keys| == |items| > 0
    ensures var n := |items| - 1;
      Keep(items, keys, found) == Keep(items[..n], keys[..n], found) + if keys[n] in found then [items[n]] else []
  {
    var n := |items| - 1;
    KeepOfSum(items[..n], [items[n]], keys[..n], [keys[n]], found);
    assert items[..n] + [items[n]] == items && keys[..n] + [keys[n]] == keys;
    assert [items[n]][1..] == [] && [keys[n]][1..] == [];
  }

  // ----- keeping what comes in and adding what is new -----

  lemma NewsAreFound<T, K>(keys: seq<K>, incoming: seq<T>, key: T -> K)
    ensures var news := KeySeq(NewOnes(Elements(keys), incoming, key), key);
      forall k :: k in news ==> k in KeySet(incoming, key) && k !in keys
  {
    var ones := NewOnes(Elements(keys), incoming, key);
    NewOnesKeys(Elements(keys), incoming, key);
    forall i | 0 <= i < |ones| ensures key(ones[i]) in KeySet(incoming, key) - Elements(keys) {
      assert key(ones[i]) in KeySet(ones, key);
    }
  }

  lemma {:induction false} KeptDistinct<K>(keys: seq<K>, found: set<K>)
    requires Distinct(keys)
    ensures Distinct(Keep(keys, keys, found))
    decreases |keys|
  {
    if keys != [] {
      KeptDistinct(keys[1..], found);
      KeptMember(keys[1..], keys[1..], found, keys[0]);
    }
  }

  /** Keys of the kept entries followed by the new ones. */
  function Reconciled<T, K(==)>(keys: seq<K>, incoming: seq<T>, key: T -> K): seq<K> {
    Keep(keys, keys, KeySet(incoming, key)) + KeySeq(NewOnes(Elements(keys), incoming, key), key)
  }

  lemma ReconciledKeys<T, K>(keys: seq<K>, incoming: seq<T>, key: T -> K)
    ensures Elements(Reconciled(keys, incoming, key)) == KeySet(incoming, key)
  {
    var found, all := KeySet(incoming, key), Reconciled(keys, incoming, key);
    forall k | k in found ensures k in Elements(all) {
      ReconciledHas(keys, incoming, key, k);
    }
    forall k | k in Elements(all) ensures k in found {
      ReconciledHas(keys, incoming, key, k);
    }
  }

  lemma ReconciledHas<T, K>(keys: seq<K>, incoming: seq<T>, key: T -> K, k: K)
    ensures k in Reconciled(keys, incoming, key) <==> k in KeySet(incoming, key)
  {
    var found, news := KeySet(incoming, key), KeySeq(NewOnes(Elements(keys), incoming, key), key);
    NewsAreFound(keys, incoming, key);
    KeptMember(keys, keys, found, k);
    PresentKeys(keys, incoming, key, k);
    assert k in keys + news <==> k in keys || k in news;
    assert k in Reconciled(keys, incoming, key) <==> k in Keep(keys, keys, found) || k in news;
  }

  lemma ReconciledDistinct<T, K>(keys: seq<K>, incoming: seq<T>, key: T -> K)
    requires Distinct(keys)
    ensures Distinct(Reconciled(keys, incoming, key))
  {
    var found := KeySet(incoming, key);
    var kept, news := Keep(keys, keys, found), KeySeq(NewOnes(Elements(keys), incoming, key), key);
    NewsAreFound(keys, incoming, key);
    NewOnesDistinct(Elements(keys), incoming, key);
    KeptDistinct(keys, found);
    forall i, j | 0 <= i < |kept| && 0 <= j < |news| ensures kept[i] != news[j] {
      KeptMember(keys, keys, found, kept[i]);
      assert kept[i] in kept && kept[i] in keys && news[j] in news;
    }
  }
}
