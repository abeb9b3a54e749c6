/** What putting entries into a map in turn comes to. */
module MapLaws {
  import opened KeyMaps

  predicate HasKey<V>(m: seq<Entry<V>>, key: Text) {
    exists i :: 0 <= i < |m| && m[i].key == key
  }

  predicate DistinctKeys<V>(m: seq<Entry<V>>) {
    forall i, j :: 0 <= i < j < |m| ==> m[i].key != m[j].key
  }

  /** Entries that have keys of their own and meet none that is there. */
  predicate Fresh<V>(done: seq<Entry<V>>, m: seq<Entry<V>>) {
    DistinctKeys(m) && forall i :: 0 <= i < |m| ==> !HasKey(done, m[i].key)
  }

  /** Entries of which no two say different things of a key. */
  ghost predicate Consistent<V>(m: seq<Entry<V>>) {
    forall i, j :: 0 <= i < |m| && 0 <= j < |m| && m[i].key == m[j].key ==> m[i] == m[j]
  }

  // ----- the order of keys

  lemma {:induction false} LessTrans(a: Text, b: Text, c: Text)
    requires Less(a, b) && Less(b, c)
    ensures Less(a, c)
    decreases |a|
  {
    if a != [] && a[0] == b[0] && b[0] == c[0] {
      LessTrans(a[1..], b[1..], c[1..]);
    }
  }

  lemma {:induction false} LessTotal(a: Text, b: Text)
    requires a != b && !Less(b, a)
    ensures Less(a, b)
    decreases |a|
  {
    if a != [] && b != [] && a[0] == b[0] {
      assert a == [a[0]] + a[1..] && b == [b[0]] + b[1..];
      LessTotal(a[1..], b[1..]);
    }
  }

  // ----- keys and sizes

  lemma {:induction false} PutKeys<V>(m: seq<Entry<V>>, key: Text, value: V, k: Text)
    ensures HasKey(Put(m, key, value), k) <==> HasKey(m, k) || k == key
  {
    hide Less;
    if m != [] {
      PutKeys(m[1..], key, value, k);
      HasKeyStep(m[0], m[1..], k);
      HasKeyStep(m[0], Put(m[1..], key, value), k);
      HasKeyStep(Entry(key, value), m[1..], k);
      HasKeyStep(Entry(key, value), m, k);
      assert [m[0]] + m[1..] == m;
    } else {
      HasKeyStep(Entry(key, value), m, k);
      assert [Entry(key, value)] + m == [Entry(key, value)];
    }
  }

  lemma HasKeyStep<V>(e: Entry<V>, m: seq<Entry<V>>, k: Text)
    ensures HasKey([e] + m, k) <==> e.key == k || HasKey(m, k)
  {
    if e.key == k {
      assert ([e] + m)[0].key == k;
    }
    if HasKey(m, k) {
      var i :| 0 <= i < |m| && m[i].key == k;
      assert ([e] + m)[i + 1].key == k;
    }
  }

  /** A map stays in order. */
  lemma {:induction false} PutSorted<V>(m: seq<Entry<V>>, key: Text, value: V)
    requires Sorted(m)
    ensures Sorted(Put(m, key, value))
  {
    hide Less;
    if m != [] && m[0].key != key {
      if Less(key, m[0].key) {
        forall i | 0 <= i < |m| ensures Less(key, m[i].key) {
          if i > 0 {
            LessTrans(key, m[0].key, m[i].key);
          }
        }
      } else {
        LessTotal(m[0].key, key);
        PutSorted(m[1..], key, value);
        var rest := Put(m[1..], key, value);
        forall i | 0 <= i < |rest| ensures Less(m[0].key, rest[i].key) {
          PutBrings(m[1..], key, value, rest[i]);
        }
      }
    }
  }

  lemma {:induction false} PutSize<V>(m: seq<Entry<V>>, key: Text, value: V)
    requires Sorted(m)
    ensures |Put(m, key, value)| == |m| + if HasKey(m, key) then 0 else 1
  {
    hide Less;
    if m != [] {
      assert [m[0]] + m[1..] == m;
      HasKeyStep(m[0], m[1..], key);
      if m[0].key != key {
        if Less(key, m[0].key) {
          forall i | 0 <= i < |m| ensures m[i].key != key {
            if i > 0 && m[i].key == key {
              LessOneWay(m[0].key, key);
            }
          }
        } else {
          PutSize(m[1..], key, value);
        }
      }
    }
  }

  lemma FreshStep<V>(done: seq<Entry<V>>, m: seq<Entry<V>>)
    requires m != []
    ensures Fresh(done, m) <==> !HasKey(done, m[0].key) && Fresh(Put(done, m[0].key, m[0].value), m[1..])
  {
    hide Put, HasKey;
    var next := Put(done, m[0].key, m[0].value);
    forall k ensures HasKey(next, k) <==> HasKey(done, k) || k == m[0].key {
      PutKeys(done, m[0].key, m[0].value, k);
    }
    assert forall i :: 0 < i < |m| ==> m[i] == m[1..][i - 1];
    assert forall i :: 0 <= i < |m| - 1 ==> m[1..][i] == m[i + 1];
    if !HasKey(done, m[0].key) && Fresh(next, m[1..]) {
      forall i, j | 0 <= i < j < |m| ensures m[i].key != m[j].key {
        assert m[j] == m[1..][j - 1];
        if i > 0 {
          assert m[i] == m[1..][i - 1];
        }
      }
      forall i | 0 <= i < |m| ensures !HasKey(done, m[i].key) {
        if i > 0 {
          assert m[i] == m[1..][i - 1];
        }
      }
    }
  }

  /** No entry is lost exactly if all have keys of their own. */
  lemma {:induction false} PutAllSizeIff<V>(done: seq<Entry<V>>, m: seq<Entry<V>>)
    requires Sorted(done)
    ensures Sorted(PutAll(done, m)) && |PutAll(done, m)| <= |done| + |m|
    ensures |PutAll(done, m)| == |done| + |m| <==> Fresh(done, m)
    decreases |m|
  {
    hide Put, HasKey, Fresh, Sorted;
    if m != [] {
      PutSorted(done, m[0].key, m[0].value);
      PutSize(done, m[0].key, m[0].value);
      FreshStep(done, m);
      PutAllSizeIff(Put(done, m[0].key, m[0].value), m[1..]);
    } else {
      NothingFresh(done);
    }
  }

  lemma NothingFresh<V>(done: seq<Entry<V>>)
    ensures Fresh(done, [])
  {
  }

  lemma {:induction false} PutAllKeys<V>(done: seq<Entry<V>>, m: seq<Entry<V>>, k: Text)
    ensures HasKey(PutAll(done, m), k) <==> HasKey(done, k) || HasKey(m, k)
    decreases |m|
  {
    hide Put, HasKey;
    if m != [] {
      PutKeys(done, m[0].key, m[0].value, k);
      PutAllKeys(Put(done, m[0].key, m[0].value), m[1..], k);
      HasKeyStep(m[0], m[1..], k);
      assert [m[0]] + m[1..] == m;
    } else {
      NoKeys<V>(k);
    }
  }

  lemma NoKeys<V>(k: Text)
    ensures !HasKey<V>([], k)
  {
  }

  // ----- putting lists in one after the other

  lemma {:induction false} PutAllConcat<V>(done: seq<Entry<V>>, a: seq<Entry<V>>, b: seq<Entry<V>>)
    ensures PutAll(done, a + b) == PutAll(PutAll(done, a), b)
    decreases |a|
  {
    hide Put;
    if a == [] {
      assert a + b == b;
    } else {
      assert (a + b)[0] == a[0] && (a + b)[1..] == a[1..] + b;
      PutAllConcat(Put(done, a[0].key, a[0].value), a[1..], b);
    }
  }

  lemma {:induction false} FreshConcat<V>(done: seq<Entry<V>>, a: seq<Entry<V>>, b: seq<Entry<V>>)
    ensures Fresh(done, a + b) <==> Fresh(done, a) && Fresh(PutAll(done, a), b)
    decreases |a|
  {
    hide Put, HasKey, Fresh;
    if a == [] {
      assert a + b == b;
      NothingFresh(done);
    } else {
      assert (a + b)[0] == a[0] && (a + b)[1..] == a[1..] + b;
      FreshStep(done, a + b);
      FreshStep(done, a);
      FreshConcat(Put(done, a[0].key, a[0].value), a[1..], b);
    }
  }

  // ----- entries

  lemma {:induction false} PutEntries<V>(m: seq<Entry<V>>, key: Text, value: V, e: Entry<V>)
    requires forall i :: 0 <= i < |m| && m[i].key == key ==> m[i].value == value
    ensures e in Put(m, key, value) <==> e in m || e == Entry(key, value)
  {
    hide Less;
    if m != [] {
      PutEntries(m[1..], key, value, e);
      assert m == [m[0]] + m[1..];
    }
  }

  /** If no two entries contradict each other, the map holds them all, and nothing else. */
  lemma {:induction false} PutAllEntries<V>(done: seq<Entry<V>>, m: seq<Entry<V>>, e: Entry<V>)
    requires Consistent(done + m)
    ensures e in PutAll(done, m) <==> e in done || e in m
    decreases |m|
  {
    hide Put;
    if m != [] {
      var next := Put(done, m[0].key, m[0].value);
      assert (done + m)[|done|] == m[0];
      assert forall i :: 0 <= i < |done| ==> (done + m)[i] == done[i];
      PutEntries(done, m[0].key, m[0].value, e);
      forall x | x in next + m[1..] ensures x in done + m {
        PutEntries(done, m[0].key, m[0].value, x);
      }
      forall i, j | 0 <= i < |next + m[1..]| && 0 <= j < |next + m[1..]| && (next + m[1..])[i].key == (next + m[1..])[j].key
        ensures (next + m[1..])[i] == (next + m[1..])[j]
      {
        assert (next + m[1..])[i] in done + m && (next + m[1..])[j] in done + m;
      }
      PutAllEntries(next, m[1..], e);
      assert m == [m[0]] + m[1..];
    }
  }
}
