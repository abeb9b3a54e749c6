/** Maps from texts whose entries stand in the order of their keys, as they are written out. */
module KeyMaps {
  import opened Octets
  import opened Widths

  type Text = seq<Octet>

  /** A text behind its length. */
  function PackText(s: Text): seq<Octet> {
    Pack(|s|, 4) + s
  }

  predicate TextFits(s: Text) {
    |s| < WORD
  }

  datatype Entry<V> = Entry(key: Text, value: V)

  /** Byte by byte, a beginning before the whole. */
  predicate Less(a: Text, b: Text) {
    b != [] && (a == [] || a[0] < b[0] || (a[0] == b[0] && Less(a[1..], b[1..])))
  }

  /** An entry takes its place in the order, or that of an entry with the same key. */
  function Put<V>(m: seq<Entry<V>>, key: Text, value: V): seq<Entry<V>> {
    if m == [] then [Entry(key, value)]
    else if m[0].key == key then [Entry(key, value)] + m[1..]
    else if Less(key, m[0].key) then [Entry(key, value)] + m
    else [m[0]] + Put(m[1..], key, value)
  }

  /** The entries of a list put into a map in turn. */
  function PutAll<V>(done: seq<Entry<V>>, m: seq<Entry<V>>): seq<Entry<V>>
    decreases |m|
  {
    if m == [] then done else PutAll(Put(done, m[0].key, m[0].value), m[1..])
  }

  predicate Sorted<V>(m: seq<Entry<V>>) {
    forall i, j :: 0 <= i < j < |m| ==> Less(m[i].key, m[j].key)
  }

  lemma {:induction false} LessOneWay(a: Text, b: Text)
    requires Less(a, b)
    ensures a != b && !Less(b, a)
    decreases |a|
  {
    if a != [] && a[0] == b[0] {
      LessOneWay(a[1..], b[1..]);
    }
  }

  /** An entry behind all others goes to the end. */
  lemma {:induction false} PutLast<V>(m: seq<Entry<V>>, key: Text, value: V)
    requires forall i :: 0 <= i < |m| ==> Less(m[i].key, key)
    ensures Put(m, key, value) == m + [Entry(key, value)]
  {
    if m != [] {
      LessOneWay(m[0].key, key);
      PutLast(m[1..], key, value);
    }
  }

  /** So the entries of a sorted map, put in one after the other, make the map again. */
  lemma PutNext<V>(done: seq<Entry<V>>, m: seq<Entry<V>>)
    requires m != [] && Sorted(done + m)
    ensures Put(done, m[0].key, m[0].value) == done + [m[0]]
    ensures done + m == (done + [m[0]]) + m[1..]
  {
    hide Less, Put;
    assert (done + m)[|done|] == m[0];
    assert forall i :: 0 <= i < |done| ==> (done + m)[i] == done[i];
    PutLast(done, m[0].key, m[0].value);
  }

  /** Putting an entry in brings no other entries. */
  lemma {:induction false} PutBrings<V>(m: seq<Entry<V>>, key: Text, value: V, e: Entry<V>)
    ensures e in Put(m, key, value) ==> e in m || e == Entry(key, value)
  {
    if m != [] {
      PutBrings(m[1..], key, value, e);
    }
  }

  /** A sorted list is the map it is put into. */
  lemma {:induction false} PutAllSorted<V>(done: seq<Entry<V>>, m: seq<Entry<V>>)
    requires Sorted(done + m)
    ensures PutAll(done, m) == done + m
    decreases |m|
  {
    hide Put, Sorted;
    if m == [] {
      assert done + m == done;
    } else {
      PutNext(done, m);
      PutAllSorted(done + [m[0]], m[1..]);
    }
  }
}
