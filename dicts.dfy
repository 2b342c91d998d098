/**
 * The values that `dataclasses.asdict` and `Model.as_dict` produce, and the
 * part of Python's `dict` semantics the models rely on: insertion-ordered
 * entries with distinct keys, lookup, and the merge `{**a, **b}`.
 */
module Dicts {
  import opened Wrappers
  import Stamps

  /** A Python value as it appears in a model's dictionary. */
  datatype Value =
    | Null                        // None
    | Bool(b: bool)
    | Int(i: int)
    | Str(s: string)
    | Date(stamp: Stamps.Stamp)   // a MySQLdb `Date` (also a datetime)
    | List(items: seq<Value>)
    | Dict(entries: seq<Entry>)   // a dict: its entries in insertion order

  /**
   * One key and its value. A sequence of entries may repeat a key; the ones
   * that do not (`UniqueKeys`) are the dicts Python builds.
   */
  datatype Entry = Entry(key: string, val: Value)

  /** `d.keys()`, in order. */
  function Keys(d: seq<Entry>): (ks: seq<string>)
  {
    seq(|d|, i requires 0 <= i < |d| => d[i].key)
  }

  lemma KeysAppend(a: seq<Entry>, b: seq<Entry>)
    ensures Keys(a + b) == Keys(a) + Keys(b)
  {
  }

  lemma KeysTail(d: seq<Entry>)
    requires d != []
    ensures Keys(d) == [d[0].key] + Keys(d[1..])
  {
  }

  /** What a Python dict guarantees: no key occurs twice. */
  predicate UniqueKeys(d: seq<Entry>) {
    forall i, j :: 0 <= i < j < |d| ==> d[i].key != d[j].key
  }

  /** Distinct keys make a real dict. */
  lemma UniqueByKeys(d: seq<Entry>)
    requires Distinct(Keys(d))
    ensures UniqueKeys(d)
  {
    forall i, j | 0 <= i < j < |d| ensures d[i].key != d[j].key {
      assert Keys(d)[i] == d[i].key && Keys(d)[j] == d[j].key;
    }
  }

  /** No name occurs twice. */
  predicate Distinct(ks: seq<string>) {
    forall i, j :: 0 <= i < j < |ks| ==> ks[i] != ks[j]
  }

  /** The dict pairing each name with the value at the same position. */
  function Zip(ks: seq<string>, vs: seq<Value>): (d: seq<Entry>)
    requires |ks| == |vs|
    ensures Keys(d) == ks
  {
    seq(|ks|, i requires 0 <= i < |ks| => Entry(ks[i], vs[i]))
  }

  /** Under each of its distinct names, a zipped dict holds the value at that name's position. */
  lemma ZipLookup(ks: seq<string>, vs: seq<Value>, i: nat)
    requires |ks| == |vs| && Distinct(ks) && i < |ks|
    ensures UniqueKeys(Zip(ks, vs))
    ensures Lookup(Zip(ks, vs), ks[i]) == Some(vs[i])
  {
    var d := Zip(ks, vs);
    assert forall j :: 0 <= j < |d| ==> d[j] == Entry(ks[j], vs[j]);
    LookupAt(d, i);
  }

  /** `d.get(k)`: the value stored under `k`, if any. */
  function Lookup(d: seq<Entry>, k: string): (r: Option<Value>)
    ensures r.None? <==> k !in Keys(d)
  {
    if d == [] then None
    else
      KeysTail(d);
      if d[0].key == k then Some(d[0].val) else Lookup(d[1..], k)
  }

  lemma {:induction false} LookupAt(d: seq<Entry>, i: nat)
    requires UniqueKeys(d) && i < |d|
    ensures Lookup(d, d[i].key) == Some(d[i].val)
  {
    if i > 0 {
      LookupAt(d[1..], i - 1);
    }
  }

  /** `d` with every entry under `k` given the value `v`; positions do not move. */
  function Replace(d: seq<Entry>, k: string, v: Value): (r: seq<Entry>)
    ensures Keys(r) == Keys(d)
  {
    if d == [] then []
    else
      var head, tail := if d[0].key == k then Entry(k, v) else d[0], Replace(d[1..], k, v);
      KeysTail(d);
      KeysAppend([head], tail);
      [head] + tail
  }

  /** `d[k] = v`: overwrite in place when `k` is present, otherwise append at the end. */
  function Put(d: seq<Entry>, k: string, v: Value): (r: seq<Entry>)
  {
    if k in Keys(d) then Replace(d, k, v) else d + [Entry(k, v)]
  }

  lemma {:induction false} ReplaceLookup(d: seq<Entry>, k: string, v: Value, k': string)
    ensures Lookup(Replace(d, k, v), k') == if k' == k && k in Keys(d) then Some(v) else Lookup(d, k')
  {
    if d != [] {
      ReplaceLookup(d[1..], k, v, k');
    }
  }

  lemma {:induction false} AppendLookup(d: seq<Entry>, e: Entry, k': string)
    ensures Lookup(d + [e], k') == if k' in Keys(d) then Lookup(d, k') else if k' == e.key then Some(e.val) else None
  {
    if d != [] {
      assert (d + [e])[1..] == d[1..] + [e];
      KeysTail(d);
      KeysTail(d + [e]);
      AppendLookup(d[1..], e, k');
    }
  }

  lemma PutLookup(d: seq<Entry>, k: string, v: Value, k': string)
    ensures Lookup(Put(d, k, v), k') == if k' == k then Some(v) else Lookup(d, k')
    ensures Keys(Put(d, k, v)) == if k in Keys(d) then Keys(d) else Keys(d) + [k]
  {
    if k in Keys(d) {
      ReplaceLookup(d, k, v, k');
    } else {
      AppendLookup(d, Entry(k, v), k');
    }
  }

  lemma PutUnique(d: seq<Entry>, k: string, v: Value)
    requires UniqueKeys(d)
    ensures UniqueKeys(Put(d, k, v))
  {
    var r := Put(d, k, v);
    PutLookup(d, k, v, k);
    forall i, j | 0 <= i < j < |r| ensures r[i].key != r[j].key {
      assert Keys(r)[i] == r[i].key && Keys(r)[j] == r[j].key;
      if k !in Keys(d) && j == |d| {
        assert r[i].key == d[i].key;
      } else {
        assert Keys(r)[i] == Keys(d)[i] && Keys(r)[j] == Keys(d)[j];
      }
    }
  }

  /** `{**a, **b}`: the entries of `a`, then each entry of `b` stored in turn. */
  function Merge(a: seq<Entry>, b: seq<Entry>): (r: seq<Entry>)
    decreases |b|
  {
    if b == [] then a else Merge(Put(a, b[0].key, b[0].val), b[1..])
  }

  /** Dropping the first entry keeps the keys unique. */
  lemma UniqueKeysTail(d: seq<Entry>)
    requires d != [] && UniqueKeys(d)
    ensures UniqueKeys(d[1..])
  {
    var rest := d[1..];
    forall i, j | 0 <= i < j < |rest| ensures rest[i].key != rest[j].key {
      assert rest[i] == d[i + 1] && rest[j] == d[j + 1];
    }
  }

  /** In a merge the right-hand dict wins on every key it has; other keys come from the left. */
  lemma {:induction false} MergeLookup(a: seq<Entry>, b: seq<Entry>, k: string)
    requires UniqueKeys(b)
    ensures Lookup(Merge(a, b), k) == if k in Keys(b) then Lookup(b, k) else Lookup(a, k)
    decreases |b|
  {
    if b != [] {
      var e, rest := b[0], b[1..];
      UniqueKeysTail(b);
      PutLookup(a, e.key, e.val, k);
      MergeLookup(Put(a, e.key, e.val), rest, k);
      KeysTail(b);
      if e.key == k {
        assert k !in Keys(rest) by {
          forall i | 0 <= i < |rest| ensures Keys(rest)[i] != k {
            assert rest[i] == b[i + 1];
          }
        }
        assert Lookup(b, k) == Some(e.val);
      } else {
        assert Lookup(b, k) == Lookup(rest, k);
      }
    }
  }

  /** A merge keeps the dict property, and its keys are those of either side. */
  lemma {:induction false} MergeKeys(a: seq<Entry>, b: seq<Entry>)
    requires UniqueKeys(a)
    ensures UniqueKeys(Merge(a, b))
    ensures forall k :: k in Keys(Merge(a, b)) <==> k in Keys(a) || k in Keys(b)
    decreases |b|
  {
    if b != [] {
      var e := b[0];
      PutUnique(a, e.key, e.val);
      PutLookup(a, e.key, e.val, e.key);
      MergeKeys(Put(a, e.key, e.val), b[1..]);
      KeysTail(b);
    }
  }

  /** No key of `a` is a key of `b`. */
  predicate DisjointKeys(a: seq<Entry>, b: seq<Entry>) {
    forall i, j :: 0 <= i < |a| && 0 <= j < |b| ==> a[i].key != b[j].key
  }

  lemma DisjointByKeys(a: seq<Entry>, b: seq<Entry>)
    requires forall k :: k in Keys(a) ==> k !in Keys(b)
    ensures DisjointKeys(a, b)
  {
    forall i, j | 0 <= i < |a| && 0 <= j < |b| ensures a[i].key != b[j].key {
      assert Keys(a)[i] == a[i].key && Keys(a)[i] in Keys(a);
      assert Keys(b)[j] == b[j].key && Keys(b)[j] in Keys(b);
    }
  }

  /** Moving the first entry of `b` to the end of `a` keeps the two sides disjoint. */
  lemma DisjointShift(a: seq<Entry>, b: seq<Entry>)
    requires b != [] && DisjointKeys(a, b) && UniqueKeys(b)
    ensures DisjointKeys(a + [b[0]], b[1..])
  {
    var a', rest := a + [b[0]], b[1..];
    forall i, j | 0 <= i < |a'| && 0 <= j < |rest| ensures a'[i].key != rest[j].key {
      assert rest[j] == b[j + 1];
      if i < |a| {
        assert a'[i] == a[i];
      } else {
        assert a'[i] == b[0];
      }
    }
  }

  /** When no key is shared, the merge simply lists `a`'s entries and then `b`'s. */
  lemma {:induction false} MergeDisjoint(a: seq<Entry>, b: seq<Entry>)
    requires DisjointKeys(a, b) && UniqueKeys(b)
    ensures Merge(a, b) == a + b
    decreases |b|
  {
    if b != [] {
      var e, rest := b[0], b[1..];
      calc {
        Merge(a, b);
      ==
        Merge(Put(a, e.key, e.val), rest);
      == { PutFresh(a, e); }
        Merge(a + [e], rest);
      == { DisjointShift(a, b); UniqueKeysTail(b); MergeDisjoint(a + [e], rest); }
        a + [e] + rest;
      == { assert b == [e] + rest; }
        a + b;
      }
    }
  }

  /** Storing a key that `d` does not have appends the entry at the end. */
  lemma PutFresh(d: seq<Entry>, e: Entry)
    requires forall i :: 0 <= i < |d| ==> d[i].key != e.key
    ensures Put(d, e.key, e.val) == d + [e]
  {
    assert e.key !in Keys(d) by {
      forall i | 0 <= i < |d| ensures Keys(d)[i] != e.key {
        assert d[i].key != e.key;
      }
    }
  }
}
