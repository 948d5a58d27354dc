/**
 * The order in which `Object.entries` lists the members of a parsed object:
 * array-index keys first, in ascending numeric order, then the other keys in
 * the order the reply gave them.
 */
module ObjectKeys {
  import opened Text

  /** A key that is an array index: the canonical decimal form of a number below 2^32 - 1. */
  predicate IsIndexKey(key: string) {
    && key != [] && AllDigits(key) && (key[0] == '0' ==> |key| == 1)
    && DigitsValue(key) < 0xFFFF_FFFF
  }

  /** The number an index key stands for (0 for any other key). */
  function KeyValue(key: string): nat {
    if AllDigits(key) then DigitsValue(key) else 0
  }

  /** Index-keyed fields in ascending order of their numbers. */
  predicate Ascending<T>(fields: seq<(string, T)>) {
    forall i, j :: 0 <= i < j < |fields| ==> KeyValue(fields[i].0) <= KeyValue(fields[j].0)
  }

  /** The members of an object whose keys are array indexes, in reply order. */
  function IndexFields<T>(fields: seq<(string, T)>): (r: seq<(string, T)>)
    ensures forall k :: 0 <= k < |r| ==> IsIndexKey(r[k].0)
  {
    if fields == [] then []
    else (if IsIndexKey(fields[0].0) then [fields[0]] else []) + IndexFields(fields[1..])
  }

  /** The members of an object whose keys are not array indexes, in reply order. */
  function NamedFields<T>(fields: seq<(string, T)>): (r: seq<(string, T)>)
    ensures forall k :: 0 <= k < |r| ==> !IsIndexKey(r[k].0)
  {
    if fields == [] then []
    else (if IsIndexKey(fields[0].0) then [] else [fields[0]]) + NamedFields(fields[1..])
  }

  /** One index-keyed member put in its place in an ascending run. */
  function InsertByIndex<T>(f: (string, T), sorted: seq<(string, T)>): (r: seq<(string, T)>)
    requires Ascending(sorted)
    ensures Ascending(r)
    ensures multiset(r) == multiset(sorted) + multiset{f}
  {
    if sorted == [] || KeyValue(f.0) <= KeyValue(sorted[0].0) then
      ConsAscending(f, sorted);
      [f] + sorted
    else
      var rest := InsertByIndex(f, sorted[1..]);
      assert sorted == [sorted[0]] + sorted[1..];
      FloorKept(KeyValue(sorted[0].0), f, sorted[1..], rest);
      ConsAscending(sorted[0], rest);
      [sorted[0]] + rest
  }

  /** A member no greater than the first of an ascending run can go in front of it. */
  lemma ConsAscending<T>(x: (string, T), run: seq<(string, T)>)
    requires Ascending(run)
    requires run == [] || KeyValue(x.0) <= KeyValue(run[0].0)
    ensures Ascending([x] + run)
  {
    var r := [x] + run;
    forall i, j | 0 <= i < j < |r|
      ensures KeyValue(r[i].0) <= KeyValue(r[j].0)
    {
      if i == 0 {
        assert r[j] == run[j - 1];
        if j > 1 {
          assert KeyValue(run[0].0) <= KeyValue(run[j - 1].0);
        }
      } else {
        assert r[i] == run[i - 1] && r[j] == run[j - 1];
      }
    }
  }

  /** A bound below `f` and below every member of `tail` is below every member of a rearrangement of both. */
  lemma FloorKept<T>(b: nat, f: (string, T), tail: seq<(string, T)>, rest: seq<(string, T)>)
    requires b <= KeyValue(f.0)
    requires forall k :: 0 <= k < |tail| ==> b <= KeyValue(tail[k].0)
    requires multiset(rest) == multiset(tail) + multiset{f}
    ensures forall k :: 0 <= k < |rest| ==> b <= KeyValue(rest[k].0)
  {
    forall k | 0 <= k < |rest|
      ensures b <= KeyValue(rest[k].0)
    {
      assert rest[k] in multiset(rest);
      if rest[k] != f {
        assert rest[k] in multiset(tail);
        var m :| 0 <= m < |tail| && tail[m] == rest[k];
      }
    }
  }

  /** Index-keyed members sorted by their numbers. */
  function SortByIndex<T>(fields: seq<(string, T)>): (r: seq<(string, T)>)
    ensures Ascending(r)
    ensures multiset(r) == multiset(fields)
  {
    if fields == [] then []
    else
      assert fields == [fields[0]] + fields[1..];
      InsertByIndex(fields[0], SortByIndex(fields[1..]))
  }

  /** The order in which `Object.entries` lists an object's own keys. */
  function OwnKeyOrder<T>(fields: seq<(string, T)>): seq<(string, T)> {
    SortByIndex(IndexFields(fields)) + NamedFields(fields)
  }

  lemma {:induction false} SplitFields<T>(fields: seq<(string, T)>)
    ensures multiset(IndexFields(fields)) + multiset(NamedFields(fields)) == multiset(fields)
  {
    if fields != [] {
      SplitFields(fields[1..]);
      assert fields == [fields[0]] + fields[1..];
    }
  }

  lemma {:induction false} NamedFieldsConcat<T>(a: seq<(string, T)>, b: seq<(string, T)>)
    ensures NamedFields(a + b) == NamedFields(a) + NamedFields(b)
  {
    if a == [] {
      assert a + b == b;
    } else {
      var head := if IsIndexKey(a[0].0) then [] else [a[0]];
      assert (a + b)[1..] == a[1..] + b;
      assert NamedFields(a + b) == head + NamedFields(a[1..] + b);
      NamedFieldsConcat(a[1..], b);
      assert NamedFields(a) == head + NamedFields(a[1..]);
    }
  }

  /** Whatever a sort of index-keyed members holds has an index key. */
  lemma SortedAreIndexes<T>(fields: seq<(string, T)>)
    ensures forall k :: 0 <= k < |SortByIndex(IndexFields(fields))| ==> IsIndexKey(SortByIndex(IndexFields(fields))[k].0)
  {
    var index := IndexFields(fields);
    var sorted := SortByIndex(index);
    forall k | 0 <= k < |sorted|
      ensures IsIndexKey(sorted[k].0)
    {
      assert sorted[k] in multiset(index);
      var m :| 0 <= m < |index| && index[m] == sorted[k];
    }
  }

  /** An ascending run of index keys followed by other keys. */
  lemma IndexesFirst<T>(sorted: seq<(string, T)>, named: seq<(string, T)>)
    requires Ascending(sorted)
    requires forall k :: 0 <= k < |sorted| ==> IsIndexKey(sorted[k].0)
    requires forall k :: 0 <= k < |named| ==> !IsIndexKey(named[k].0)
    ensures var r := sorted + named;
      && (forall i, j :: 0 <= i < j < |r| && !IsIndexKey(r[i].0) ==> !IsIndexKey(r[j].0))
      && (forall i, j :: 0 <= i < j < |r| && IsIndexKey(r[j].0) ==> KeyValue(r[i].0) <= KeyValue(r[j].0))
  {
    var r := sorted + named;
    assert forall k :: 0 <= k < |sorted| ==> r[k] == sorted[k];
    assert forall k :: |sorted| <= k < |r| ==> r[k] == named[k - |sorted|];
  }

  lemma {:induction false} NamedFieldsOfIndexes<T>(fields: seq<(string, T)>)
    requires forall k :: 0 <= k < |fields| ==> IsIndexKey(fields[k].0)
    ensures NamedFields(fields) == []
  {
    if fields != [] {
      NamedFieldsOfIndexes(fields[1..]);
    }
  }

  lemma {:induction false} NamedFieldsOfNamed<T>(fields: seq<(string, T)>)
    requires forall k :: 0 <= k < |fields| ==> !IsIndexKey(fields[k].0)
    ensures NamedFields(fields) == fields
  {
    if fields != [] {
      NamedFieldsOfNamed(fields[1..]);
      assert fields == [fields[0]] + fields[1..];
    }
  }

  /** A named member followed by an index-keyed one swap places. */
  lemma OwnKeyOrderOfPair<T>(named: (string, T), index: (string, T))
    requires named.0 == "b" && index.0 == "0"
    ensures OwnKeyOrder([named, index]) == [index, named]
  {
    assert !IsDigit(named.0[0]);
    assert index.0[..0] == [] && DigitsValue(index.0) == 0;
    assert !IsIndexKey(named.0) && IsIndexKey(index.0);
    var both, one := [named, index], [index];
    assert both[1..] == one;
    assert IndexFields(one) == one && NamedFields(one) == [];
    assert IndexFields(both) == one && NamedFields(both) == [named];
    assert SortByIndex(one) == one;
  }

  /**
   * `Object.entries` lists every member once, the array-index keys first in
   * ascending numeric order, then the other keys in the order the reply
   * gave them.
   */
  lemma OwnKeyOrderLaws<T>(fields: seq<(string, T)>)
    ensures var r := OwnKeyOrder(fields);
      && multiset(r) == multiset(fields)
      && (forall i, j :: 0 <= i < j < |r| && !IsIndexKey(r[i].0) ==> !IsIndexKey(r[j].0))
      && (forall i, j :: 0 <= i < j < |r| && IsIndexKey(r[j].0) ==> KeyValue(r[i].0) <= KeyValue(r[j].0))
      && NamedFields(r) == NamedFields(fields)
  {
    var sorted := SortByIndex(IndexFields(fields));
    var named := NamedFields(fields);
    SplitFields(fields);
    SortedAreIndexes(fields);
    IndexesFirst(sorted, named);
    NamedFieldsConcat(sorted, named);
    NamedFieldsOfIndexes(sorted);
    NamedFieldsOfNamed(named);
  }

}
