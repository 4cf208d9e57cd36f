/** A stable insertion sort by a total preorder, the model of Python's `list.sort(key=...)`
    and `sorted(..., key=..., reverse=...)`; both are stable. */
module Sorting {

  ghost predicate TotalPreorder<T(!new)>(le: (T, T) -> bool)
  {
    && (forall a, b :: le(a, b) || le(b, a))
    && (forall a, b, c :: le(a, b) && le(b, c) ==> le(a, c))
  }

  ghost predicate SortedBy<T>(s: seq<T>, le: (T, T) -> bool)
  {
    forall i, j :: 0 <= i < j < |s| ==> le(s[i], s[j])
  }

  /** Puts `x` after every element that is not strictly greater than it, so that equal
      elements keep the order in which they arrived. */
  function Insert<T>(s: seq<T>, x: T, le: (T, T) -> bool): (r: seq<T>)
    ensures multiset(r) == multiset(s) + multiset{x}
    ensures |r| == |s| + 1
  {
    if s == [] then [x]
    else if le(x, s[0]) && !le(s[0], x) then [x] + s
    else
      assert s == [s[0]] + s[1..];
      [s[0]] + Insert(s[1..], x, le)
  }

  lemma {:induction false} InsertSorted<T(!new)>(s: seq<T>, x: T, le: (T, T) -> bool)
    ensures TotalPreorder(le) && SortedBy(s, le) ==> SortedBy(Insert(s, x, le), le)
  {
    if TotalPreorder(le) && SortedBy(s, le) && s != [] && !(le(x, s[0]) && !le(s[0], x)) {
      var rest := Insert(s[1..], x, le);
      InsertSorted(s[1..], x, le);
      assert le(s[0], x);
      forall y | y in multiset(rest) ensures le(s[0], y) {
        assert y in multiset(s[1..]) + multiset{x};
        if y in multiset(s[1..]) {
          var k :| 0 <= k < |s[1..]| && s[1..][k] == y;
          assert s[k + 1] == y;
        }
      }
      forall j | 0 < j < |rest| + 1 ensures le(([s[0]] + rest)[0], ([s[0]] + rest)[j]) {
        assert rest[j - 1] in multiset(rest);
      }
    }
  }

  /** The elements of `s` in order of `le`; among equal elements, input order. */
  function Sort<T(!new)>(s: seq<T>, le: (T, T) -> bool): (r: seq<T>)
    ensures multiset(r) == multiset(s)
    ensures |r| == |s|
    ensures TotalPreorder(le) ==> SortedBy(r, le)
  {
    if s == [] then []
    else
      var init := Sort(s[..|s| - 1], le);
      assert s == s[..|s| - 1] + [s[|s| - 1]];
      InsertSorted(init, s[|s| - 1], le);
      Insert(init, s[|s| - 1], le)
  }

  /** The elements of `s` that `le` ranks level with `y`, in the order of `s`. */
  function Level<T>(s: seq<T>, y: T, le: (T, T) -> bool): seq<T>
  {
    if s == [] then []
    else (if le(s[0], y) && le(y, s[0]) then [s[0]] else []) + Level(s[1..], y, le)
  }

  lemma {:induction false} LevelAppend<T>(a: seq<T>, b: seq<T>, y: T, le: (T, T) -> bool)
    ensures Level(a + b, y, le) == Level(a, y, le) + Level(b, y, le)
  {
    if a != [] {
      assert (a + b)[1..] == a[1..] + b;
      LevelAppend(a[1..], b, y, le);
    } else {
      assert a + b == b;
    }
  }

  /** No element of `s` is level with `y`, so none is kept. */
  lemma {:induction false} LevelEmpty<T>(s: seq<T>, y: T, le: (T, T) -> bool)
    requires forall i :: 0 <= i < |s| ==> !(le(s[i], y) && le(y, s[i]))
    ensures Level(s, y, le) == []
  {
    if s != [] {
      assert forall i :: 0 <= i < |s[1..]| ==> s[1..][i] == s[i + 1];
      LevelEmpty(s[1..], y, le);
    }
  }

  /** Inserting `x` puts it after every element level with it. */
  lemma {:induction false} InsertStable<T(!new)>(s: seq<T>, x: T, y: T, le: (T, T) -> bool)
    requires TotalPreorder(le) && SortedBy(s, le)
    ensures Level(Insert(s, x, le), y, le) == Level(s, y, le) + Level([x], y, le)
  {
    if s == [] {
      assert Insert(s, x, le) == [x];
    } else if le(x, s[0]) && !le(s[0], x) {
      if le(x, y) && le(y, x) {
        forall i | 0 <= i < |s| ensures !(le(s[i], y) && le(y, s[i])) {
          if i > 0 { assert le(s[0], s[i]); }
        }
        LevelEmpty(s, y, le);
      } else {
        assert Level([x], y, le) == [];
      }
      LevelAppend([x], s, y, le);
    } else {
      assert SortedBy(s[1..], le) by {
        forall i, j | 0 <= i < j < |s[1..]| ensures le(s[1..][i], s[1..][j]) {
          assert s[1..][i] == s[i + 1] && s[1..][j] == s[j + 1];
        }
      }
      assert s == [s[0]] + s[1..];
      calc {
        Level(Insert(s, x, le), y, le);
        Level([s[0]] + Insert(s[1..], x, le), y, le);
        { LevelAppend([s[0]], Insert(s[1..], x, le), y, le); }
        Level([s[0]], y, le) + Level(Insert(s[1..], x, le), y, le);
        { InsertStable(s[1..], x, y, le); }
        Level([s[0]], y, le) + (Level(s[1..], y, le) + Level([x], y, le));
        { LevelAppend([s[0]], s[1..], y, le); }
        Level(s, y, le) + Level([x], y, le);
      }
    }
  }

  /** The sort is stable: the elements level with any `y` leave in the order they came. */
  lemma {:induction false} SortStable<T(!new)>(s: seq<T>, y: T, le: (T, T) -> bool)
    requires TotalPreorder(le)
    ensures Level(Sort(s, le), y, le) == Level(s, y, le)
  {
    if s != [] {
      var init, x := s[..|s| - 1], s[|s| - 1];
      var sorted := Sort(init, le);
      assert s == init + [x];
      calc {
        Level(Sort(s, le), y, le);
        Level(Insert(sorted, x, le), y, le);
        { InsertStable(sorted, x, y, le); }
        Level(sorted, y, le) + Level([x], y, le);
        { SortStable(init, y, le); }
        Level(init, y, le) + Level([x], y, le);
        { LevelAppend(init, [x], y, le); }
        Level(s, y, le);
      }
    }
  }
}
