/** `Array.prototype.sort` with a comparator, as app.js uses it. The ECMAScript standard requires
    the sort to be stable since ES2019, so with a consistent comparator its result is the stable
    sorted order. `le(a, b)` stands for `compare(a, b) <= 0`: `a` may come before `b`. The sort is
    modelled by insertion sort, which produces exactly that order. */
module Sorting {

  /** A consistent comparator: every two elements are comparable and the order is transitive. */
  ghost predicate TotalPreorder<T(!new)>(le: (T, T) -> bool) {
    && (forall a, b :: le(a, b) || le(b, a))
    && (forall a, b, c :: le(a, b) && le(b, c) ==> le(a, c))
  }

  ghost predicate Sorted<T>(s: seq<T>, le: (T, T) -> bool) {
    forall i, j :: 0 <= i < j < |s| ==> le(s[i], s[j])
  }

  /** `a` and `b` compare as equal: the comparator returns 0 both ways. */
  predicate Tied<T>(a: T, b: T, le: (T, T) -> bool) {
    le(a, b) && le(b, a)
  }

  /** The elements of `s` that tie with `z`, in their order in `s`. A stable sort keeps this
      subsequence unchanged for every `z`. */
  function TiedWith<T>(s: seq<T>, z: T, le: (T, T) -> bool): seq<T> {
    if s == [] then [] else (if Tied(s[0], z, le) then [s[0]] else []) + TiedWith(s[1..], z, le)
  }

  /** Puts `x` in front of the first element it may precede. */
  function Insert<T>(x: T, s: seq<T>, le: (T, T) -> bool): (r: seq<T>)
    ensures multiset(r) == multiset(s) + multiset{x}
  {
    if s == [] || le(x, s[0]) then [x] + s
    else
      assert s == [s[0]] + s[1..];
      [s[0]] + Insert(x, s[1..], le)
  }

  /** The stable sort of `s` under `le`. */
  function Sort<T>(s: seq<T>, le: (T, T) -> bool): (r: seq<T>)
    ensures multiset(r) == multiset(s)
  {
    if s == [] then []
    else
      assert s == [s[0]] + s[1..];
      Insert(s[0], Sort(s[1..], le), le)
  }

  lemma {:induction false} InsertSorted<T(!new)>(x: T, s: seq<T>, le: (T, T) -> bool)
    requires TotalPreorder(le) && Sorted(s, le)
    ensures Sorted(Insert(x, s, le), le)
  {
    if s != [] && !le(x, s[0]) {
      InsertSorted(x, s[1..], le);
      var t := Insert(x, s[1..], le);
      forall k | 0 <= k < |t| ensures le(s[0], t[k]) {
        assert t[k] in multiset(t);
        if t[k] != x {
          assert t[k] in multiset(s[1..]);
          var j :| 0 <= j < |s[1..]| && s[1..][j] == t[k];
          assert s[j + 1] == t[k];
        }
      }
      assert Insert(x, s, le) == [s[0]] + t;
    }
  }

  /** The sort orders its result. */
  lemma {:induction false} SortSorted<T(!new)>(s: seq<T>, le: (T, T) -> bool)
    requires TotalPreorder(le)
    ensures Sorted(Sort(s, le), le)
  {
    if s != [] {
      SortSorted(s[1..], le);
      InsertSorted(s[0], Sort(s[1..], le), le);
    }
  }

  lemma TiedWithCons<T>(x: T, s: seq<T>, z: T, le: (T, T) -> bool)
    ensures TiedWith([x] + s, z, le) == (if Tied(x, z, le) then [x] else []) + TiedWith(s, z, le)
  {
    assert ([x] + s)[1..] == s;
  }

  /** Two elements that tie with a third tie with each other, so `x` never passes over an element
      it ties with. */
  lemma NotBothTied<T(!new)>(x: T, y: T, z: T, le: (T, T) -> bool)
    requires TotalPreorder(le) && !le(x, y)
    ensures !(Tied(x, z, le) && Tied(y, z, le))
  {
  }

  /** Inserting `x` puts it in front of every element it ties with. */
  lemma {:induction false} InsertTiedWith<T(!new)>(x: T, s: seq<T>, z: T, le: (T, T) -> bool)
    requires TotalPreorder(le)
    ensures TiedWith(Insert(x, s, le), z, le) == TiedWith([x] + s, z, le)
  {
    if s != [] && !le(x, s[0]) {
      var y, t := s[0], s[1..];
      var tx := if Tied(x, z, le) then [x] else [];
      var ty := if Tied(y, z, le) then [y] else [];
      NotBothTied(x, y, z, le);
      calc {
        TiedWith(Insert(x, s, le), z, le);
        TiedWith([y] + Insert(x, t, le), z, le);
        { TiedWithCons(y, Insert(x, t, le), z, le); }
        ty + TiedWith(Insert(x, t, le), z, le);
        { InsertTiedWith(x, t, z, le); }
        ty + TiedWith([x] + t, z, le);
        { TiedWithCons(x, t, z, le); }
        ty + (tx + TiedWith(t, z, le));
        tx + (ty + TiedWith(t, z, le));
        { TiedWithCons(y, t, z, le); assert [y] + t == s; }
        tx + TiedWith(s, z, le);
        { TiedWithCons(x, s, z, le); }
        TiedWith([x] + s, z, le);
      }
    }
  }

  /** The sort is stable: elements that tie keep their relative order. */
  lemma {:induction false} SortStable<T(!new)>(s: seq<T>, z: T, le: (T, T) -> bool)
    requires TotalPreorder(le)
    ensures TiedWith(Sort(s, le), z, le) == TiedWith(s, z, le)
  {
    if s != [] {
      SortStable(s[1..], z, le);
      InsertTiedWith(s[0], Sort(s[1..], le), z, le);
      TiedWithCons(s[0], Sort(s[1..], le), z, le);
      TiedWithCons(s[0], s[1..], z, le);
      assert [s[0]] + s[1..] == s;
    }
  }
}
