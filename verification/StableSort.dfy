/** Stable sorting by an integer key, as `toSorted` and `sort` of ECMA-262 do it, sieving a list, and
    taking the first that is left: the two ranked choices of the adapters, of a provider to move a
    node to and of one to review it, are both this sort and this sieve. */
module StableSort {
  import opened Options

  /** `x` goes before everything whose key is not smaller: it came earlier. */
  function Insert<T>(x: T, xs: seq<T>, key: T -> int): seq<T> {
    if xs == [] || key(x) <= key(xs[0]) then [x] + xs else [xs[0]] + Insert(x, xs[1..], key)
  }

  function Sort<T>(xs: seq<T>, key: T -> int): seq<T> {
    if xs == [] then [] else Insert(xs[0], Sort(xs[1..], key), key)
  }

  predicate Sorted<T>(xs: seq<T>, key: T -> int) {
    forall j, k | 0 <= j < k < |xs| :: key(xs[j]) <= key(xs[k])
  }

  /** The elements of one key, in their order. */
  function Class<T>(xs: seq<T>, key: T -> int, n: int): seq<T> {
    if xs == [] then [] else (if key(xs[0]) == n then [xs[0]] else []) + Class(xs[1..], key, n)
  }

  lemma {:induction false} InsertSorts<T(!new)>(x: T, xs: seq<T>, key: T -> int)
    requires Sorted(xs, key)
    ensures Sorted(Insert(x, xs, key), key) && |Insert(x, xs, key)| == |xs| + 1
    ensures forall y :: y in Insert(x, xs, key) <==> y == x || y in xs
    decreases |xs|
  {
    if xs != [] && key(x) > key(xs[0]) {
      forall j, k | 0 <= j < k < |xs[1..]| ensures key(xs[1..][j]) <= key(xs[1..][k]) {
        assert xs[1..][j] == xs[j + 1] && xs[1..][k] == xs[k + 1];
      }
      InsertSorts(x, xs[1..], key);
      var rest := Insert(x, xs[1..], key);
      forall k | 0 <= k < |rest| ensures key(xs[0]) <= key(rest[k]) {
        var y := rest[k];
        assert y in rest;
        if y != x {
          assert y in xs[1..];
          var m :| 0 <= m < |xs[1..]| && xs[1..][m] == y;
          assert xs[m + 1] == y;
        }
      }
      assert xs == [xs[0]] + xs[1..];
    }
  }

  lemma {:induction false} InsertKeeps<T>(x: T, xs: seq<T>, key: T -> int)
    ensures multiset(Insert(x, xs, key)) == multiset(xs) + multiset{x}
    decreases |xs|
  {
    if xs != [] && key(x) > key(xs[0]) {
      InsertKeeps(x, xs[1..], key);
      assert xs == [xs[0]] + xs[1..];
    }
  }

  lemma {:induction false} InsertClass<T(!new)>(x: T, xs: seq<T>, key: T -> int, n: int)
    requires Sorted(xs, key)
    ensures Class(Insert(x, xs, key), key, n) == Class([x] + xs, key, n)
    decreases |xs|
  {
    assert ([x] + xs)[1..] == xs;
    if xs != [] && key(x) > key(xs[0]) {
      var y, rest := xs[0], xs[1..];
      forall j, k | 0 <= j < k < |rest| ensures key(rest[j]) <= key(rest[k]) {
        assert rest[j] == xs[j + 1] && rest[k] == xs[k + 1];
      }
      InsertClass(x, rest, key, n);
      assert ([x] + rest)[1..] == rest;
      assert ([y] + Insert(x, rest, key))[1..] == Insert(x, rest, key);
    }
  }

  /** Sorting orders the elements, loses and invents none, and keeps equals in their order. */
  lemma {:induction false} SortSorts<T(!new)>(xs: seq<T>, key: T -> int)
    ensures Sorted(Sort(xs, key), key) && |Sort(xs, key)| == |xs| && multiset(Sort(xs, key)) == multiset(xs)
    ensures forall y :: y in Sort(xs, key) <==> y in xs
    ensures forall n :: Class(Sort(xs, key), key, n) == Class(xs, key, n)
    decreases |xs|
  {
    if xs != [] {
      SortSorts(xs[1..], key);
      InsertSorts(xs[0], Sort(xs[1..], key), key);
      InsertKeeps(xs[0], Sort(xs[1..], key), key);
      assert xs == [xs[0]] + xs[1..];
      forall n ensures Class(Sort(xs, key), key, n) == Class(xs, key, n) {
        InsertClass(xs[0], Sort(xs[1..], key), key, n);
        assert ([xs[0]] + Sort(xs[1..], key))[1..] == Sort(xs[1..], key);
      }
    }
  }

  /** Where `x` stands in a list of preferences; after them all, where it is not named. */
  function IndexIn<T(==)>(list: seq<T>, x: T): (n: nat)
    ensures n <= |list| && (n < |list| ==> list[n] == x)
    ensures forall k | 0 <= k < n :: list[k] != x
  {
    if list == [] || list[0] == x then 0
    else
      assert forall k | 0 < k < |list| :: list[k] == list[1..][k - 1];
      1 + IndexIn(list[1..], x)
  }

  // ---------- Filtering ----------

  function Filter<T>(xs: seq<T>, keep: T -> bool): seq<T> {
    if xs == [] then [] else (if keep(xs[0]) then [xs[0]] else []) + Filter(xs[1..], keep)
  }

  lemma {:induction false} FilterHolds<T(!new)>(xs: seq<T>, keep: T -> bool)
    ensures forall y :: y in Filter(xs, keep) <==> y in xs && keep(y)
    ensures |Filter(xs, keep)| <= |xs|
    decreases |xs|
  {
    if xs != [] {
      FilterHolds(xs[1..], keep);
      assert xs == [xs[0]] + xs[1..];
    }
  }

  /** What a sieve keeps and what it drops are together what it was given. */
  lemma {:induction false} FilterSplits<T(!new)>(xs: seq<T>, keep: T -> bool, drop: T -> bool)
    requires forall x :: keep(x) != drop(x)
    ensures multiset(Filter(xs, keep)) + multiset(Filter(xs, drop)) == multiset(xs)
    decreases |xs|
  {
    if xs != [] {
      var x, rest := xs[0], xs[1..];
      FilterSplits(rest, keep, drop);
      assert xs == [x] + rest;
      if keep(x) {
        assert Filter(xs, keep) == [x] + Filter(rest, keep) && Filter(xs, drop) == [] + Filter(rest, drop);
      } else {
        assert Filter(xs, keep) == [] + Filter(rest, keep) && Filter(xs, drop) == [x] + Filter(rest, drop);
      }
    }
  }

  // ---------- The first eligible element of a sorted list ----------

  lemma {:induction false} FilterInsert<T(!new)>(x: T, xs: seq<T>, key: T -> int, keep: T -> bool)
    requires Sorted(xs, key)
    ensures Filter(Insert(x, xs, key), keep) == if keep(x) then Insert(x, Filter(xs, keep), key) else Filter(xs, keep)
    decreases |xs|
  {
    if xs == [] || key(x) <= key(xs[0]) {
      assert ([x] + xs)[1..] == xs;
      FilterHolds(xs, keep);
      var kept := Filter(xs, keep);
      if kept != [] {
        assert kept[0] in kept;
        var m :| 0 <= m < |xs| && xs[m] == kept[0];
        assert key(xs[0]) <= key(xs[m]);
      }
      assert [x] + kept == if keep(x) then Insert(x, kept, key) else [x] + kept;
      assert [] + kept == kept;
    } else {
      var rest := xs[1..];
      forall j, k | 0 <= j < k < |rest| ensures key(rest[j]) <= key(rest[k]) {
        assert rest[j] == xs[j + 1] && rest[k] == xs[k + 1];
      }
      FilterInsert(x, rest, key, keep);
      assert ([xs[0]] + Insert(x, rest, key))[1..] == Insert(x, rest, key);
      var kept, more := Filter(rest, keep), Filter(Insert(x, rest, key), keep);
      if keep(xs[0]) {
        assert ([xs[0]] + kept)[1..] == kept;
        assert Filter(xs, keep) == [xs[0]] + kept;
        assert Filter(Insert(x, xs, key), keep) == [xs[0]] + more;
      } else {
        assert Filter(xs, keep) == kept && Filter(Insert(x, xs, key), keep) == more;
      }
    }
  }

  /** Keeping commutes with sorting... */
  lemma {:induction false} FilterSort<T(!new)>(xs: seq<T>, key: T -> int, keep: T -> bool)
    ensures Filter(Sort(xs, key), keep) == Sort(Filter(xs, keep), key)
    decreases |xs|
  {
    if xs != [] {
      FilterSort(xs[1..], key, keep);
      SortSorts(xs[1..], key);
      FilterInsert(xs[0], Sort(xs[1..], key), key, keep);
      var kept := Filter(xs[1..], keep);
      if keep(xs[0]) { assert ([xs[0]] + kept)[1..] == kept; } else { assert [] + kept == kept; }
    }
  }

  /** ...and two sieves are one. */
  lemma {:induction false} FilterTwice<T(!new)>(xs: seq<T>, a: T -> bool, b: T -> bool, both: T -> bool)
    requires forall x :: both(x) == (a(x) && b(x))
    ensures Filter(Filter(xs, a), b) == Filter(xs, both)
    decreases |xs|
  {
    if xs != [] {
      FilterTwice(xs[1..], a, b, both);
      var kept := Filter(xs[1..], a);
      if a(xs[0]) {
        assert ([xs[0]] + kept)[1..] == kept;
      } else {
        assert [] + kept == kept;
      }
    }
  }

  /** The first element kept of the sorted list. */
  function Pick<T>(xs: seq<T>, key: T -> int, keep: T -> bool): Option<T> {
    var kept := Filter(Sort(xs, key), keep);
    if kept == [] then None else Some(kept[0])
  }

  lemma {:induction false} PickStep<T(!new)>(xs: seq<T>, key: T -> int, keep: T -> bool)
    requires xs != []
    ensures var rest := Pick(xs[1..], key, keep);
            Pick(xs, key, keep)
            == if keep(xs[0]) && (rest.None? || key(xs[0]) <= key(rest.value)) then Some(xs[0]) else rest
  {
    SortSorts(xs[1..], key);
    FilterInsert(xs[0], Sort(xs[1..], key), key, keep);
  }

  /** Element `i` is kept, and none that is kept has a smaller key, or the same key and came earlier. */
  ghost predicate Best<T(!new)>(xs: seq<T>, key: T -> int, keep: T -> bool, i: nat) {
    && i < |xs| && keep(xs[i])
    && forall k | 0 <= k < |xs| && keep(xs[k]) :: key(xs[i]) < key(xs[k]) || (key(xs[i]) == key(xs[k]) && i <= k)
  }

  /** Sorting, keeping and taking the first finds the least key, and of those the earliest. */
  lemma {:induction false} PickIsBest<T(!new)>(xs: seq<T>, key: T -> int, keep: T -> bool)
    ensures Pick(xs, key, keep).None? <==> forall k | 0 <= k < |xs| :: !keep(xs[k])
    ensures Pick(xs, key, keep).Some? ==> exists i: nat :: Best(xs, key, keep, i) && xs[i] == Pick(xs, key, keep).value
    decreases |xs|
  {
    if xs != [] {
      var x, rest := xs[0], xs[1..];
      PickStep(xs, key, keep);
      PickIsBest(rest, key, keep);
      assert forall k | 0 <= k < |rest| :: rest[k] == xs[k + 1];
      if Pick(rest, key, keep).Some? {
        var i: nat :| Best(rest, key, keep, i) && rest[i] == Pick(rest, key, keep).value;
        BestOfMore(xs, key, keep, i);
      } else if keep(x) {
        assert forall k | 0 < k < |xs| :: xs[k] == rest[k - 1];
        assert Best(xs, key, keep, 0);
      } else {
        forall k | 0 <= k < |xs| ensures !keep(xs[k]) { if k > 0 { assert rest[k - 1] == xs[k]; } }
      }
    }
  }

  lemma {:induction false} BestOfMore<T(!new)>(xs: seq<T>, key: T -> int, keep: T -> bool, i: nat)
    requires xs != [] && Best(xs[1..], key, keep, i)
    ensures if keep(xs[0]) && key(xs[0]) <= key(xs[i + 1]) then Best(xs, key, keep, 0) else Best(xs, key, keep, i + 1)
  {
    var rest := xs[1..];
    forall k | 0 < k < |xs| && keep(xs[k])
      ensures key(xs[i + 1]) < key(xs[k]) || (key(xs[i + 1]) == key(xs[k]) && i + 1 <= k)
    {
      assert rest[k - 1] == xs[k];
    }
  }

  /** Keeping more never makes the best worse. */
  lemma {:induction false} BestImproves<T(!new)>(xs: seq<T>, key: T -> int, keep: T -> bool, more: T -> bool, i: nat,
        j: nat)
    requires Best(xs, key, keep, i) && Best(xs, key, more, j)
    requires forall k | 0 <= k < |xs| && keep(xs[k]) :: more(xs[k])
    ensures key(xs[j]) < key(xs[i]) || (key(xs[j]) == key(xs[i]) && j <= i)
  {
  }
}
