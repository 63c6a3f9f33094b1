/** Python's `sorted(items, key=lambda x: x[1], reverse=True)` over the
    (key, score) pairs of a dictionary: a stable sort by score, highest first.
    Python's reverse sort keeps equal elements in their original order, so the
    result is the unique stable descending arrangement; StableSortDesc builds
    it by insertion and StableSortUnique shows that any other stable
    descending sort of the same items gives the same list. */
module StableSort {

  /** A (key, score) pair, as produced by `dict.items()`. */
  type Item = (int, real)

  /** Scores never increase along the sequence. */
  predicate SortedDesc(s: seq<Item>)
  {
    forall i, j :: 0 <= i < j < |s| ==> s[i].1 >= s[j].1
  }

  /** The keys of the items, in order. */
  function Firsts(s: seq<Item>): (keys: seq<int>)
    ensures |keys| == |s|
    ensures forall i :: 0 <= i < |s| ==> keys[i] == s[i].0
  {
    if s == [] then [] else [s[0].0] + Firsts(s[1..])
  }

  /** The items whose score is exactly `v`, in their order of occurrence.
      A sort is stable when it leaves each of these blocks as it was. */
  function WithScore(s: seq<Item>, v: real): seq<Item>
  {
    if s == [] then []
    else (if s[0].1 == v then [s[0]] else []) + WithScore(s[1..], v)
  }

  /** Inserts `x` in front of the first item that scores strictly less,
      that is, after every item that scores at least as much. */
  function InsertDesc(s: seq<Item>, x: Item): seq<Item>
  {
    if s == [] then [x]
    else if s[0].1 < x.1 then [x] + s
    else [s[0]] + InsertDesc(s[1..], x)
  }

  /** Stable sort by score, highest first: each item, taken in input order,
      is placed after all earlier items that score at least as much. */
  function StableSortDesc(s: seq<Item>): seq<Item>
  {
    if s == [] then []
    else InsertDesc(StableSortDesc(s[..|s| - 1]), s[|s| - 1])
  }

  lemma {:induction false} WithScoreConcat(a: seq<Item>, b: seq<Item>, v: real)
    ensures WithScore(a + b, v) == WithScore(a, v) + WithScore(b, v)
    decreases |a|
  {
    if a == [] {
      assert a + b == b;
    } else {
      var head := if a[0].1 == v then [a[0]] else [];
      assert (a + b)[0] == a[0] && (a + b)[1..] == a[1..] + b;
      WithScoreConcat(a[1..], b, v);
      assert WithScore(a + b, v) == head + WithScore(a[1..] + b, v);
      assert WithScore(a, v) == head + WithScore(a[1..], v);
      AppendAssoc(head, WithScore(a[1..], v), WithScore(b, v));
    }
  }

  lemma {:induction false} WithScoreNone(s: seq<Item>, v: real)
    requires forall i :: 0 <= i < |s| ==> s[i].1 != v
    ensures WithScore(s, v) == []
    decreases |s|
  {
    if s != [] {
      WithScoreNone(s[1..], v);
    }
  }

  lemma WithScoreHead(s: seq<Item>)
    requires s != []
    ensures WithScore(s, s[0].1) != [] && WithScore(s, s[0].1)[0] == s[0]
  {
  }

  /** Insertion adds exactly `x`. */
  lemma {:induction false} InsertDescPermutes(s: seq<Item>, x: Item)
    ensures multiset(InsertDesc(s, x)) == multiset(s) + multiset{x}
    decreases |s|
  {
    if s != [] && s[0].1 >= x.1 {
      InsertDescPermutes(s[1..], x);
      assert s == [s[0]] + s[1..];
    }
  }

  /** Insertion adds exactly the key of `x` to the keys. */
  lemma {:induction false} InsertDescKeys(s: seq<Item>, x: Item)
    ensures multiset(Firsts(InsertDesc(s, x))) == multiset(Firsts(s)) + multiset{x.0}
    decreases |s|
  {
    if s == [] {
    } else if s[0].1 >= x.1 {
      var r := InsertDesc(s[1..], x);
      InsertDescKeys(s[1..], x);
      assert InsertDesc(s, x) == [s[0]] + r;
      assert ([s[0]] + r)[1..] == r;
      assert Firsts([s[0]] + r) == [s[0].0] + Firsts(r);
      assert Firsts(s) == [s[0].0] + Firsts(s[1..]);
      ConsKeys(s[0].0, Firsts(s[1..]), Firsts(r), x.0);
    } else {
      assert InsertDesc(s, x) == [x] + s;
      assert ([x] + s)[1..] == s;
      assert Firsts([x] + s) == [x.0] + Firsts(s);
    }
  }

  lemma ConsKeys(a: int, keys: seq<int>, keys': seq<int>, b: int)
    requires multiset(keys') == multiset(keys) + multiset{b}
    ensures multiset([a] + keys') == multiset([a] + keys) + multiset{b}
  {
  }

  lemma {:induction false} InsertDescSorted(s: seq<Item>, x: Item)
    requires SortedDesc(s)
    ensures SortedDesc(InsertDesc(s, x))
    decreases |s|
  {
    if s != [] && s[0].1 >= x.1 {
      InsertDescSorted(s[1..], x);
      InsertDescPermutes(s[1..], x);
      var r := InsertDesc(s[1..], x);
      forall j | 0 <= j < |r| ensures s[0].1 >= r[j].1 {
        assert r[j] in multiset(r);
      }
    }
  }

  /** Insertion into a sorted list appends `x` at the end of its score block. */
  lemma {:induction false} InsertDescWithScore(s: seq<Item>, x: Item, v: real)
    requires SortedDesc(s)
    ensures WithScore(InsertDesc(s, x), v) == WithScore(s, v) + (if x.1 == v then [x] else [])
    decreases |s|
  {
    if s == [] {
    } else if s[0].1 < x.1 {
      InsertFrontWithScore(s, x, v);
    } else {
      SortedTail(s);
      InsertDescWithScore(s[1..], x, v);
      InsertLaterWithScore(s, x, v);
    }
  }

  lemma SortedTail(s: seq<Item>)
    requires s != [] && SortedDesc(s)
    ensures SortedDesc(s[1..])
  {
    forall i, j | 0 <= i < j < |s[1..]| ensures s[1..][i].1 >= s[1..][j].1 {
      assert s[1..][i] == s[i + 1] && s[1..][j] == s[j + 1];
    }
  }

  /** `x` goes in front of a sorted list whose head scores less. */
  lemma InsertFrontWithScore(s: seq<Item>, x: Item, v: real)
    requires SortedDesc(s) && s != [] && s[0].1 < x.1
    ensures WithScore(InsertDesc(s, x), v) == WithScore(s, v) + (if x.1 == v then [x] else [])
  {
    var tail := if x.1 == v then [x] else [];
    assert InsertDesc(s, x) == [x] + s;
    assert ([x] + s)[1..] == s;
    assert WithScore([x] + s, v) == tail + WithScore(s, v);
    if x.1 == v {
      WithScoreNone(s, v);
      assert tail + [] == [] + tail;
    } else {
      assert [] + WithScore(s, v) == WithScore(s, v) + [];
    }
  }

  /** `x` goes after the head: the head's block contribution comes first. */
  lemma InsertLaterWithScore(s: seq<Item>, x: Item, v: real)
    requires s != [] && s[0].1 >= x.1
    requires WithScore(InsertDesc(s[1..], x), v) == WithScore(s[1..], v) + (if x.1 == v then [x] else [])
    ensures WithScore(InsertDesc(s, x), v) == WithScore(s, v) + (if x.1 == v then [x] else [])
  {
    var r := InsertDesc(s[1..], x);
    var head := if s[0].1 == v then [s[0]] else [];
    var tail := if x.1 == v then [x] else [];
    assert InsertDesc(s, x) == [s[0]] + r;
    assert ([s[0]] + r)[1..] == r;
    assert WithScore([s[0]] + r, v) == head + WithScore(r, v);
    assert WithScore(s, v) == head + WithScore(s[1..], v);
    AppendAssoc(head, WithScore(s[1..], v), tail);
  }

  lemma AppendAssoc(a: seq<Item>, b: seq<Item>, c: seq<Item>)
    ensures a + (b + c) == a + b + c
  {
  }

  /** The sort specification: sorted by score, a permutation of the items
      (and of their keys), and stable — every block of equal scores keeps the
      input order. */
  lemma {:induction false} StableSortDescCorrect(s: seq<Item>)
    ensures SortedDesc(StableSortDesc(s))
    ensures multiset(StableSortDesc(s)) == multiset(s)
    ensures multiset(Firsts(StableSortDesc(s))) == multiset(Firsts(s))
    ensures forall v :: WithScore(StableSortDesc(s), v) == WithScore(s, v)
    decreases |s|
  {
    if s != [] {
      var p, x := s[..|s| - 1], s[|s| - 1];
      assert s == p + [x];
      StableSortDescCorrect(p);
      assert StableSortDesc(s) == InsertDesc(StableSortDesc(p), x);
      SortStep(p, StableSortDesc(p), x);
    }
  }

  /** The inductive step of StableSortDescCorrect: inserting the next item
      into a correct sort of the items before it. */
  lemma SortStep(p: seq<Item>, q: seq<Item>, x: Item)
    requires SortedDesc(q) && multiset(q) == multiset(p) && multiset(Firsts(q)) == multiset(Firsts(p))
    requires forall v :: WithScore(q, v) == WithScore(p, v)
    ensures SortedDesc(InsertDesc(q, x))
    ensures multiset(InsertDesc(q, x)) == multiset(p + [x])
    ensures multiset(Firsts(InsertDesc(q, x))) == multiset(Firsts(p + [x]))
    ensures forall v :: WithScore(InsertDesc(q, x), v) == WithScore(p + [x], v)
  {
    InsertDescSorted(q, x);
    InsertDescPermutes(q, x);
    InsertDescKeys(q, x);
    FirstsConcat(p, [x]);
    forall v ensures WithScore(InsertDesc(q, x), v) == WithScore(p + [x], v) {
      StepWithScore(p, q, x, v);
    }
  }

  lemma StepWithScore(p: seq<Item>, q: seq<Item>, x: Item, v: real)
    requires SortedDesc(q) && WithScore(q, v) == WithScore(p, v)
    ensures WithScore(InsertDesc(q, x), v) == WithScore(p + [x], v)
  {
    InsertDescWithScore(q, x, v);
    WithScoreConcat(p, [x], v);
    assert WithScore([x], v) == (if x.1 == v then [x] else []) + WithScore([], v);
  }

  lemma FirstsConcat(a: seq<Item>, b: seq<Item>)
    ensures Firsts(a + b) == Firsts(a) + Firsts(b)
  {
  }

  /** Two sorted lists with the same score blocks are equal. */
  lemma {:induction false} SortedBlocksDetermine(t: seq<Item>, u: seq<Item>)
    requires SortedDesc(t) && SortedDesc(u)
    requires forall v :: WithScore(t, v) == WithScore(u, v)
    ensures t == u
    decreases |t| + |u|
  {
    if t == [] && u != [] {
      WithScoreHead(u);
      assert false;
    } else if t != [] && u == [] {
      WithScoreHead(t);
      assert false;
    } else if t != [] {
      var a, b := t[0].1, u[0].1;
      if a > b {
        WithScoreNone(u, a);
        WithScoreHead(t);
        assert false;
      } else if a < b {
        WithScoreNone(t, b);
        WithScoreHead(u);
        assert false;
      } else {
        assert WithScore(t, a)[0] == t[0];
        assert WithScore(u, a)[0] == u[0];
        assert WithScore(t, a) == WithScore(u, a);
        assert t[0] == u[0];
        forall v ensures WithScore(t[1..], v) == WithScore(u[1..], v) {
          var head := if a == v then [t[0]] else [];
          assert WithScore(t, v) == head + WithScore(t[1..], v);
          assert WithScore(u, v) == head + WithScore(u[1..], v);
          assert WithScore(t, v) == WithScore(u, v);
          assert (head + WithScore(t[1..], v))[|head|..] == WithScore(t[1..], v);
          assert (head + WithScore(u[1..], v))[|head|..] == WithScore(u[1..], v);
        }
        SortedBlocksDetermine(t[1..], u[1..]);
        assert t == [t[0]] + t[1..];
        assert u == [u[0]] + u[1..];
      }
    }
  }

  /** Any stable descending sort of `s` — in particular Python's — equals
      StableSortDesc(s): sortedness and stability leave no other choice. */
  lemma StableSortUnique(s: seq<Item>, t: seq<Item>)
    requires SortedDesc(t)
    requires forall v :: WithScore(t, v) == WithScore(s, v)
    ensures t == StableSortDesc(s)
  {
    StableSortDescCorrect(s);
    SortedBlocksDetermine(t, StableSortDesc(s));
  }
}
