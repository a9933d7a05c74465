/** Sorting by a total order: the result is the one ordered permutation of its input. */
module Sorting {
  import opened Bytes

  type Order<!T> = (T, T) -> bool

  ghost predicate TotalOrder<T(!new)>(leq: Order<T>) {
    && (forall x, y :: leq(x, y) || leq(y, x))
    && (forall x, y :: leq(x, y) && leq(y, x) ==> x == y)
    && (forall x, y, z :: leq(x, y) && leq(y, z) ==> leq(x, z))
  }

  function Insert<T>(x: T, s: seq<T>, leq: Order<T>): (r: seq<T>)
    ensures multiset(r) == multiset(s) + multiset{x}
    decreases |s|
  {
    if s == [] then [x]
    else if leq(x, s[0]) then [x] + s
    else
      assert s == [s[0]] + s[1..];
      [s[0]] + Insert(x, s[1..], leq)
  }

  function Sort<T>(s: seq<T>, leq: Order<T>): (r: seq<T>)
    ensures multiset(r) == multiset(s)
    ensures |r| == |s|
    decreases |s|
  {
    if s == [] then []
    else
      assert s == [s[0]] + s[1..];
      var r := Insert(s[0], Sort(s[1..], leq), leq);
      assert |multiset(r)| == |multiset(s)|;
      r
  }

  ghost predicate Ordered<T(!new)>(s: seq<T>, leq: Order<T>) {
    forall i, j :: 0 <= i < j < |s| ==> leq(s[i], s[j])
  }

  lemma {:induction false} InsertKeepsOrder<T(!new)>(x: T, s: seq<T>, leq: Order<T>)
    requires TotalOrder(leq) && Ordered(s, leq)
    ensures Ordered(Insert(x, s, leq), leq)
    decreases |s|
  {
    if s != [] && !leq(x, s[0]) {
      var rest := Insert(x, s[1..], leq);
      InsertKeepsOrder(x, s[1..], leq);
      forall j | 0 <= j < |rest| ensures leq(s[0], rest[j]) {
        assert rest[j] in multiset(rest);
        assert rest[j] == x || rest[j] in s[1..];
      }
    }
  }

  lemma {:induction false} SortIsOrdered<T(!new)>(s: seq<T>, leq: Order<T>)
    requires TotalOrder(leq)
    ensures Ordered(Sort(s, leq), leq)
    decreases |s|
  {
    if s != [] {
      SortIsOrdered(s[1..], leq);
      InsertKeepsOrder(s[0], Sort(s[1..], leq), leq);
    }
  }

  lemma HeadIsLeast<T(!new)>(a: seq<T>, x: T, leq: Order<T>)
    requires TotalOrder(leq) && Ordered(a, leq) && x in a
    ensures leq(a[0], x)
  {
    var i :| 0 <= i < |a| && a[i] == x;
    assert i == 0 || leq(a[0], a[i]);
  }

  lemma {:induction false} OrderedIsUnique<T(!new)>(a: seq<T>, b: seq<T>, leq: Order<T>)
    requires TotalOrder(leq) && Ordered(a, leq) && Ordered(b, leq) && multiset(a) == multiset(b)
    ensures a == b
    decreases |a|
  {
    if a == [] {
      assert |multiset(b)| == 0;
    } else {
      assert a[0] in multiset(b) && b != [];
      assert b[0] in multiset(a);
      HeadIsLeast(a, b[0], leq);
      HeadIsLeast(b, a[0], leq);
      assert a == [a[0]] + a[1..] && b == [b[0]] + b[1..];
      assert multiset(a[1..]) == multiset(a) - multiset{a[0]};
      assert multiset(b[1..]) == multiset(b) - multiset{b[0]};
      OrderedIsUnique(a[1..], b[1..], leq);
    }
  }

  /** Sorting forgets the order of its input and nothing else. */
  lemma SortForgetsOrderOnly<T(!new)>(a: seq<T>, b: seq<T>, leq: Order<T>)
    requires TotalOrder(leq)
    ensures Sort(a, leq) == Sort(b, leq) <==> multiset(a) == multiset(b)
  {
    if multiset(a) == multiset(b) {
      SortIsOrdered(a, leq);
      SortIsOrdered(b, leq);
      OrderedIsUnique(Sort(a, leq), Sort(b, leq), leq);
    }
  }

  // -------------------------------------------------------------- byte strings

  /** Bytewise lexicographic order, which is also code-point order on UTF-8 text. */
  predicate LexLeq(a: Bytes, b: Bytes)
    decreases |a|
  {
    if a == [] then true
    else if b == [] then false
    else if a[0] != b[0] then a[0] < b[0]
    else LexLeq(a[1..], b[1..])
  }

  lemma {:induction false} LexTotal(a: Bytes, b: Bytes)
    ensures LexLeq(a, b) || LexLeq(b, a)
    ensures LexLeq(a, b) && LexLeq(b, a) ==> a == b
    decreases |a|
  {
    if a != [] && b != [] && a[0] == b[0] {
      LexTotal(a[1..], b[1..]);
      assert a == [a[0]] + a[1..] && b == [b[0]] + b[1..];
    }
  }

  lemma {:induction false} LexTransitive(a: Bytes, b: Bytes, c: Bytes)
    requires LexLeq(a, b) && LexLeq(b, c)
    ensures LexLeq(a, c)
    decreases |a|
  {
    if a != [] && a[0] == b[0] && b[0] == c[0] { LexTransitive(a[1..], b[1..], c[1..]); }
  }

  lemma LexIsTotal()
    ensures TotalOrder<Bytes>(LexLeq)
  {
    forall a: Bytes, b: Bytes
      ensures LexLeq(a, b) || LexLeq(b, a)
      ensures LexLeq(a, b) && LexLeq(b, a) ==> a == b
    {
      LexTotal(a, b);
    }
    forall a: Bytes, b: Bytes, c: Bytes | LexLeq(a, b) && LexLeq(b, c) ensures LexLeq(a, c) {
      LexTransitive(a, b, c);
    }
  }
}
