/** Small facts about finite sets that several components count with. */
module Collections {

  datatype Option<+T> = None | Some(value: T)

  /** Adding one fresh element adds one to the size. */
  lemma SizeOfInsert<T>(s: set<T>, x: T)
    requires x !in s
    ensures |s + {x}| == |s| + 1
  {
  }

  /** A subset is no larger than the set it is in. */
  lemma {:induction false} SizeOfSubset<T>(small: set<T>, big: set<T>)
    requires small <= big
    ensures |small| <= |big|
    decreases small
  {
    if small != {} {
      var x :| x in small;
      SizeOfSubset(small - {x}, big - {x});
    }
  }

  /** A subset of the same size is the whole set. */
  lemma EqualBySize<T>(small: set<T>, big: set<T>)
    requires small <= big && |small| >= |big|
    ensures small == big
  {
    if small != big {
      assert exists x :: x in big && x !in small;
      var x :| x in big && x !in small;
      assert big == (big - {x}) + {x};
      SizeOfSubset(small, big - {x});
    }
  }

  /** The seat numbers 1..n, as a set, are n many. */
  function Upto(n: int): (r: set<int>)
    ensures forall k :: k in r <==> 1 <= k <= n
    ensures |r| == if n < 0 then 0 else n
    decreases if n < 0 then 0 else n
  {
    if n <= 0 then {} else Upto(n - 1) + {n}
  }

  /** An injective image has as many elements as its source. */
  lemma {:induction false} SizeOfImage<A, B>(source: set<A>, image: set<B>, f: map<A, B>)
    requires source <= f.Keys
    requires forall a, b :: a in source && b in source && a != b ==> f[a] != f[b]
    requires image == set a | a in source :: f[a]
    ensures |image| == |source|
    decreases source
  {
    if source != {} {
      var x :| x in source;
      var rest := set a | a in source - {x} :: f[a];
      SizeOfImage(source - {x}, rest, f);
      assert image == rest + {f[x]};
    }
  }

  /** The sum of a weight over a set of keys. */
  ghost function Total(ids: set<string>, weight: map<string, nat>): nat
    requires ids <= weight.Keys
    decreases ids
  {
    if ids == {} then 0
    else
      var x :| x in ids;
      weight[x] + Total(ids - {x}, weight)
  }

  /** It does not matter which key is taken out first. */
  lemma {:induction false} TotalTakeOut(ids: set<string>, weight: map<string, nat>, x: string)
    requires ids <= weight.Keys && x in ids
    ensures Total(ids, weight) == weight[x] + Total(ids - {x}, weight)
    decreases ids
  {
    var y :| y in ids && Total(ids, weight) == weight[y] + Total(ids - {y}, weight);
    if y != x {
      TotalTakeOut(ids - {y}, weight, x);
      TotalTakeOut(ids - {x}, weight, y);
      assert ids - {y} - {x} == ids - {x} - {y};
    }
  }

  /** Only the weights inside the set matter. */
  lemma {:induction false} TotalAgrees(ids: set<string>, v: map<string, nat>, w: map<string, nat>)
    requires ids <= v.Keys && ids <= w.Keys
    requires forall x :: x in ids ==> v[x] == w[x]
    ensures Total(ids, v) == Total(ids, w)
    decreases ids
  {
    if ids != {} {
      var x :| x in ids;
      TotalTakeOut(ids, v, x);
      TotalTakeOut(ids, w, x);
      TotalAgrees(ids - {x}, v, w);
    }
  }

  /** Dictionary order on strings, a strict total order. */
  predicate StringLess(a: string, b: string) {
    if a == [] then b != []
    else b != [] && (a[0] < b[0] || (a[0] == b[0] && StringLess(a[1..], b[1..])))
  }

  lemma {:induction false} StringLessTotal(a: string, b: string)
    ensures StringLess(a, b) || StringLess(b, a) || a == b
    ensures !(StringLess(a, b) && StringLess(b, a))
  {
    if a != [] && b != [] && a[0] == b[0] {
      StringLessTotal(a[1..], b[1..]);
      assert a == [a[0]] + a[1..] && b == [b[0]] + b[1..];
    }
  }

  lemma {:induction false} StringLessTransitive(a: string, b: string, c: string)
    requires StringLess(a, b) && StringLess(b, c)
    ensures StringLess(a, c)
  {
    if a != [] && a[0] == b[0] && b[0] == c[0] {
      StringLessTransitive(a[1..], b[1..], c[1..]);
    }
  }
}
