/** Grouping a sequence by a text key, the building block of both list views: the
    terminal's display order (configs grouped by context, contexts in ascending order)
    and the desktop view's context groups (contexts in first-appearance order).

    Text keys are ordered as Rust orders `String`s: lexicographically by character. */
module Collections {

  // ---------------------------------------------------------------------------
  // The order of texts

  /** `a < b` for `String`: a proper prefix comes first, otherwise the first differing
      character decides. */
  predicate Less(a: string, b: string)
    decreases |a|
  {
    if b == [] then false
    else if a == [] then true
    else if a[0] != b[0] then a[0] < b[0]
    else Less(a[1..], b[1..])
  }

  lemma {:induction false} LessIrreflexive(a: string)
    ensures !Less(a, a)
    decreases |a|
  {
    if a != [] {
      LessIrreflexive(a[1..]);
    }
  }

  lemma {:induction false} LessAsymmetric(a: string, b: string)
    requires Less(a, b)
    ensures !Less(b, a)
    decreases |a|
  {
    if a != [] && b != [] && a[0] == b[0] {
      LessAsymmetric(a[1..], b[1..]);
    }
  }

  lemma {:induction false} LessTotal(a: string, b: string)
    requires a != b
    ensures Less(a, b) || Less(b, a)
    decreases |a|
  {
    if a != [] && b != [] && a[0] == b[0] {
      assert a == [a[0]] + a[1..] && b == [b[0]] + b[1..];
      LessTotal(a[1..], b[1..]);
    }
  }

  lemma {:induction false} LessTransitive(a: string, b: string, c: string)
    requires Less(a, b) && Less(b, c)
    ensures Less(a, c)
    decreases |a|
  {
    if a != [] && a[0] == b[0] && b[0] == c[0] {
      LessTransitive(a[1..], b[1..], c[1..]);
    }
  }

  /** Every non-empty finite set of texts has a least element. */
  lemma {:induction false} LeastExists(s: set<string>)
    requires s != {}
    ensures exists m :: m in s && forall x :: x in s && x != m ==> Less(m, x)
    decreases s
  {
    var y :| y in s;
    var rest := s - {y};
    if rest == {} {
      assert s == {y};
    } else {
      LeastExists(rest);
      var m :| m in rest && forall x :: x in rest && x != m ==> Less(m, x);
      if Less(y, m) {
        forall x | x in s && x != y
          ensures Less(y, x)
        {
          if x != m {
            LessTransitive(y, m, x);
          }
        }
      } else {
        LessTotal(y, m);
        assert forall x :: x in s && x != m ==> Less(m, x);
      }
    }
  }

  /** The least element is unique. */
  lemma LeastUnique(s: set<string>, m1: string, m2: string)
    requires m1 in s && forall x :: x in s && x != m1 ==> Less(m1, x)
    requires m2 in s && forall x :: x in s && x != m2 ==> Less(m2, x)
    ensures m1 == m2
  {
    if m1 != m2 {
      LessAsymmetric(m1, m2);
    }
  }

  /** The least element of a non-empty set. */
  function Least(s: set<string>): (m: string)
    requires s != {}
    ensures m in s
    ensures forall x :: x in s && x != m ==> Less(m, x)
  {
    LeastExists(s);
    forall m1, m2 | m1 in s && (forall x :: x in s && x != m1 ==> Less(m1, x))
                 && m2 in s && (forall x :: x in s && x != m2 ==> Less(m2, x))
      ensures m1 == m2
    {
      LeastUnique(s, m1, m2);
    }
    var m :| m in s && forall x :: x in s && x != m ==> Less(m, x);
    m
  }

  /** A strictly ascending sequence of texts. */
  predicate StrictlyAscending(ks: seq<string>) {
    forall i, j :: 0 <= i < j < |ks| ==> Less(ks[i], ks[j])
  }

  /** The elements of a finite set of texts in ascending order (`Vec::sort` of its
      elements). */
  function Sorted(s: set<string>): (ks: seq<string>)
    ensures StrictlyAscending(ks)
    ensures forall x :: x in ks <==> x in s
    ensures |ks| == |s|
    decreases s
  {
    if s == {} then []
    else
      var m := Least(s);
      var rest := Sorted(s - {m});
      assert forall j :: 0 <= j < |rest| ==> Less(m, rest[j]);
      [m] + rest
  }

  /** Texts in strictly ascending order are pairwise distinct. */
  lemma AscendingDistinct(ks: seq<string>)
    requires StrictlyAscending(ks)
    ensures Distinct(ks)
  {
    forall i, j | 0 <= i < j < |ks|
      ensures ks[i] != ks[j]
    {
      if ks[i] == ks[j] {
        LessIrreflexive(ks[i]);
      }
    }
  }

  // ---------------------------------------------------------------------------
  // Grouping by key

  predicate Distinct<K(==)>(ks: seq<K>) {
    forall i, j :: 0 <= i < j < |ks| ==> ks[i] != ks[j]
  }

  /** The elements of `xs` whose key is `k`, in the order of `xs`. */
  function Select<T(==,!new)>(xs: seq<T>, key: T -> string, k: string): (r: seq<T>)
    ensures |r| <= |xs|
    ensures forall i :: 0 <= i < |r| ==> key(r[i]) == k
    ensures forall x :: x in r <==> x in xs && key(x) == k
    decreases |xs|
  {
    if xs == [] then []
    else
      var last := xs[|xs| - 1];
      Select(xs[..|xs| - 1], key, k) + (if key(last) == k then [last] else [])
  }

  /** The groups of `ks`, one after the other in the order of `ks`. */
  function Gather<T(==,!new)>(xs: seq<T>, key: T -> string, ks: seq<string>): (r: seq<T>)
    ensures forall x :: x in r ==> x in xs && key(x) in ks
    decreases |ks|
  {
    if ks == [] then []
    else Gather(xs, key, ks[..|ks| - 1]) + Select(xs, key, ks[|ks| - 1])
  }

  /** Gathering one more key appends that key's elements. */
  lemma GatherPrefixStep<T(!new)>(xs: seq<T>, key: T -> string, ks: seq<string>, n: nat)
    requires n < |ks|
    ensures Gather(xs, key, ks[..n + 1]) == Gather(xs, key, ks[..n]) + Select(xs, key, ks[n])
  {
    assert ks[..n + 1][..n] == ks[..n];
  }

  /** The keys of `xs`, each once, in the order they first appear. */
  function Keys<T(==,!new)>(xs: seq<T>, key: T -> string): (ks: seq<string>)
    ensures Distinct(ks)
    ensures forall k :: k in ks <==> exists x :: x in xs && key(x) == k
    decreases |xs|
  {
    if xs == [] then []
    else
      var init := xs[..|xs| - 1];
      var last := xs[|xs| - 1];
      var ks := Keys(init, key);
      assert forall x :: x in xs <==> x in init || x == last;
      if key(last) in ks then ks else ks + [key(last)]
  }

  /** Nothing is selected for a key no element has. */
  lemma SelectNone<T(!new)>(xs: seq<T>, key: T -> string, k: string)
    requires forall x :: x in xs ==> key(x) != k
    ensures Select(xs, key, k) == []
  {
  }

  /** Selecting is compatible with concatenation. */
  lemma {:induction false} SelectAppend<T(!new)>(a: seq<T>, b: seq<T>, key: T -> string, k: string)
    ensures Select(a + b, key, k) == Select(a, key, k) + Select(b, key, k)
    decreases |b|
  {
    if b != [] {
      var ab := a + b;
      var init := b[..|b| - 1];
      var last := b[|b| - 1];
      var tail := if key(last) == k then [last] else [];
      assert ab[..|ab| - 1] == a + init;
      assert ab[|ab| - 1] == last;
      assert Select(ab, key, k) == Select(a + init, key, k) + tail;
      assert Select(b, key, k) == Select(init, key, k) + tail;
      SelectAppend(a, init, key, k);
      JoinRegroup(Select(a + init, key, k), Select(a, key, k), Select(init, key, k), tail);
    } else {
      assert a + b == a;
    }
  }

  /** Joining a tail onto a list that is two parts joined. */
  lemma JoinRegroup<T>(whole: seq<T>, x: seq<T>, y: seq<T>, tail: seq<T>)
    requires whole == x + y
    ensures whole + tail == x + (y + tail)
  {
  }

  /** Selecting from a group gives the group again for its own key and nothing for
      another. */
  lemma {:induction false} SelectSelect<T(!new)>(xs: seq<T>, key: T -> string, k: string, k': string)
    ensures Select(Select(xs, key, k'), key, k) == if k == k' then Select(xs, key, k) else []
    decreases |xs|
  {
    if xs != [] {
      var init := xs[..|xs| - 1];
      var last := xs[|xs| - 1];
      SelectSelect(init, key, k, k');
      SelectAppend(Select(init, key, k'), if key(last) == k' then [last] else [], key, k);
      if key(last) == k' {
        assert [last][..0] == [];
      }
    }
  }

  /** Each group keeps the order of the input: selecting one key from the gathered
      sequence gives exactly that key's elements of the input, in input order. */
  lemma {:induction false} GatherKeepsGroups<T(!new)>(xs: seq<T>, key: T -> string, ks: seq<string>, k: string)
    requires Distinct(ks)
    ensures Select(Gather(xs, key, ks), key, k) == if k in ks then Select(xs, key, k) else []
    decreases |ks|
  {
    if ks != [] {
      var init := ks[..|ks| - 1];
      var kl := ks[|ks| - 1];
      assert Distinct(init);
      GatherKeepsGroups(xs, key, init, k);
      SelectAppend(Gather(xs, key, init), Select(xs, key, kl), key, k);
      SelectSelect(xs, key, k, kl);
      assert k in ks <==> k in init || k == kl;
      if k == kl {
        assert k !in init;
      }
    }
  }

  /** No element has a smaller key than one before it. */
  predicate KeyOrdered<T>(g: seq<T>, key: T -> string) {
    forall p, q :: 0 <= p < q < |g| ==> !Less(key(g[q]), key(g[p]))
  }

  /** A gathered sequence is ordered by key when the keys are taken in ascending order. */
  lemma {:induction false} GatherAscending<T(!new)>(xs: seq<T>, key: T -> string, ks: seq<string>)
    requires StrictlyAscending(ks)
    ensures KeyOrdered(Gather(xs, key, ks), key)
    decreases |ks|
  {
    if ks != [] {
      var init := ks[..|ks| - 1];
      var kl := ks[|ks| - 1];
      GatherAscending(xs, key, init);
      var a := Gather(xs, key, init);
      var b := Select(xs, key, kl);
      var g := a + b;
      forall p, q | 0 <= p < q < |g|
        ensures !Less(key(g[q]), key(g[p]))
      {
        if q < |a| {
          assert g[p] == a[p] && g[q] == a[q];
          assert KeyOrdered(a, key);
        } else if p >= |a| {
          assert g[p] == b[p - |a|] && g[q] == b[q - |a|];
          assert key(g[p]) == kl && key(g[q]) == kl;
          LessIrreflexive(kl);
        } else {
          assert g[p] == a[p] && a[p] in a;
          var i :| 0 <= i < |init| && init[i] == key(a[p]);
          assert init[i] == ks[i] && kl == ks[|ks| - 1];
          assert Less(init[i], kl);
          assert key(g[q]) == kl;
          LessAsymmetric(key(g[p]), kl);
        }
      }
    }
  }

  /** Adding one element to the input adds it to the gathered multiset exactly when its
      key is one of `ks`. */
  lemma {:induction false} GatherSnoc<T(!new)>(xs: seq<T>, x: T, key: T -> string, ks: seq<string>)
    requires Distinct(ks)
    ensures multiset(Gather(xs + [x], key, ks))
         == multiset(Gather(xs, key, ks)) + (if key(x) in ks then multiset{x} else multiset{})
    decreases |ks|
  {
    if ks != [] {
      var init := ks[..|ks| - 1];
      var kl := ks[|ks| - 1];
      assert Distinct(init);
      GatherSnoc(xs, x, key, init);
      assert (xs + [x])[..|xs|] == xs;
      assert key(x) in ks <==> key(x) in init || key(x) == kl;
      if key(x) == kl {
        assert key(x) !in init;
      }
    }
  }

  /** Gathering every key of the input, each once, rearranges the input. */
  lemma {:induction false} GatherPermutes<T(!new)>(xs: seq<T>, key: T -> string, ks: seq<string>)
    requires Distinct(ks)
    requires forall x :: x in xs ==> key(x) in ks
    ensures multiset(Gather(xs, key, ks)) == multiset(xs)
    decreases |xs|
  {
    if xs == [] {
      GatherEmpty(key, ks);
    } else {
      var init := xs[..|xs| - 1];
      var last := xs[|xs| - 1];
      assert xs == init + [last];
      GatherPermutes(init, key, ks);
      GatherSnoc(init, last, key, ks);
    }
  }

  lemma {:induction false} GatherEmpty<T(!new)>(key: T -> string, ks: seq<string>)
    ensures Gather([], key, ks) == []
    decreases |ks|
  {
    if ks != [] {
      GatherEmpty(key, ks[..|ks| - 1]);
    }
  }
}
