/**
 * Canonical form of a request's query parameters, as `concatQueryParameters`
 * in lib/client.js builds it for signing: every parameter becomes the pair
 * `[key, value]`, the pairs are put in JavaScript's default array order, and
 * each is written `key=value` with nothing between consecutive pairs.
 *
 * JavaScript's default `sort()` compares the string forms of the elements;
 * the string form of `[key, value]` is `key,value`, so pairs are ordered by
 * that text and not by the key alone. The sort is stable.
 */
module Query {
  import opened Text

  /** One query parameter: its name and its (already stringified) value. */
  datatype Param = Param(key: string, value: string)

  /** A query object's properties in insertion order. */
  type Params = seq<Param>

  /** What the default sort compares: `String([key, value])`. */
  function SortKey(p: Param): string
  {
    p.key + "," + p.value
  }

  /** `[key, value].join('=')`. */
  function Render(p: Param): string
  {
    p.key + "=" + p.value
  }

  /** `p` sorts strictly before `q`. */
  predicate Before(p: Param, q: Param)
  {
    Less(SortKey(p), SortKey(q))
  }

  /** No element is out of order with one to its left. */
  predicate Sorted(ps: Params)
  {
    forall i, j :: 0 <= i < j < |ps| ==> !Before(ps[j], ps[i])
  }

  predicate NoCommaInKeys(ps: Params)
  {
    forall i :: 0 <= i < |ps| ==> ',' !in ps[i].key
  }

  /** Inserts `p` after every element that does not sort after it, which
      keeps equal elements in arrival order. */
  function Insert(p: Param, ps: Params): (r: Params)
    requires Sorted(ps)
    ensures Sorted(r)
    ensures multiset(r) == multiset(ps) + multiset{p}
    decreases |ps|
  {
    if |ps| == 0 then [p]
    else if Before(p, ps[0]) then
      InsertFrontSorted(p, ps);
      [p] + ps
    else
      var rest := Insert(p, ps[1..]);
      InsertConsSorted(ps[0], p, ps[1..], rest);
      assert ps == [ps[0]] + ps[1..];
      [ps[0]] + rest
  }

  lemma InsertFrontSorted(p: Param, ps: Params)
    requires Sorted(ps) && |ps| > 0 && Before(p, ps[0])
    ensures Sorted([p] + ps)
  {
    var r := [p] + ps;
    forall i, j | 0 <= i < j < |r|
      ensures !Before(r[j], r[i])
    {
      if i == 0 {
        if j > 1 {
          assert !Before(ps[j - 1], ps[0]);
          if Before(ps[j - 1], p) {
            LessTransitive(SortKey(ps[j - 1]), SortKey(p), SortKey(ps[0]));
          }
        } else {
          LessAsymmetric(SortKey(p), SortKey(ps[0]));
        }
      }
    }
  }

  lemma InsertConsSorted(x: Param, p: Param, tail: Params, rest: Params)
    requires Sorted([x] + tail) && !Before(p, x)
    requires Sorted(rest) && multiset(rest) == multiset(tail) + multiset{p}
    ensures Sorted([x] + rest)
  {
    var r := [x] + rest;
    forall j | 0 < j < |r|
      ensures !Before(r[j], x)
    {
      var y := rest[j - 1];
      assert r[j] == y;
      assert y in multiset(rest);
      if y != p {
        assert multiset(tail)[y] == multiset(rest)[y] > 0;
        var k :| 0 <= k < |tail| && tail[k] == y;
        assert ([x] + tail)[k + 1] == y && ([x] + tail)[0] == x;
      }
    }
    forall i, j | 0 <= i < j < |r|
      ensures !Before(r[j], r[i])
    {
      if i > 0 {
        assert r[i] == rest[i - 1] && r[j] == rest[j - 1];
      }
    }
  }

  /** The default `sort()`: a stable sort by `SortKey`. */
  function Sort(ps: Params): (r: Params)
    ensures Sorted(r)
    ensures multiset(r) == multiset(ps)
    decreases |ps|
  {
    if |ps| == 0 then []
    else
      var front := ps[..|ps| - 1];
      assert ps == front + [ps[|ps| - 1]];
      Insert(ps[|ps| - 1], Sort(front))
  }

  /** `reduce((str, q) => str + q.join('='), '')`. */
  function Concat(ps: Params): string
    decreases |ps|
  {
    if |ps| == 0 then "" else Concat(ps[..|ps| - 1]) + Render(ps[|ps| - 1])
  }

  /** `concatQueryParameters(params)`. An absent query is the empty list. */
  function Canonical(ps: Params): string
  {
    Concat(Sort(ps))
  }

  // -------------------------------------------------------------- properties

  /** An absent or empty query canonicalises to the empty string. */
  lemma CanonicalEmpty()
    ensures Canonical([]) == ""
  {
  }

  /** Every element of a multiset has a sort key of its own. */
  predicate SortKeysDistinguish(m: multiset<Param>)
  {
    forall x, y :: x in m && y in m && SortKey(x) == SortKey(y) ==> x == y
  }

  /** Two sorted lists with the same elements and no ties are the same list. */
  lemma {:induction false} SortedUnique(a: Params, b: Params)
    requires Sorted(a) && Sorted(b) && SortKeysDistinguish(multiset(a))
    requires multiset(a) == multiset(b)
    ensures a == b
    decreases |a|
  {
    assert |a| == |multiset(a)| == |multiset(b)| == |b|;
    if |a| > 0 {
      SortedHeadsEqual(a, b);
      DropHead(a);
      DropHead(b);
      SortedUnique(a[1..], b[1..]);
    }
  }

  /** The first elements of two sorted lists with the same elements and no
      ties are equal: each is the least element. */
  lemma SortedHeadsEqual(a: Params, b: Params)
    requires Sorted(a) && Sorted(b) && SortKeysDistinguish(multiset(a))
    requires multiset(a) == multiset(b) && |a| > 0 && |b| > 0
    ensures a[0] == b[0]
  {
    assert a[0] in multiset(b);
    assert b[0] in multiset(a);
    var i :| 0 <= i < |a| && a[i] == b[0];
    var j :| 0 <= j < |b| && b[j] == a[0];
    LessIrreflexive(SortKey(a[0]));
    LessIrreflexive(SortKey(b[0]));
    assert !Before(a[i], a[0]);
    assert !Before(b[j], b[0]);
    if SortKey(a[0]) != SortKey(b[0]) {
      LessTotal(SortKey(a[0]), SortKey(b[0]));
    }
  }

  lemma DropHead(a: Params)
    requires |a| > 0
    ensures multiset(a[1..]) == multiset(a) - multiset{a[0]}
    ensures Sorted(a) ==> Sorted(a[1..])
    ensures SortKeysDistinguish(multiset(a)) ==> SortKeysDistinguish(multiset(a[1..]))
  {
    assert a == [a[0]] + a[1..];
    assert multiset(a) == multiset{a[0]} + multiset(a[1..]);
  }

  /** Equal `key,value` texts of pairs whose keys have no comma come from
      equal pairs: the first comma ends the key. */
  lemma SortKeyInjective(p: Param, q: Param)
    requires ',' !in p.key && ',' !in q.key
    requires SortKey(p) == SortKey(q)
    ensures p == q
  {
    var s := SortKey(p);
    assert s == p.key + ("," + p.value) && s == q.key + ("," + q.value);
    IndexOfAfterPrefix(p.key, "," + p.value, ',');
    IndexOfAfterPrefix(q.key, "," + q.value, ',');
    assert p.key == s[..|p.key|] == q.key;
    assert p.value == s[|p.key| + 1..] == q.value;
  }

  lemma SortKeysDistinguishWithoutCommas(ps: Params)
    requires NoCommaInKeys(ps)
    ensures SortKeysDistinguish(multiset(ps))
  {
    forall x, y | x in multiset(ps) && y in multiset(ps) && SortKey(x) == SortKey(y)
      ensures x == y
    {
      assert x in ps && y in ps;
      SortKeyInjective(x, y);
    }
  }

  /** The canonical string does not depend on the order the query object's
      properties were added in, as long as no key contains a comma (the keys
      of a JavaScript object are distinct, but that is not even needed). */
  lemma CanonicalOrderIndependent(a: Params, b: Params)
    requires NoCommaInKeys(a)
    requires multiset(a) == multiset(b)
    ensures Canonical(a) == Canonical(b)
  {
    SortKeysDistinguishWithoutCommas(a);
    SortedUnique(Sort(a), Sort(b));
  }

  /** Two tied parameters keep their arrival order. */
  lemma SortTied(p: Param, q: Param)
    requires SortKey(p) == SortKey(q)
    ensures Canonical([p, q]) == Render(p) + Render(q)
  {
    LessIrreflexive(SortKey(p));
    assert [p, q][..1] == [p];
    assert Sort([p]) == [p];
    assert Sort([p, q]) == Insert(q, [p]) == [p, q];
    assert [p, q][..1] == [p];
    assert Concat([p, q]) == Concat([p]) + Render(q);
  }

  /** With a comma in a key the order of insertion can matter: the pairs
      `["a,b", "c"]` and `["a", "b,c"]` both read `a,b,c`, so they stay in
      arrival order and the two orders canonicalise differently. */
  lemma CommaKeysOrderDependent(p: Param, q: Param)
    requires p == Param("a,b", "c") && q == Param("a", "b,c")
    ensures Canonical([p, q]) == "a,b=ca=b,c"
    ensures Canonical([q, p]) == "a=b,ca,b=c"
  {
    CommaKeysTie(p, q);
    SortTied(p, q);
    SortTied(q, p);
    CommaKeysRendered();
  }

  lemma CommaKeysRendered()
    ensures "a,b=c" + "a=b,c" == "a,b=ca=b,c"
    ensures "a=b,c" + "a,b=c" == "a=b,ca,b=c"
  {
  }

  lemma CommaKeysTie(p: Param, q: Param)
    requires p == Param("a,b", "c") && q == Param("a", "b,c")
    ensures SortKey(p) == SortKey(q)
    ensures Render(p) == "a,b=c" && Render(q) == "a=b,c"
  {
    assert SortKey(p) == "a,b,c";
    assert SortKey(q) == "a,b,c";
  }
}
