/**
 * The `URLSearchParams` operations the search page uses, over a query held
 * as its ordered list of name/value pairs (section 6.2 of the WHATWG URL
 * Standard): `get` returns the value of the first pair with a name; `set`
 * overwrites the first pair with that name and removes the others, or
 * appends a pair when there is none.
 */
module SearchParams {
  import opened Common

  datatype Param = Param(name: string, value: string)

  type Query = seq<Param>

  predicate Has(q: Query, name: string) {
    exists i :: 0 <= i < |q| && q[i].name == name
  }

  /** `params.get(name)`: the value of the first pair named `name`, or null. */
  function Get(q: Query, name: string): (r: Option<string>)
    ensures r.None? <==> !Has(q, name)
    ensures r.Some? ==> Param(name, r.value) in q
    ensures r.Some? ==> exists i :: 0 <= i < |q| && q[i] == Param(name, r.value) && forall j :: 0 <= j < i ==> q[j].name != name
  {
    if q == [] then None
    else if q[0].name == name then Some(q[0].value)
    else Get(q[1..], name)
  }

  /** The pairs of `q` not named `name`, in their order. */
  function Without(q: Query, name: string): (r: Query)
    ensures |r| <= |q|
    ensures !Has(r, name)
    ensures forall p :: p in r <==> p in q && p.name != name
  {
    if q == [] then []
    else if q[0].name == name then Without(q[1..], name)
    else [q[0]] + Without(q[1..], name)
  }

  /** The first pair named `name` gets `value`; the later ones are dropped. */
  function ReplaceFirst(q: Query, name: string, value: string): Query
    requires Has(q, name)
  {
    if q[0].name == name then [Param(name, value)] + Without(q[1..], name)
    else [q[0]] + ReplaceFirst(q[1..], name, value)
  }

  /**
   * `params.set(name, value)`: the pairs afterwards are the new one and
   * those of `q` with another name; the list grows only when the name was
   * absent.
   */
  function Set(q: Query, name: string, value: string): (r: Query)
    ensures forall p :: p in r <==> p == Param(name, value) || (p in q && p.name != name)
    ensures Has(q, name) ==> |r| <= |q|
    ensures !Has(q, name) ==> |r| == |q| + 1
  {
    if Has(q, name) then
      ReplaceFirstMembers(q, name, value);
      ReplaceFirst(q, name, value)
    else
      q + [Param(name, value)]
  }

  /** The pairs after replacing the first one named `name`: the new pair and those with another name. */
  lemma {:induction false} ReplaceFirstMembers(q: Query, name: string, value: string)
    requires Has(q, name)
    ensures |ReplaceFirst(q, name, value)| <= |q|
    ensures forall p :: p in ReplaceFirst(q, name, value) <==> p == Param(name, value) || (p in q && p.name != name)
  {
    if q[0].name != name {
      var i :| 0 <= i < |q| && q[i].name == name;
      assert q[1..][i - 1].name == name;
      ReplaceFirstMembers(q[1..], name, value);
      assert q == [q[0]] + q[1..];
    } else {
      assert q == [q[0]] + q[1..];
    }
  }

  /** Reading a pair back from a list with one pair appended. */
  lemma {:induction false} GetAppend(q: Query, p: Param, name: string)
    ensures Get(q + [p], name) ==
            if Has(q, name) then Get(q, name)
            else if p.name == name then Some(p.value) else None
  {
    if q != [] {
      assert (q + [p])[1..] == q[1..] + [p];
      GetAppend(q[1..], p, name);
      if q[0].name != name {
        assert Has(q, name) ==> Has(q[1..], name) by {
          if Has(q, name) {
            var i :| 0 <= i < |q| && q[i].name == name;
            assert q[1..][i - 1].name == name;
          }
        }
      }
    }
  }

  /** Removing the pairs named `name` does not change what `get` gives for any other name. */
  lemma {:induction false} GetWithout(q: Query, name: string, other: string)
    requires other != name
    ensures Get(Without(q, name), other) == Get(q, other)
  {
    if q != [] {
      GetWithout(q[1..], name, other);
    }
  }

  /** After `set(name, value)`, `get(name)` gives `value`. */
  lemma {:induction false} SetThenGet(q: Query, name: string, value: string)
    ensures Get(Set(q, name, value), name) == Some(value)
  {
    if Has(q, name) {
      ReplaceFirstGet(q, name, value);
    } else {
      GetAppend(q, Param(name, value), name);
    }
  }

  lemma {:induction false} ReplaceFirstGet(q: Query, name: string, value: string)
    requires Has(q, name)
    ensures Get(ReplaceFirst(q, name, value), name) == Some(value)
  {
    if q[0].name != name {
      var i :| 0 <= i < |q| && q[i].name == name;
      assert q[1..][i - 1].name == name;
      ReplaceFirstGet(q[1..], name, value);
    }
  }

  /** `set(name, value)` leaves `get` of every other name as it was. */
  lemma {:induction false} SetKeepsOthers(q: Query, name: string, value: string, other: string)
    requires other != name
    ensures Get(Set(q, name, value), other) == Get(q, other)
  {
    if Has(q, name) {
      ReplaceFirstKeepsOthers(q, name, value, other);
    } else {
      GetAppend(q, Param(name, value), other);
    }
  }

  lemma {:induction false} ReplaceFirstKeepsOthers(q: Query, name: string, value: string, other: string)
    requires Has(q, name) && other != name
    ensures Get(ReplaceFirst(q, name, value), other) == Get(q, other)
  {
    if q[0].name == name {
      GetWithout(q[1..], name, other);
    } else {
      var i :| 0 <= i < |q| && q[i].name == name;
      assert q[1..][i - 1].name == name;
      ReplaceFirstKeepsOthers(q[1..], name, value, other);
    }
  }

  /** The number of pairs named `name`. */
  function Count(q: Query, name: string): (n: nat)
    ensures n == 0 <==> !Has(q, name)
    ensures n <= |q|
  {
    if q == [] then 0
    else (if q[0].name == name then 1 else 0) + Count(q[1..], name)
  }

  /**
   * `set` keeps every pair with another name, in its order, and leaves
   * exactly one pair named `name`, holding `value`: in the place of the
   * first such pair, or at the end when there was none.
   */
  lemma {:induction false} SetShape(q: Query, name: string, value: string)
    ensures Without(Set(q, name, value), name) == Without(q, name)
    ensures Param(name, value) in Set(q, name, value)
    ensures forall p :: p in Set(q, name, value) && p.name == name ==> p.value == value
    ensures Count(Set(q, name, value), name) == 1
    ensures !Has(q, name) ==> Set(q, name, value) == q + [Param(name, value)]
    ensures forall i :: 0 <= i < |q| && q[i].name == name && (forall j :: 0 <= j < i ==> q[j].name != name) ==>
      Set(q, name, value) == q[..i] + [Param(name, value)] + Without(q[i + 1..], name)
  {
    if Has(q, name) {
      ReplaceFirstShape(q, name, value);
      ReplaceFirstCount(q, name, value);
      forall i | 0 <= i < |q| && q[i].name == name && (forall j :: 0 <= j < i ==> q[j].name != name)
        ensures Set(q, name, value) == q[..i] + [Param(name, value)] + Without(q[i + 1..], name)
      {
        ReplaceFirstAt(q, name, value, i);
      }
    } else {
      WithoutAppend(q, Param(name, value), name);
      CountAppend(q, Param(name, value), name);
    }
  }

  /** `set` on a list with a pair named `name` puts the new pair where the first one was. */
  lemma {:induction false} ReplaceFirstAt(q: Query, name: string, value: string, i: nat)
    requires i < |q| && q[i].name == name
    requires forall j :: 0 <= j < i ==> q[j].name != name
    ensures Has(q, name)
    ensures ReplaceFirst(q, name, value) == q[..i] + [Param(name, value)] + Without(q[i + 1..], name)
  {
    assert q[i].name == name;
    if i > 0 {
      var t, p := q[1..], Param(name, value);
      assert t[i - 1] == q[i];
      ReplaceFirstAt(t, name, value, i - 1);
      assert ReplaceFirst(q, name, value) == [q[0]] + ReplaceFirst(t, name, value);
      ConcatShift([q[0]], t[..i - 1], [p], Without(t[i..], name));
      SliceShift(q, i);
    }
  }

  /** Regrouping a concatenation of four lists. */
  lemma ConcatShift<T>(x: seq<T>, a: seq<T>, b: seq<T>, c: seq<T>)
    ensures x + (a + b + c) == (x + a) + b + c
  {
  }

  /** The slices of a list's tail, in terms of the list. */
  lemma SliceShift<T>(q: seq<T>, i: nat)
    requires 0 < i < |q|
    ensures q[..i] == [q[0]] + q[1..][..i - 1]
    ensures q[1..][i..] == q[i + 1..]
  {
  }

  lemma {:induction false} ReplaceFirstCount(q: Query, name: string, value: string)
    requires Has(q, name)
    ensures Count(ReplaceFirst(q, name, value), name) == 1
  {
    var r := ReplaceFirst(q, name, value);
    if q[0].name == name {
      assert r[1..] == Without(q[1..], name);
    } else {
      var k :| 0 <= k < |q| && q[k].name == name;
      assert q[1..][k - 1].name == name;
      ReplaceFirstCount(q[1..], name, value);
      assert r[1..] == ReplaceFirst(q[1..], name, value);
    }
  }

  lemma {:induction false} CountAppend(q: Query, p: Param, name: string)
    ensures Count(q + [p], name) == Count(q, name) + (if p.name == name then 1 else 0)
  {
    if q != [] {
      assert (q + [p])[1..] == q[1..] + [p];
      CountAppend(q[1..], p, name);
    }
  }

  lemma {:induction false} WithoutAppend(q: Query, p: Param, name: string)
    requires p.name == name
    ensures Without(q + [p], name) == Without(q, name)
  {
    if q == [] {
      assert [p][1..] == [];
    } else {
      assert (q + [p])[1..] == q[1..] + [p];
      WithoutAppend(q[1..], p, name);
    }
  }

  lemma {:induction false} ReplaceFirstShape(q: Query, name: string, value: string)
    requires Has(q, name)
    ensures Without(ReplaceFirst(q, name, value), name) == Without(q, name)
    ensures Param(name, value) in ReplaceFirst(q, name, value)
    ensures forall p :: p in ReplaceFirst(q, name, value) && p.name == name ==> p.value == value
  {
    var r := ReplaceFirst(q, name, value);
    if q[0].name == name {
      WithoutTwice(q[1..], name);
      assert r[1..] == Without(q[1..], name);
    } else {
      var i :| 0 <= i < |q| && q[i].name == name;
      assert q[1..][i - 1].name == name;
      ReplaceFirstShape(q[1..], name, value);
      assert r[1..] == ReplaceFirst(q[1..], name, value);
    }
  }

  lemma {:induction false} WithoutTwice(q: Query, name: string)
    ensures Without(Without(q, name), name) == Without(q, name)
  {
    if q != [] {
      WithoutTwice(q[1..], name);
    }
  }
}
