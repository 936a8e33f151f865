/**
 * The query parameters of a URL as the URLSearchParams class of the WHATWG
 * URL Standard (section 6.2) keeps them: an ordered list of name/value pairs
 * in which a name may occur more than once.
 */
module UrlParams {
  import opened Wrappers

  datatype Param = Param(name: string, value: string)

  /** Some pair of the list has this name. */
  predicate Has(ps: seq<Param>, name: string) {
    exists i :: 0 <= i < |ps| && ps[i].name == name
  }

  /** The position of the first pair with this name. */
  function FirstIndex(ps: seq<Param>, name: string): (i: nat)
    requires Has(ps, name)
    ensures i < |ps| && ps[i].name == name
    ensures forall j :: 0 <= j < i ==> ps[j].name != name
  {
    if ps[0].name == name then 0
    else
      assert Has(ps[1..], name) by {
        var k :| 0 <= k < |ps| && ps[k].name == name;
        assert ps[1..][k - 1].name == name;
      }
      1 + FirstIndex(ps[1..], name)
  }

  /** get(name): the value of the first pair with this name, absent (null) when there is none. */
  function Lookup(ps: seq<Param>, name: string): (r: Option<string>)
    ensures r.Some? <==> Has(ps, name)
    ensures r.Some? ==> r.value == ps[FirstIndex(ps, name)].value
  {
    if ps == [] then None
    else if ps[0].name == name then Some(ps[0].value)
    else
      assert Has(ps, name) ==> Has(ps[1..], name) by {
        if Has(ps, name) {
          var k :| 0 <= k < |ps| && ps[k].name == name;
          assert ps[1..][k - 1].name == name;
        }
      }
      Lookup(ps[1..], name)
  }

  /** delete(name): every pair with this name removed, the others kept in their order. */
  function DeleteAll(ps: seq<Param>, name: string): (r: seq<Param>)
    ensures !Has(r, name)
    ensures forall p :: p in r <==> p in ps && p.name != name
    ensures |r| <= |ps|
  {
    if ps == [] then []
    else if ps[0].name == name then DeleteAll(ps[1..], name)
    else [ps[0]] + DeleteAll(ps[1..], name)
  }

  /**
   * set(name, value): the first pair with this name takes the new value and
   * every later pair with this name is removed; when there is none, the pair
   * is appended.
   */
  function SetPair(ps: seq<Param>, name: string, value: string): (r: seq<Param>)
    ensures Lookup(r, name) == Some(value)
  {
    if ps == [] then [Param(name, value)]
    else if ps[0].name == name then [Param(name, value)] + DeleteAll(ps[1..], name)
    else [ps[0]] + SetPair(ps[1..], name, value)
  }

  /** The standard's description of set when no pair has the name: append. */
  lemma {:induction false} SetPairAppends(ps: seq<Param>, name: string, value: string)
    requires !Has(ps, name)
    ensures SetPair(ps, name, value) == ps + [Param(name, value)]
  {
    if ps != [] {
      assert !Has(ps[1..], name);
      SetPairAppends(ps[1..], name, value);
      assert ps == [ps[0]] + ps[1..];
    }
  }

  /**
   * The standard's description of set when some pair has the name: the list
   * before the first such pair, the pair with its new value, then the rest of
   * the list without that name.
   */
  lemma {:induction false} SetPairReplacesFirst(ps: seq<Param>, name: string, value: string)
    requires Has(ps, name)
    ensures var i := FirstIndex(ps, name);
      SetPair(ps, name, value) == ps[..i] + [Param(name, value)] + DeleteAll(ps[i + 1..], name)
  {
    if ps[0].name == name {
      assert ps[..0] == [];
    } else {
      HasInTail(ps, name);
      var tail := ps[1..];
      var i := FirstIndex(tail, name);
      SetPairReplacesFirst(tail, name, value);
      SetPairPastOther(ps, name, value, i);
    }
  }

  /** One step of SetPairReplacesFirst: a leading pair with another name is kept in front. */
  lemma SetPairPastOther(ps: seq<Param>, name: string, value: string, i: nat)
    requires ps != [] && ps[0].name != name && i + 1 < |ps|
    requires SetPair(ps[1..], name, value) == ps[1..][..i] + [Param(name, value)] + DeleteAll(ps[1..][i + 1..], name)
    ensures SetPair(ps, name, value) == ps[..i + 1] + [Param(name, value)] + DeleteAll(ps[i + 2..], name)
  {
    SetPairKeepsHead(ps, name, value);
    PrependSplit(ps, i, [Param(name, value)], DeleteAll(ps[1..][i + 1..], name));
  }

  /** set past a leading pair with another name keeps that pair in front. */
  lemma SetPairKeepsHead(ps: seq<Param>, name: string, value: string)
    requires ps != [] && ps[0].name != name
    ensures SetPair(ps, name, value) == [ps[0]] + SetPair(ps[1..], name, value)
  {
  }

  /** Sequence bookkeeping for SetPairPastOther. */
  lemma PrependSplit(ps: seq<Param>, i: nat, mid: seq<Param>, rest: seq<Param>)
    requires i + 1 < |ps|
    ensures [ps[0]] + (ps[1..][..i] + mid + rest) == ps[..i + 1] + mid + rest
    ensures ps[i + 2..] == ps[1..][i + 1..]
  {
    assert ps[..i + 1] == [ps[0]] + ps[1..][..i];
  }

  lemma HasInTail(ps: seq<Param>, name: string)
    requires Has(ps, name) && ps[0].name != name
    ensures Has(ps[1..], name) && FirstIndex(ps, name) == FirstIndex(ps[1..], name) + 1
  {
    var k :| 0 <= k < |ps| && ps[k].name == name;
    assert ps[1..][k - 1].name == name;
  }

  /**
   * set touches only pairs with its own name: removing that name before or
   * after set gives the same list, so every other pair keeps its value and
   * its place in the order; and exactly one pair with that name remains.
   */
  lemma {:induction false} SetPairKeepsOthers(ps: seq<Param>, name: string, value: string)
    ensures DeleteAll(SetPair(ps, name, value), name) == DeleteAll(ps, name)
    ensures |SetPair(ps, name, value)| == |DeleteAll(ps, name)| + 1
  {
    if ps == [] {
    } else if ps[0].name == name {
      DeleteAllIdempotent(ps[1..], name);
    } else {
      SetPairKeepsOthers(ps[1..], name, value);
    }
  }

  lemma {:induction false} DeleteAllIdempotent(ps: seq<Param>, name: string)
    ensures DeleteAll(DeleteAll(ps, name), name) == DeleteAll(ps, name)
  {
    if ps != [] {
      DeleteAllIdempotent(ps[1..], name);
    }
  }

  /** delete works pair by pair: deleting from a concatenation deletes from each part, in order. */
  lemma {:induction false} DeleteAllConcat(a: seq<Param>, b: seq<Param>, name: string)
    ensures DeleteAll(a + b, name) == DeleteAll(a, name) + DeleteAll(b, name)
  {
    if a != [] {
      assert (a + b)[1..] == a[1..] + b;
      DeleteAllConcat(a[1..], b, name);
    } else {
      assert a + b == b;
    }
  }

  /** Deleting a name that no pair has leaves the list exactly as it was. */
  lemma {:induction false} DeleteAllAbsent(ps: seq<Param>, name: string)
    requires !Has(ps, name)
    ensures DeleteAll(ps, name) == ps
  {
    if ps != [] {
      DeleteAllAbsent(ps[1..], name);
      assert ps == [ps[0]] + ps[1..];
    }
  }

  /** Deleting two names gives the same list in either order. */
  lemma {:induction false} DeleteAllCommutes(ps: seq<Param>, a: string, b: string)
    ensures DeleteAll(DeleteAll(ps, a), b) == DeleteAll(DeleteAll(ps, b), a)
  {
    if ps != [] {
      DeleteAllCommutes(ps[1..], a, b);
    }
  }

  /** Removing a name does not change what get answers for any other name. */
  lemma {:induction false} LookupIgnoresOtherDeletes(ps: seq<Param>, name: string, other: string)
    requires other != name
    ensures Lookup(DeleteAll(ps, name), other) == Lookup(ps, other)
  {
    if ps != [] {
      LookupIgnoresOtherDeletes(ps[1..], name, other);
    }
  }

  /** set does not change what get answers for any other name. */
  lemma {:induction false} LookupIgnoresOtherSets(ps: seq<Param>, name: string, value: string, other: string)
    requires other != name
    ensures Lookup(SetPair(ps, name, value), other) == Lookup(ps, other)
  {
    if ps == [] {
    } else if ps[0].name == name {
      LookupIgnoresOtherDeletes(ps[1..], name, other);
    } else {
      LookupIgnoresOtherSets(ps[1..], name, value, other);
    }
  }

  /** One pair as the serializer writes it: name, "=", value. */
  function PairText(p: Param): string {
    p.name + "=" + p.value
  }

  /**
   * toString(): the pairs joined with "&". Percent-encoding is not part of
   * this model; the text is empty exactly when there are no pairs.
   */
  function Serialize(ps: seq<Param>): (s: string)
    ensures s == [] <==> ps == []
  {
    if ps == [] then []
    else if |ps| == 1 then PairText(ps[0])
    else PairText(ps[0]) + "&" + Serialize(ps[1..])
  }

  /** A URLSearchParams object: its list is edited in place by set and delete. */
  class SearchParams {
    var list: seq<Param>

    /** new URLSearchParams(init) */
    constructor (init: seq<Param>)
      ensures list == init
    {
      list := init;
    }

    function Get(name: string): (r: Option<string>)
      reads this
      ensures r.Some? <==> Has(list, name)
      ensures r.Some? ==> r.value == list[FirstIndex(list, name)].value
    {
      Lookup(list, name)
    }

    method Set(name: string, value: string)
      modifies this
      ensures list == SetPair(old(list), name, value)
      ensures Get(name) == Some(value)
      ensures DeleteAll(list, name) == DeleteAll(old(list), name)
    {
      SetPairKeepsOthers(list, name, value);
      list := SetPair(list, name, value);
    }

    method Delete(name: string)
      modifies this
      ensures list == DeleteAll(old(list), name)
      ensures Get(name) == None
    {
      list := DeleteAll(list, name);
    }

    function ToString(): (s: string)
      reads this
      ensures s == [] <==> list == []
    {
      Serialize(list)
    }
  }
}
