/**
 * Python's collection builtins used by the model. `dict(pairs)` inserts each
 * pair in order, so for a key that occurs more than once the value of its
 * LAST pair is kept.
 */
module Dicts {
  import opened Wrappers

  function DictFromPairs<K, V>(pairs: seq<(K, V)>): map<K, V>
    decreases |pairs|
  {
    if |pairs| == 0 then map[]
    else DictFromPairs(pairs[..|pairs| - 1])[pairs[|pairs| - 1].0 := pairs[|pairs| - 1].1]
  }

  /** The keys of the dictionary are exactly the keys of the pairs. */
  lemma {:induction false} DictFromPairsKeys<K, V>(pairs: seq<(K, V)>, k: K)
    ensures k in DictFromPairs(pairs) <==> exists j :: 0 <= j < |pairs| && pairs[j].0 == k
    decreases |pairs|
  {
    if |pairs| > 0 {
      var init := pairs[..|pairs| - 1];
      DictFromPairsKeys(init, k);
      if k in DictFromPairs(init) {
        var j :| 0 <= j < |init| && init[j].0 == k;
        assert pairs[j].0 == k;
      }
      if exists j :: 0 <= j < |pairs| && pairs[j].0 == k {
        var j :| 0 <= j < |pairs| && pairs[j].0 == k;
        if j < |init| {
          assert init[j].0 == k;
        }
      }
    }
  }

  /** A pair that no later pair with the same key follows determines the value. */
  lemma {:induction false} DictFromPairsLastWins<K, V>(pairs: seq<(K, V)>, i: nat)
    requires i < |pairs|
    requires forall j :: i < j < |pairs| ==> pairs[j].0 != pairs[i].0
    ensures pairs[i].0 in DictFromPairs(pairs)
    ensures DictFromPairs(pairs)[pairs[i].0] == pairs[i].1
    decreases |pairs|
  {
    if i < |pairs| - 1 {
      var init := pairs[..|pairs| - 1];
      assert forall j :: i < j < |init| ==> init[j].0 == pairs[j].0;
      DictFromPairsLastWins(init, i);
    }
  }

  /** Every value in the dictionary comes from the last pair carrying its key. */
  lemma {:induction false} DictFromPairsValue<K, V>(pairs: seq<(K, V)>, k: K)
    requires k in DictFromPairs(pairs)
    ensures exists j :: 0 <= j < |pairs| && pairs[j].0 == k && DictFromPairs(pairs)[k] == pairs[j].1
                        && forall j' :: j < j' < |pairs| ==> pairs[j'].0 != k
    decreases |pairs|
  {
    var last := |pairs| - 1;
    if pairs[last].0 != k {
      var init := pairs[..last];
      DictFromPairsValue(init, k);
      var j :| 0 <= j < |init| && init[j].0 == k && DictFromPairs(init)[k] == init[j].1
               && forall j' :: j < j' < |init| ==> init[j'].0 != k;
      assert pairs[j] == init[j];
      assert forall j' :: j < j' < |pairs| ==> pairs[j'].0 != k by {
        forall j' | j < j' < |pairs| ensures pairs[j'].0 != k {
          if j' < last { assert pairs[j'] == init[j']; }
        }
      }
    }
  }

  /** `set(v for v in values if v is not None)`. */
  function SomeSet<T>(values: seq<Option<T>>): set<T>
    decreases |values|
  {
    if |values| == 0 then {}
    else SomeSet(values[..|values| - 1]) + (if values[|values| - 1].Some? then {values[|values| - 1].value} else {})
  }

  lemma {:induction false} SomeSetMembers<T>(values: seq<Option<T>>, x: T)
    ensures x in SomeSet(values) <==> exists i :: 0 <= i < |values| && values[i] == Some(x)
    decreases |values|
  {
    if |values| > 0 {
      var init := values[..|values| - 1];
      SomeSetMembers(init, x);
      if exists i :: 0 <= i < |values| && values[i] == Some(x) {
        var i :| 0 <= i < |values| && values[i] == Some(x);
        if i < |init| { assert init[i] == values[i]; }
      }
      if x in SomeSet(init) {
        var i :| 0 <= i < |init| && init[i] == Some(x);
        assert values[i] == init[i];
      }
    }
  }

  /** The image of a set under a partial map: `{f(x) for x in s if f(x)}`. */
  function OptionImage<A, B>(s: set<A>, f: A -> Option<B>): set<B> {
    set x | x in s && f(x).Some? :: f(x).value
  }

  lemma OptionImageAdd<A, B>(s: set<A>, x: A, f: A -> Option<B>)
    ensures OptionImage(s + {x}, f) == OptionImage(s, f) + (if f(x).Some? then {f(x).value} else {})
  {
    var lhs := OptionImage(s + {x}, f);
    var rhs := OptionImage(s, f) + (if f(x).Some? then {f(x).value} else {});
    forall y | y in lhs ensures y in rhs {
      var z :| z in s + {x} && f(z).Some? && f(z).value == y;
      if z != x { assert y in OptionImage(s, f); }
    }
    forall y | y in rhs ensures y in lhs {
      if y in OptionImage(s, f) {
        var z :| z in s && f(z).Some? && f(z).value == y;
        assert z in s + {x};
      } else {
        assert x in s + {x};
      }
    }
  }

  lemma OptionImageMember<A, B>(s: set<A>, x: A, f: A -> Option<B>)
    requires x in s && f(x).Some?
    ensures f(x).value in OptionImage(s, f)
  {
  }
}
