/**
  The live working sets as the batch savers see them: a dictionary whose values
  are enumerated once each, in some order, with null entries skipped.
 */
module LiveSets {
  import opened Optional

  /** `order` lists every key of `keys` exactly once, as enumerating a dictionary does. */
  predicate Enumerates<K(==)>(order: seq<K>, keys: set<K>)
  {
    && (forall i, j :: 0 <= i < j < |order| ==> order[i] != order[j])
    && (forall i :: 0 <= i < |order| ==> order[i] in keys)
    && (forall k :: k in keys ==> k in order)
  }

  /** A distinct sequence is its prefix plus a last element that is new to the prefix. */
  lemma DistinctSnoc<K>(order: seq<K>)
    requires order != []
    requires forall i, j :: 0 <= i < j < |order| ==> order[i] != order[j]
    ensures order[|order| - 1] !in order[..|order| - 1]
    ensures forall k :: k in order <==> k in order[..|order| - 1] || k == order[|order| - 1]
  {
    var last := order[|order| - 1];
    var prefix := order[..|order| - 1];
    forall i | 0 <= i < |prefix| ensures prefix[i] != last {
      assert order[i] == prefix[i];
    }
    forall k ensures k in order <==> k in prefix || k == last {
      if k in order {
        var i :| 0 <= i < |order| && order[i] == k;
        if i < |order| - 1 {
          assert prefix[i] == k;
        }
      }
    }
  }

  /** An enumeration is exactly as long as the key set it enumerates. */
  lemma {:induction false} EnumerationLength<K>(order: seq<K>, keys: set<K>)
    requires Enumerates(order, keys)
    ensures |order| == |keys|
    decreases |order|
  {
    if order != [] {
      var last := order[|order| - 1];
      var prefix := order[..|order| - 1];
      DistinctSnoc(order);
      EnumerationLength(prefix, keys - {last});
    }
  }

  /** The dictionary's values in enumeration order. */
  function Values<K, E>(m: map<K, Option<E>>, order: seq<K>): (vs: seq<Option<E>>)
    requires forall i :: 0 <= i < |order| ==> order[i] in m
    ensures |vs| == |order|
    ensures forall i :: 0 <= i < |order| ==> vs[i] == m[order[i]]
  {
    seq(|order|, i requires 0 <= i < |order| => m[order[i]])
  }

  /** The number of non-null entries. */
  function PresentCount<E>(es: seq<Option<E>>): (n: nat)
    ensures n <= |es|
  {
    if es == [] then 0
    else PresentCount(es[..|es| - 1]) + (if es[|es| - 1].Some? then 1 else 0)
  }

  /** The ids of the non-null entries. */
  function Ids<E>(es: seq<Option<E>>, id: E -> string): set<string>
  {
    set i | 0 <= i < |es| && es[i].Some? :: id(es[i].value)
  }

  /** Adding one id to a set grows its part outside `busy` by one exactly when the id is new to both. */
  lemma NewIdsAdd(ids: set<string>, x: string, busy: set<string>)
    ensures x in busy + ids ==> ids + {x} - busy == ids - busy
    ensures x !in busy + ids ==> |ids + {x} - busy| == |ids - busy| + 1
  {
    if x !in busy + ids {
      assert ids + {x} - busy == (ids - busy) + {x};
    }
  }

  lemma IdsSnoc<E>(es: seq<Option<E>>, id: E -> string)
    requires es != []
    ensures Ids(es, id) == Ids(es[..|es| - 1], id) + (if es[|es| - 1].Some? then {id(es[|es| - 1].value)} else {})
  {
    var prefix := es[..|es| - 1];
    forall x | x in Ids(prefix, id) ensures x in Ids(es, id) {
      var i :| 0 <= i < |prefix| && prefix[i].Some? && id(prefix[i].value) == x;
      assert es[i] == prefix[i];
    }
    forall x | x in Ids(es, id)
      ensures x in Ids(prefix, id) + (if es[|es| - 1].Some? then {id(es[|es| - 1].value)} else {})
    {
      var i :| 0 <= i < |es| && es[i].Some? && id(es[i].value) == x;
      if i < |es| - 1 {
        assert prefix[i] == es[i];
      }
    }
  }

  /** Two entries can share an id, so there are never more distinct ids than non-null entries. */
  lemma {:induction false} IdsAtMostPresent<E>(es: seq<Option<E>>, id: E -> string)
    ensures |Ids(es, id)| <= PresentCount(es)
    decreases |es|
  {
    if es != [] {
      var prefix := es[..|es| - 1];
      IdsAtMostPresent(prefix, id);
      IdsSnoc(es, id);
      if es[|es| - 1].Some? {
        var x := id(es[|es| - 1].value);
        if x in Ids(prefix, id) {
          assert Ids(es, id) == Ids(prefix, id);
        } else {
          assert |Ids(es, id)| == |Ids(prefix, id)| + 1;
        }
      } else {
        assert Ids(es, id) == Ids(prefix, id);
      }
    }
  }

  /** The ids of the live, non-null entities of a dictionary. */
  function LiveIds<K, E>(m: map<K, Option<E>>, id: E -> string): set<string>
  {
    set k | k in m && m[k].Some? :: id(m[k].value)
  }

  /** The keys whose entity is not null. */
  function NonNullKeys<K, E>(m: map<K, Option<E>>): (ks: set<K>)
    ensures ks <= m.Keys
  {
    set k | k in m && m[k].Some?
  }

  /** A map with a non-null entry has a live id. */
  lemma LiveIdsNonEmpty<K, E>(m: map<K, Option<E>>, id: E -> string)
    requires NonNullKeys(m) != {}
    ensures LiveIds(m, id) != {}
  {
    var k :| k in NonNullKeys(m);
    assert id(m[k].value) in LiveIds(m, id);
  }

  lemma ValuesIds<K, E>(m: map<K, Option<E>>, order: seq<K>, id: E -> string)
    requires Enumerates(order, m.Keys)
    ensures Ids(Values(m, order), id) == LiveIds(m, id)
  {
    var vs := Values(m, order);
    forall x | x in LiveIds(m, id) ensures x in Ids(vs, id) {
      var k :| k in m && m[k].Some? && id(m[k].value) == x;
      var i :| 0 <= i < |order| && order[i] == k;
      assert vs[i] == m[k];
    }
  }

  /** The non-null keys among the first entries of an enumeration. */
  function NonNullAmong<K, E>(m: map<K, Option<E>>, order: seq<K>): set<K>
  {
    set k | k in order && k in m && m[k].Some?
  }

  lemma {:induction false} PresentCountOfValues<K, E>(m: map<K, Option<E>>, order: seq<K>)
    requires forall i :: 0 <= i < |order| ==> order[i] in m
    requires forall i, j :: 0 <= i < j < |order| ==> order[i] != order[j]
    ensures PresentCount(Values(m, order)) == |NonNullAmong(m, order)|
    decreases |order|
  {
    if order == [] {
      assert NonNullAmong(m, order) == {};
    } else {
      var last := order[|order| - 1];
      var prefix := order[..|order| - 1];
      PresentCountOfValues(m, prefix);
      assert Values(m, order)[..|order| - 1] == Values(m, prefix);
      DistinctSnoc(order);
      if m[last].Some? {
        assert NonNullAmong(m, order) == NonNullAmong(m, prefix) + {last};
      } else {
        assert NonNullAmong(m, order) == NonNullAmong(m, prefix);
      }
    }
  }

  /** Enumerating a dictionary visits exactly its non-null entries once each. */
  lemma PresentCountIsNonNull<K, E>(m: map<K, Option<E>>, order: seq<K>)
    requires Enumerates(order, m.Keys)
    ensures PresentCount(Values(m, order)) == |NonNullKeys(m)| <= |m|
  {
    PresentCountOfValues(m, order);
    assert NonNullAmong(m, order) == NonNullKeys(m);
    EnumerationLength(order, m.Keys);
  }
}
