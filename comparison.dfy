/**
  The two change-detection rules a Property uses, and the structural
  comparison of lists and dictionaries that the container rule relies on.
 */
module Comparison {
  import opened Wrappers

  /** Value types (numbers, strings): changed exactly when the two values differ. */
  predicate ValueChanged<T(==)>(initial: T, current: T)
  {
    initial != current
  }

  /**
    Lists and dictionaries, possibly null. A null baseline differs from every
    present container, the empty one included; a null current value over a
    present baseline reads as an empty container; two present containers are
    compared by contents, never by identity.
   */
  predicate ContainerChanged<C(==)>(initial: Option<C>, current: Option<C>, empty: C)
  {
    match initial
    case None => current.Some?
    case Some(baseline) =>
      match current
      case None => baseline != empty
      case Some(live) => baseline != live
  }

  /** A committed value is never reported as changed. */
  lemma CommitIsUnchanged<C>(x: Option<C>, empty: C)
    ensures !ContainerChanged(x, x, empty)
  {
  }

  /** Null and a present (even empty) container are distinct when the baseline is null. */
  lemma NullBaselineDiffersFromEveryContainer<C>(live: C, empty: C)
    ensures ContainerChanged(None, Some(live), empty)
  {
  }

  /**
    The container rule agrees with value equality everywhere except one pair
    of states: a committed empty container with a null current value.
   */
  lemma ContainerRuleVersusValueEquality<C>(initial: Option<C>, current: Option<C>, empty: C)
    ensures ContainerChanged(initial, current, empty) != ValueChanged(initial, current)
        <==> initial == Some(empty) && current == None
  {
  }

  /** The container rule is not symmetric in its two arguments. */
  lemma ContainerRuleIsNotSymmetric<C>(empty: C)
    ensures exists initial: Option<C>, current: Option<C> ::
      ContainerChanged(initial, current, empty) && !ContainerChanged(current, initial, empty)
  {
    assert ContainerChanged(None, Some(empty), empty);
    assert !ContainerChanged(Some(empty), None, empty);
  }

  /** Overwriting one element of a committed list with a different element is a change. */
  lemma ElementUpdateIsChange<E>(s: seq<E>, i: nat, x: E)
    requires i < |s| && s[i] != x
    ensures ContainerChanged(Some(s), Some(s[i := x]), [])
  {
  }

  /** Overwriting the value of a committed dictionary entry with a different value is a change. */
  lemma EntryUpdateIsChange<K, V>(m: map<K, V>, k: K, v: V)
    requires k in m && m[k] != v
    ensures ContainerChanged(Some(m), Some(m[k := v]), map[])
  {
  }

  /**
    Committing a dictionary and then assigning one whose key set differs (a key
    `k` held by one and not the other) is a change, whatever the counts.
   */
  lemma KeySetDifferenceIsChange<K, V>(committed: map<K, V>, live: map<K, V>, k: K)
    requires (k in committed) != (k in live)
    ensures ContainerChanged(Some(committed), Some(live), map[])
  {
  }

  /**
    Positional comparison of two lists: the counts first, then the elements
    one at a time. Two lists are the same exactly when they are equal as values.
   */
  method SameElements<E(==)>(a: seq<E>, b: seq<E>) returns (same: bool)
    ensures same <==> a == b
  {
    if |a| != |b| {
      return false;
    }
    var i := 0;
    while i < |a|
      invariant 0 <= i <= |a|
      invariant forall j :: 0 <= j < i ==> a[j] == b[j]
    {
      if a[i] != b[i] {
        return false;
      }
      i := i + 1;
    }
    return true;
  }

  /**
    Entry-wise comparison of two dictionaries: the counts first, then, for each
    key of the first, that the second holds the key with the same value.
    Two dictionaries are the same exactly when they are equal as values.
   */
  method SameEntries<K(==), V(==)>(a: map<K, V>, b: map<K, V>) returns (same: bool)
    ensures same <==> a == b
  {
    if |a| != |b| {
      return false;
    }
    var pending := a.Keys;
    while pending != {}
      invariant pending <= a.Keys
      invariant forall k :: k in a && k !in pending ==> k in b && b[k] == a[k]
      decreases pending
    {
      var k :| k in pending;
      if k !in b || b[k] != a[k] {
        return false;
      }
      pending := pending - {k};
    }
    SubsetOfSameSize(a.Keys, b.Keys);
    return true;
  }

  /** A subset as large as its superset is the whole superset. */
  lemma SubsetOfSameSize<K>(s: set<K>, t: set<K>)
    requires s <= t && |s| == |t|
    ensures s == t
  {
    assert t * s == s;
    assert |t - s| == |t| - |t * s|;
    assert t - s == {};
  }
}
