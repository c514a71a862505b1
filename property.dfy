/**
  The dirty-tracking container `Property<T>` of the REST client. It keeps a
  live value and the baseline captured at construction or at the last
  `SetValueAsInitial()`, and reports whether the live value has diverged from
  that baseline.

  The C# class is one generic type whose comparison depends on `T`; here each
  category of `T` gets its own class: `Property<T>` for value types (numbers,
  strings), `ListProperty<E>` for a nullable `List<E>` and
  `DictionaryProperty<K, V>` for a nullable `Dictionary<K, V>`.
 */
module Properties {
  import opened Wrappers
  import Comparison

  /** The exceptions an in-place edit of the held container raises. */
  datatype Fault = NullReference | ArgumentOutOfRange

  /** A property over a value type, compared by value equality. */
  class Property<T(==)> {
    var initialValue: T
    var value: T

    ghost predicate Changed()
      reads this
    {
      Comparison.ValueChanged(initialValue, value)
    }

    /** `zero` is `default(T)`: 0 for `int`, null for `string`. */
    constructor (zero: T)
      ensures initialValue == zero && value == zero
      ensures !Changed()
    {
      initialValue := zero;
      value := zero;
    }

    /** The `Value` setter: replaces the live value and leaves the baseline alone. */
    method SetValue(v: T)
      modifies this
      ensures value == v && initialValue == old(initialValue)
      ensures Changed() <==> v != old(initialValue)
    {
      value := v;
    }

    /** Re-baselines: the live value becomes the new initial value. */
    method SetValueAsInitial()
      modifies this
      ensures initialValue == old(value) && value == old(value)
      ensures !Changed()
    {
      initialValue := value;
    }

    method HasChanged() returns (changed: bool)
      ensures changed == Changed()
    {
      changed := initialValue != value;
    }
  }

  /** A property over a nullable list, compared by position and contents. */
  class ListProperty<E(==)> {
    var initialValue: Option<seq<E>>
    var value: Option<seq<E>>

    ghost predicate Changed()
      reads this
    {
      Comparison.ContainerChanged(initialValue, value, [])
    }

    /** Both the baseline and the live value start out null. */
    constructor ()
      ensures initialValue == None && value == None
      ensures !Changed()
    {
      initialValue := None;
      value := None;
    }

    /** The `Value` setter: replaces the live list and leaves the baseline alone. */
    method SetValue(v: Option<seq<E>>)
      modifies this
      ensures value == v && initialValue == old(initialValue)
    {
      value := v;
    }

    /**
      Re-baselines: the baseline becomes a snapshot of the live list, so a
      later in-place edit of the live list does not reach it.
     */
    method SetValueAsInitial()
      modifies this
      ensures initialValue == old(value) && value == old(value)
      ensures !Changed()
    {
      initialValue := value;
    }

    /**
      `Value[i] = x`: overwrites one element of the live list in place. A null
      list raises a null-reference fault and an index outside the list an
      out-of-range fault; neither changes anything.
     */
    method SetElement(i: int, x: E) returns (fault: Option<Fault>)
      modifies this
      ensures initialValue == old(initialValue)
      ensures old(value).None? ==> fault == Some(NullReference) && value == old(value)
      ensures old(value).Some? && !(0 <= i < |old(value).value|) ==>
        fault == Some(ArgumentOutOfRange) && value == old(value)
      ensures old(value).Some? && 0 <= i < |old(value).value| ==>
        fault == None && value == Some(old(value).value[i := x])
    {
      match value
      case None =>
        fault := Some(NullReference);
      case Some(s) =>
        if 0 <= i < |s| {
          value := Some(s[i := x]);
          fault := None;
        } else {
          fault := Some(ArgumentOutOfRange);
        }
    }

    method HasChanged() returns (changed: bool)
      ensures changed == Changed()
    {
      match initialValue
      case None =>
        changed := value.Some?;
      case Some(baseline) =>
        match value
        case None =>
          changed := |baseline| != 0;
        case Some(live) =>
          var same := Comparison.SameElements(baseline, live);
          changed := !same;
    }
  }

  /** A property over a nullable dictionary, compared entry by entry. */
  class DictionaryProperty<K(==), V(==)> {
    var initialValue: Option<map<K, V>>
    var value: Option<map<K, V>>

    ghost predicate Changed()
      reads this
    {
      Comparison.ContainerChanged(initialValue, value, map[])
    }

    /** Both the baseline and the live value start out null. */
    constructor ()
      ensures initialValue == None && value == None
      ensures !Changed()
    {
      initialValue := None;
      value := None;
    }

    /** The `Value` setter: replaces the live dictionary and leaves the baseline alone. */
    method SetValue(v: Option<map<K, V>>)
      modifies this
      ensures value == v && initialValue == old(initialValue)
    {
      value := v;
    }

    /**
      Re-baselines: the baseline becomes a snapshot of the live dictionary, so
      a later in-place edit of the live dictionary does not reach it.
     */
    method SetValueAsInitial()
      modifies this
      ensures initialValue == old(value) && value == old(value)
      ensures !Changed()
    {
      initialValue := value;
    }

    /**
      `Value[k] = v`: adds the entry, or replaces the value of an existing key,
      in the live dictionary. A null dictionary raises a null-reference fault
      and changes nothing.
     */
    method SetEntry(k: K, v: V) returns (fault: Option<Fault>)
      modifies this
      ensures initialValue == old(initialValue)
      ensures old(value).None? ==> fault == Some(NullReference) && value == old(value)
      ensures old(value).Some? ==> fault == None && value == Some(old(value).value[k := v])
    {
      match value
      case None =>
        fault := Some(NullReference);
      case Some(m) =>
        value := Some(m[k := v]);
        fault := None;
    }

    method HasChanged() returns (changed: bool)
      ensures changed == Changed()
    {
      match initialValue
      case None =>
        changed := value.Some?;
      case Some(baseline) =>
        match value
        case None =>
          changed := |baseline| != 0;
        case Some(live) =>
          var same := Comparison.SameEntries(baseline, live);
          changed := !same;
    }
  }
}
