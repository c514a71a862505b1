/**
  The unit tests of `Property<T>`, one method per test. Each method runs the
  test's steps and returns what the test inspects; its postcondition states
  the test's assertions, so verifying the method proves that every input
  passes them.
 */
module PropertyTests {
  import opened Wrappers
  import opened Properties
  import Comparison

  // When constructing an int property

  method ForIntShouldHaveDefaults() returns (initialValue: int, value: int, changed: bool)
    ensures initialValue == 0 && value == 0
    ensures !changed
  {
    var property := new Property<int>(0);
    initialValue, value := property.initialValue, property.value;
    changed := property.HasChanged();
  }

  method ForStringShouldHaveDefaults() returns (initialValue: Option<string>, value: Option<string>, changed: bool)
    ensures initialValue == None && value == None
    ensures !changed
  {
    var property := new Property<Option<string>>(None);
    initialValue, value := property.initialValue, property.value;
    changed := property.HasChanged();
  }

  // When changing the value of an int property

  method IntHasChangedShouldBeTrue() returns (changed: bool, initialValue: int, value: int)
    ensures changed
    ensures initialValue == 0 && value == 1
  {
    var property := new Property<int>(0);
    property.SetValue(1);
    changed := property.HasChanged();
    initialValue, value := property.initialValue, property.value;
  }

  method IntHasChangedShouldBeFalseAfterInitialValueIsSet() returns (changed: bool, initialValue: int, value: int)
    ensures !changed
    ensures initialValue == 1 && value == 1
  {
    var property := new Property<int>(0);
    property.SetValue(1);
    property.SetValueAsInitial();
    changed := property.HasChanged();
    initialValue, value := property.initialValue, property.value;
  }

  method IntHasChangedShouldBeTrueAfterInitialValueIsSetAndChanged() returns (changed: bool, initialValue: int, value: int)
    ensures changed
    ensures initialValue == 1 && value == 2
  {
    var property := new Property<int>(0);
    property.SetValue(1);
    property.SetValueAsInitial();
    property.SetValue(2);
    changed := property.HasChanged();
    initialValue, value := property.initialValue, property.value;
  }

  // When changing the value of a list property

  method ListHasChangedShouldBeTrue() returns (changed: bool, initialValue: Option<seq<int>>, value: Option<seq<int>>)
    ensures changed
    ensures initialValue == None
    ensures value.Some? && |value.value| == 0
  {
    var property := new ListProperty<int>();
    property.SetValue(Some([]));
    changed := property.HasChanged();
    initialValue, value := property.initialValue, property.value;
  }

  method ListHasChangedShouldBeFalseAfterInitialValueIsSet() returns (changed: bool, initialValue: Option<seq<int>>, value: Option<seq<int>>)
    ensures !changed
    ensures initialValue.Some? && |initialValue.value| == 0
    ensures value.Some? && |value.value| == 0
  {
    var property := new ListProperty<int>();
    property.SetValue(Some([]));
    property.SetValueAsInitial();
    changed := property.HasChanged();
    initialValue, value := property.initialValue, property.value;
  }

  method ListHasChangedShouldBeTrueAfterInitialValueIsSetAndChanged() returns (changed: bool, initialValue: Option<seq<int>>, value: Option<seq<int>>)
    ensures changed
    ensures initialValue.Some? && |initialValue.value| == 0
    ensures value.Some? && |value.value| == 1
  {
    var property := new ListProperty<int>();
    property.SetValue(Some([]));
    property.SetValueAsInitial();
    property.SetValue(Some([1]));
    changed := property.HasChanged();
    initialValue, value := property.initialValue, property.value;
  }

  method ListHasChangedShouldBeFalseAfterInitialValueIsSetAndSameItemIsAdded() returns (changed: bool, initialValue: Option<seq<int>>, value: Option<seq<int>>)
    ensures !changed
    ensures initialValue.Some? && |initialValue.value| == 1
    ensures value.Some? && |value.value| == 1
  {
    var property := new ListProperty<int>();
    property.SetValue(Some([1]));
    property.SetValueAsInitial();
    property.SetValue(Some([1]));
    changed := property.HasChanged();
    initialValue, value := property.initialValue, property.value;
  }

  method ListHasChangedShouldBeTrueAfterInitialValueIsSetAndOtherItemIsAdded() returns (changed: bool, initialValue: Option<seq<int>>, value: Option<seq<int>>)
    ensures changed
    ensures initialValue.Some? && |initialValue.value| == 1
    ensures value.Some? && |value.value| == 1
  {
    var property := new ListProperty<int>();
    property.SetValue(Some([1]));
    property.SetValueAsInitial();
    property.SetValue(Some([2]));
    changed := property.HasChanged();
    initialValue, value := property.initialValue, property.value;
  }

  method ListHasChangedShouldBeTrueAfterInitialValueIsSetAndItemIsChanged() returns (changed: bool, initialValue: Option<seq<int>>, value: Option<seq<int>>)
    ensures changed
    ensures initialValue.Some? && |initialValue.value| == 1 && initialValue.value[0] == 1
    ensures value.Some? && |value.value| == 1 && value.value[0] == 2
  {
    var property := new ListProperty<int>();
    property.SetValue(Some([1]));
    property.SetValueAsInitial();
    var fault := property.SetElement(0, 2);
    Comparison.ElementUpdateIsChange([1], 0, 2);
    changed := property.HasChanged();
    initialValue, value := property.initialValue, property.value;
  }

  // When changing the value of a dictionary property

  method DictionaryHasChangedShouldBeTrue() returns (changed: bool, initialValue: Option<map<string, string>>, value: Option<map<string, string>>)
    ensures changed
    ensures initialValue == None
    ensures value.Some? && |value.value| == 0
  {
    var property := new DictionaryProperty<string, string>();
    property.SetValue(Some(map[]));
    changed := property.HasChanged();
    initialValue, value := property.initialValue, property.value;
  }

  method DictionaryHasChangedShouldBeFalseAfterInitialValueIsSet() returns (changed: bool, initialValue: Option<map<string, string>>, value: Option<map<string, string>>)
    ensures !changed
    ensures initialValue.Some? && |initialValue.value| == 0
    ensures value.Some? && |value.value| == 0
  {
    var property := new DictionaryProperty<string, string>();
    property.SetValue(Some(map[]));
    property.SetValueAsInitial();
    changed := property.HasChanged();
    initialValue, value := property.initialValue, property.value;
  }

  method DictionaryHasChangedShouldBeFalseAfterSetToNull() returns (changed: bool)
    ensures !changed
  {
    var property := new DictionaryProperty<string, string>();
    property.SetValue(Some(map[]));
    property.SetValueAsInitial();
    property.SetValue(None);
    changed := property.HasChanged();
  }

  method DictionaryHasChangedShouldBeTrueAfterInitialValueIsSetAndChanged() returns (changed: bool, initialValue: Option<map<string, string>>, value: Option<map<string, string>>)
    ensures changed
    ensures initialValue.Some? && |initialValue.value| == 0
    ensures value.Some? && |value.value| == 1
  {
    var property := new DictionaryProperty<string, string>();
    property.SetValue(Some(map[]));
    property.SetValueAsInitial();
    property.SetValue(Some(map["key" := "value"]));
    Comparison.KeySetDifferenceIsChange(map[], map["key" := "value"], "key");
    changed := property.HasChanged();
    initialValue, value := property.initialValue, property.value;
  }

  method DictionaryHasChangedShouldBeFalseAfterInitialValueIsSetAndSameItemIsAdded() returns (changed: bool, initialValue: Option<map<string, string>>, value: Option<map<string, string>>)
    ensures !changed
    ensures initialValue.Some? && |initialValue.value| == 1
    ensures value.Some? && |value.value| == 1
  {
    var property := new DictionaryProperty<string, string>();
    property.SetValue(Some(map["key" := "value"]));
    property.SetValueAsInitial();
    property.SetValue(Some(map["key" := "value"]));
    changed := property.HasChanged();
    initialValue, value := property.initialValue, property.value;
  }

  method DictionaryHasChangedShouldBeTrueAfterInitialValueIsSetAndOtherItemIsAdded() returns (changed: bool, initialValue: Option<map<string, string>>, value: Option<map<string, string>>)
    ensures changed
    ensures initialValue.Some? && |initialValue.value| == 1
    ensures value.Some? && |value.value| == 1
  {
    var property := new DictionaryProperty<string, string>();
    property.SetValue(Some(map["key" := "value"]));
    property.SetValueAsInitial();
    property.SetValue(Some(map["another_key" := "value"]));
    Comparison.KeySetDifferenceIsChange(map["key" := "value"], map["another_key" := "value"], "key");
    changed := property.HasChanged();
    initialValue, value := property.initialValue, property.value;
  }

  method DictionaryHasChangedShouldBeTrueAfterInitialValueIsSetAndItemIsChanged() returns (changed: bool, initialValue: Option<map<string, string>>, value: Option<map<string, string>>)
    ensures changed
    ensures initialValue.Some? && |initialValue.value| == 1
    ensures value.Some? && |value.value| == 1
  {
    var property := new DictionaryProperty<string, string>();
    property.SetValue(Some(map["key" := "value"]));
    property.SetValueAsInitial();
    var fault := property.SetEntry("key", "another_value");
    Comparison.EntryUpdateIsChange(map["key" := "value"], "key", "another_value");
    changed := property.HasChanged();
    initialValue, value := property.initialValue, property.value;
  }
}
