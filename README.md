# Property&lt;T&gt;: dirty tracking for REST resource fields

This project models `Property<T>` from the `Magento.RestApi.Core` namespace of a
C# REST client for the Magento e-commerce platform. A `Property<T>` wraps one
field of a resource. It holds a live `Value` and a baseline `InitialValue`.
`SetValueAsInitial()` copies the live value into the baseline, for example after
the client has stored the field remotely. `HasChanged()` says whether the live
value has moved away from the baseline, so that an update request carries only
the changed fields.

The implementation file of `Property<T>` is not part of this model. Its
behaviour is taken from the repository's unit tests
(`Magento.RestApi.UnitTests/Core/PropertyTests.cs`), and every test there is
restated and proved here.

Files:

- `wrappers.dfy`: `Option`, where `None` stands for a C# `null` reference.
- `comparison.dfy`: module `Comparison`. It holds the two comparison rules
  (`ValueChanged` for value types, `ContainerChanged` for lists and dictionaries)
  and lemmas about them. It also holds `SameElements` and `SameEntries`, the
  structural comparison of lists and dictionaries (count first, then contents),
  each proved to agree with equality of values.
- `property.dfy`: module `Properties`. There is one class per category of `T`:
  - `Property<T>` for `int` and `string`;
  - `ListProperty<E>` for a nullable `List<E>`;
  - `DictionaryProperty<K, V>` for a nullable `Dictionary<K, V>`.

  Each class has the fields `initialValue` and `value`, and the methods
  `SetValue` (the `Value` setter), `SetValueAsInitial` and `HasChanged`. The
  container classes add `SetElement` (`Value[i] = x`) or `SetEntry`
  (`Value[k] = v`), the in-place edits the tests make.
- `property_tests.dfy`: module `PropertyTests`. It holds one method for each
  test. The method runs the test's steps and returns what the test inspects.
  Its postcondition is the test's assertions.

The container rule. Plain equality of the optional values cannot pass every
test. A null baseline with an empty current list or dictionary must count as a
change (`PropertyTests.cs:94-106`, `:198-210`). An empty committed dictionary
with a null current value must not (`:229-241`). `ContainerChanged` therefore
works as follows:

- a null baseline differs from every present container;
- a null current value over a present baseline reads as an empty container;
- two present containers are compared by contents.

The rule is not symmetric (`ContainerRuleIsNotSymmetric`). It differs from value
equality only in the pinned edge case (`ContainerRuleVersusValueEquality`). No
test pins a null current value over a non-empty committed container, and this
rule reports that as a change. The rule is applied to lists as well as
dictionaries, although only a dictionary test pins the null-over-empty case.

## Model

| member | source | states |
|---|---|---|
| `Comparison.CommitIsUnchanged` | Magento.RestApi.UnitTests/Core/PropertyTests.cs:109-122 | a baseline equal to the live value (what a commit produces) is never reported as changed, null included |
| `Comparison.NullBaselineDiffersFromEveryContainer` | Magento.RestApi.UnitTests/Core/PropertyTests.cs:94-106 | with a null baseline, any present container, the empty one included, is a change |
| `Comparison.ContainerRuleVersusValueEquality` | Magento.RestApi.UnitTests/Core/PropertyTests.cs:229-241 | the container rule and value equality disagree exactly when the baseline is the empty container and the current value is null (both directions) |
| `Comparison.ContainerRuleIsNotSymmetric` | Magento.RestApi.UnitTests/Core/PropertyTests.cs:198-241 | there are two states whose change verdict flips when baseline and current value are swapped |
| `Comparison.ElementUpdateIsChange` | Magento.RestApi.UnitTests/Core/PropertyTests.cs:176-192 | overwriting one position of a committed list with a different element is a change |
| `Comparison.EntryUpdateIsChange` | Magento.RestApi.UnitTests/Core/PropertyTests.cs:295-309 | giving a key of a committed dictionary a different value is a change |
| `Comparison.KeySetDifferenceIsChange` | Magento.RestApi.UnitTests/Core/PropertyTests.cs:277-292 | a dictionary whose key set differs from the committed one is a change, even with the same count |
| `Comparison.SameElements` | Magento.RestApi.UnitTests/Core/PropertyTests.cs:141-173 | comparing counts, then elements position by position, gives true exactly when the two lists are equal as values |
| `Comparison.SameEntries` | Magento.RestApi.UnitTests/Core/PropertyTests.cs:260-292 | comparing counts, then each key and its value, gives true exactly when the two dictionaries are equal as values |
| `Properties.Property.constructor` | Magento.RestApi.UnitTests/Core/PropertyTests.cs:10-37 | a new property has `default(T)` as both baseline and live value and is unchanged |
| `Properties.Property.SetValue` | Magento.RestApi.UnitTests/Core/PropertyTests.cs:43-55 | assigning `Value` replaces the live value, keeps the baseline, and the property is changed exactly when the new value differs from the baseline |
| `Properties.Property.SetValueAsInitial` | Magento.RestApi.UnitTests/Core/PropertyTests.cs:58-71 | the baseline becomes the live value, the live value stays, and the property is unchanged |
| `Properties.Property.HasChanged` | Magento.RestApi.UnitTests/Core/PropertyTests.cs:74-88 | the verdict is the value-equality rule applied to baseline and live value |
| `Properties.ListProperty.constructor` | Magento.RestApi.UnitTests/Core/PropertyTests.cs:97-104 | a new list property holds null as baseline and live value and is unchanged |
| `Properties.ListProperty.SetValue` | Magento.RestApi.UnitTests/Core/PropertyTests.cs:124-139 | assigning `Value` replaces the live list and keeps the baseline |
| `Properties.ListProperty.SetValueAsInitial` | Magento.RestApi.UnitTests/Core/PropertyTests.cs:108-122 | the baseline becomes a snapshot of the live list, the live list stays, and the property is unchanged |
| `Properties.ListProperty.SetElement` | Magento.RestApi.UnitTests/Core/PropertyTests.cs:175-192 | `Value[i] = x` replaces position `i` of the live list only; the baseline is untouched; a null list or an index outside it is a fault that changes nothing |
| `Properties.ListProperty.HasChanged` | Magento.RestApi.UnitTests/Core/PropertyTests.cs:91-192 | the verdict, computed with `SameElements`, is the container rule applied to baseline and live list |
| `Properties.DictionaryProperty.constructor` | Magento.RestApi.UnitTests/Core/PropertyTests.cs:201-208 | a new dictionary property holds null as baseline and live value and is unchanged |
| `Properties.DictionaryProperty.SetValue` | Magento.RestApi.UnitTests/Core/PropertyTests.cs:243-258 | assigning `Value` replaces the live dictionary and keeps the baseline |
| `Properties.DictionaryProperty.SetValueAsInitial` | Magento.RestApi.UnitTests/Core/PropertyTests.cs:212-226 | the baseline becomes a snapshot of the live dictionary, the live dictionary stays, and the property is unchanged |
| `Properties.DictionaryProperty.SetEntry` | Magento.RestApi.UnitTests/Core/PropertyTests.cs:294-309 | `Value[k] = v` adds or replaces the entry for `k` in the live dictionary only; the baseline is untouched; a null dictionary is a fault that changes nothing |
| `Properties.DictionaryProperty.HasChanged` | Magento.RestApi.UnitTests/Core/PropertyTests.cs:195-309 | the verdict, computed with `SameEntries`, is the container rule applied to baseline and live dictionary |
| `PropertyTests.ForIntShouldHaveDefaults` | Magento.RestApi.UnitTests/Core/PropertyTests.cs:10-22 | a new int property has baseline 0, value 0 and is unchanged |
| `PropertyTests.ForStringShouldHaveDefaults` | Magento.RestApi.UnitTests/Core/PropertyTests.cs:25-37 | a new string property has baseline null, value null and is unchanged |
| `PropertyTests.IntHasChangedShouldBeTrue` | Magento.RestApi.UnitTests/Core/PropertyTests.cs:43-55 | after `Value = 1` the property is changed, the baseline is 0 and the value 1 |
| `PropertyTests.IntHasChangedShouldBeFalseAfterInitialValueIsSet` | Magento.RestApi.UnitTests/Core/PropertyTests.cs:58-71 | after `Value = 1` and a commit the property is unchanged with baseline and value 1 |
| `PropertyTests.IntHasChangedShouldBeTrueAfterInitialValueIsSetAndChanged` | Magento.RestApi.UnitTests/Core/PropertyTests.cs:74-88 | after committing 1 and assigning 2 the property is changed, baseline 1, value 2 |
| `PropertyTests.ListHasChangedShouldBeTrue` | Magento.RestApi.UnitTests/Core/PropertyTests.cs:94-106 | assigning an empty list over the null baseline is a change; the baseline stays null and the value is empty |
| `PropertyTests.ListHasChangedShouldBeFalseAfterInitialValueIsSet` | Magento.RestApi.UnitTests/Core/PropertyTests.cs:109-122 | after committing an empty list the property is unchanged and both lists are empty |
| `PropertyTests.ListHasChangedShouldBeTrueAfterInitialValueIsSetAndChanged` | Magento.RestApi.UnitTests/Core/PropertyTests.cs:125-139 | committing an empty list and assigning `{1}` is a change, with counts 0 and 1 |
| `PropertyTests.ListHasChangedShouldBeFalseAfterInitialValueIsSetAndSameItemIsAdded` | Magento.RestApi.UnitTests/Core/PropertyTests.cs:142-156 | committing `{1}` and assigning a new `{1}` is no change, with counts 1 and 1 |
| `PropertyTests.ListHasChangedShouldBeTrueAfterInitialValueIsSetAndOtherItemIsAdded` | Magento.RestApi.UnitTests/Core/PropertyTests.cs:159-173 | committing `{1}` and assigning `{2}` is a change, with counts 1 and 1 |
| `PropertyTests.ListHasChangedShouldBeTrueAfterInitialValueIsSetAndItemIsChanged` | Magento.RestApi.UnitTests/Core/PropertyTests.cs:176-192 | committing `{1}` and setting `Value[0] = 2` is a change; the baseline still holds 1 and the value holds 2 |
| `PropertyTests.DictionaryHasChangedShouldBeTrue` | Magento.RestApi.UnitTests/Core/PropertyTests.cs:198-210 | assigning an empty dictionary over the null baseline is a change; the baseline stays null and the value is empty |
| `PropertyTests.DictionaryHasChangedShouldBeFalseAfterInitialValueIsSet` | Magento.RestApi.UnitTests/Core/PropertyTests.cs:213-226 | after committing an empty dictionary the property is unchanged and both dictionaries are empty |
| `PropertyTests.DictionaryHasChangedShouldBeFalseAfterSetToNull` | Magento.RestApi.UnitTests/Core/PropertyTests.cs:229-241 | committing an empty dictionary and then assigning null is no change |
| `PropertyTests.DictionaryHasChangedShouldBeTrueAfterInitialValueIsSetAndChanged` | Magento.RestApi.UnitTests/Core/PropertyTests.cs:244-258 | committing an empty dictionary and assigning `{key: value}` is a change, with counts 0 and 1 |
| `PropertyTests.DictionaryHasChangedShouldBeFalseAfterInitialValueIsSetAndSameItemIsAdded` | Magento.RestApi.UnitTests/Core/PropertyTests.cs:261-275 | committing `{key: value}` and assigning a new `{key: value}` is no change, with counts 1 and 1 |
| `PropertyTests.DictionaryHasChangedShouldBeTrueAfterInitialValueIsSetAndOtherItemIsAdded` | Magento.RestApi.UnitTests/Core/PropertyTests.cs:278-292 | committing `{key: value}` and assigning `{another_key: value}` is a change, with counts 1 and 1 |
| `PropertyTests.DictionaryHasChangedShouldBeTrueAfterInitialValueIsSetAndItemIsChanged` | Magento.RestApi.UnitTests/Core/PropertyTests.cs:295-309 | committing `{key: value}` and setting `Value["key"] = "another_value"` is a change, with counts 1 and 1 |

## Left out

- The xUnit framework: the `[Fact]` attributes and `Assert` calls become methods whose postconditions are the assertions.
- The rest of the library (HTTP client, resource models, authentication, JSON serialisation): this model covers only `Property<T>`.
- `default(T)` and `EqualityComparer<T>`: C# picks the default and the comparison from the type at run time. Here the generic `Property<T>` constructor takes `default(T)` as an argument, and the comparison rule is fixed per class.
- Reference aliasing: lists and dictionaries are values here. Two properties sharing one `List` instance, or an edit through a reference to `Value` obtained earlier, are not modelled. The only edits through `Value` that are modelled are `SetElement` and `SetEntry`.
- A null current value over a non-empty committed list or dictionary: no test covers it; the rule chosen here reports a change.
- Other members of `List` and `Dictionary` (`Add`, `Remove`, `Clear`, ...): the tests only build containers whole or use the indexer setter.
