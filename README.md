# XMapper in Dafny

XMapper copies the properties of one object onto another object by name.
`XMapper<TSource, TTarget>` is configured with a basis, `PropertyList.Source`
or `PropertyList.Target`, which chooses whose property list drives the copy.
The list of the chosen type is the mapper's catalog.

The mapper is configured in three ways:
- `IgnoreSourceProperty` and `IgnoreTargetProperty` remove entries from the catalog.
- `IncludeAction` registers callbacks, which run after the automatic copy.
- `Map(source, target)` copies into an existing target.
- `Map(source)` copies into a freshly constructed one.

Modules:

- `Types` (types.dfy): the types a mapper works between and the values it copies.
  - A type is a name, its member descriptors in the order `GetProperties` returns them, and the object its parameterless constructor builds.
  - A descriptor is a name, a type name, a kind and a nullability write state. The kinds are value type, `Nullable<T>` and reference type.
  - An object is a map from member name to a possibly-null value.
  - `Lookup` stands in for `Type.GetProperty`.
  - `RejectsNull` is the null test of `MapPropertyValue`: a non-nullable value type, or any write state other than Nullable.
- `Catalog` (catalog.dfy): `RemoveFirst`, the `List.Remove` that ignoring a member performs on the catalog, and what it does to order, length and names.
- `Executor` (executor.dfy): what one `Map` call does, as functions of the mapper's configuration and the two objects.
  - the two null-argument checks;
  - `MapPropertyValue`;
  - one iteration of `SourceListMap` / `TargetListMap` (`CopyMember`), and the whole loop (`CopyAll`);
  - the action pipeline (`RunActions`);
  - `Execute`.

  Actions are a small datatype of sample callbacks:
  - an assignment;
  - "fill if null";
  - the nested-mapper idiom the tests use for reference-type members, which carries the sub-mapper's configuration.
- `Properties` (properties.dfy): what a `Map` call promises, stated independently of the loops.
  - The first catalog member that cannot be copied is the one reported, with its message.
  - The members before it are already written: there is no rollback.
  - Target members outside the catalog are never written.
  - Mapping twice is mapping once.
  - Actions run after a successful copy, in registration order.
  - The nested-mapper action propagates null, and reuses or creates the target instance.
- `Mapper` (mapper.dfy): the class `XMapper`.
  - It has the constant basis and the two types, and the mutable catalog (`_propertyInfos`) and action list (`_includeActions`).
  - The ignore methods and `IncludeAction` update those fields in place.
  - `SourceListMap` and `TargetListMap` are loops over the catalog. `Map` runs one of them and then loops over the actions.
  - Each loop is proved equal to the corresponding `Executor` function, so the properties proved there hold for the class.
- `Scenarios` (scenarios.dfy): concrete mappings from the repository's tests, worked out against the model.
  - the exact not-found messages;
  - the non-nullable failure on either basis;
  - the refusals on the wrong basis;
  - the catalogs left after four ignores;
  - the custom-action test's mapper, which fails before its action runs.

How the model represents the source:
- **Failures.** An exception is `Failure.Thrown(message)`, carrying the library's exact message text. The runtime's conversion error in `SetValue` is `Failure.Conversion(valueType, memberType)`.
- **`Map(source, target)`.** It updates the target in place. The model returns the target's state after the call together with the failure, if any. On a failure that state keeps every write made before the failure.
- **Null arguments.** A null argument is `None`.

## Model

| member | source | states |
|---|---|---|
| Types.Lookup | XMapper/XMapper.cs:118 | `GetProperty(name)`: the result, when there is one, is a member of the type with that name; there is none exactly when no member has that name |
| Executor.MapPropertyValue | XMapper/XMapper.cs:133-143 | Succeeds exactly when the source value may be stored in the destination member: a null only where the member accepts null, anything else only when its type matches. On success the destination member holds exactly the source value and no other member changes. On failure the target is unchanged. A null for a member that rejects null gives "'S.p' was null, but 'T.q' is not nullable." |
| Executor.Execute | XMapper/XMapper.cs:90-111 | The target of a `Map` call is present afterwards exactly when it was passed in |
| Catalog.RemoveFirstFound | XMapper/XMapper.cs:49 | Ignoring a member in the catalog removes exactly the entry at its first position and keeps the entries before and after it in order |
| Catalog.RemoveFirstAt | XMapper/XMapper.cs:62 | The entry at position i is the one removed when no earlier entry has its name |
| Catalog.RemoveFirstAbsent | XMapper/XMapper.cs:49 | Ignoring a member that is not in the catalog, for example one already ignored, leaves the catalog unchanged |
| Catalog.RemoveFirstShrinks | XMapper/XMapper.cs:62 | Ignoring never adds an entry; the catalog loses one entry exactly when the name was in it, and none otherwise |
| Catalog.RemoveFirstUnique | XMapper/XMapper.cs:35-37 | With unique member names, as a type's property list has, ignoring keeps the names unique and removes exactly that name from the catalog's names |
| Catalog.RemoveFirstTwice | XMapper/XMapper.cs:49 | Ignoring the same member twice is ignoring it once |
| Catalog.RemoveFirstCommutes | XMapper/XMapper.cs:62 | The order of two ignore calls does not matter to the resulting catalog |
| Properties.FirstFailing | XMapper/XMapper.cs:116-120 | The position of the first catalog member that cannot be copied: every member before it can be copied, and the one at it cannot |
| Properties.Overlay | XMapper/XMapper.cs:142 | The reference result of copying the named members: they hold the source's values, every other member keeps the target's value, and the members gained are exactly the named ones |
| Properties.CopyMemberSpec | XMapper/XMapper.cs:116-120 | One iteration of the copy loop, under either basis: it either fails as `MemberFailure` says (counterpart not found on the named side, null into a non-nullable member, type mismatch) and leaves the target untouched, or it writes the source's value into the target member of the same name |
| Properties.CopyAllSpec | XMapper/XMapper.cs:113-131 | The whole copy loop: the members before the first failing one are copied, with nothing rolled back, and that member's failure is reported. When no member fails, every catalog member is copied. Members outside the catalog are never written |
| Properties.CopyAllIdempotent | XMapper/XMapper.cs:113-131 | Running the copy again on its own result changes nothing, on success and on failure alike |
| Properties.CopyAllKeepsShape | XMapper/XMapper.cs:142 | An object of the target type still holds exactly the target type's members after the copy |
| Properties.ExecuteSpec | XMapper/XMapper.cs:101-110 | With both arguments present, `Map` is the copy as `CopyAllSpec` describes it. On a copy failure no action runs. Otherwise the actions run on the copied target |
| Properties.ExecuteIdempotent | XMapper/XMapper.cs:90-111 | Without actions, mapping the same source into the result of a `Map` call changes nothing, whatever the arguments |
| Properties.RunActionsAppend | XMapper/XMapper.cs:110 | Running two action lists one after the other is running their concatenation; a failing action stops the rest |
| Properties.ExecuteAfterInclude | XMapper/XMapper.cs:73 | Registering one more action makes `Map` do what it did before and then, only if that succeeded, run the new action on the result |
| Properties.AssignOverridesCopy | XMapper.Tests/IncludeCustomActionTests.cs:14-28 | An action registered after a successful copy overrides what the copy wrote |
| Properties.FillIfNullAfterCopy | XMapper.Tests/IncludeCustomActionTests.cs:14-28 | The fill-if-null action sees the copied target: a member left null takes the source's value, one holding a value keeps it, and nothing else changes |
| Properties.NestedNullClears | XMapper.Tests/NonEnumerableReferenceTypeTests.cs:50-53 | The nested-mapper action sets the target member to null when the source member is null, and changes no other member |
| Properties.NestedReusesInstance | XMapper.Tests/NonEnumerableReferenceTypeTests.cs:45-58 | With a target member already holding an instance, the nested mapper maps into that instance. It keeps its type, and only the sub-mapper's catalog members receive the source's values |
| Properties.NestedCreatesInstance | XMapper.Tests/NonEnumerableReferenceTypeTests.cs:45-58 | With a null target member, the nested mapper maps into a fresh instance of its target type |
| Mapper.XMapper.constructor | XMapper/XMapper.cs:32-38 | The catalog is the whole property list of the source type under the Source basis and of the target type otherwise; the action list starts empty |
| Mapper.XMapper.IgnoreSourceProperty | XMapper/XMapper.cs:43-51 | Under the Target basis, refuses with "Use 'IgnoreTargetProperty' if PropertyList is Target." and leaves the catalog unchanged. Under the Source basis, removes the member's first entry and returns the same mapper. The catalog only ever holds members of the basis type |
| Mapper.XMapper.IgnoreTargetProperty | XMapper/XMapper.cs:56-64 | Symmetric to `IgnoreSourceProperty`, with "Use 'IgnoreSourceProperty' if PropertyList is Source." |
| Mapper.XMapper.IncludeAction | XMapper/XMapper.cs:71-75 | Appends exactly one action at the end, changes nothing else, and returns the same mapper |
| Mapper.XMapper.SourceListMap | XMapper/XMapper.cs:113-121 | The loop over the source catalog computes the by-name copy `CopyAll` under the Source basis, including the "was not found on target" failure |
| Mapper.XMapper.TargetListMap | XMapper/XMapper.cs:123-131 | The loop over the target catalog computes `CopyAll` under the Target basis, including the "was not found on source" failure |
| Mapper.XMapper.Map | XMapper/XMapper.cs:90-111 | `Map(source, target)` is `Execute` on the mapper's configuration. A null target fails with the 'target' message, even when the source is null too; otherwise a null source fails with the 'source' message; in both cases nothing is written |
| Mapper.XMapper.MapNew | XMapper/XMapper.cs:80-85 | `Map(source)` is `Map(source, new TTarget())`, returning that target, or the failure |
| Mapper.BulkCopyKeepsShape | XMapper/XMapper.cs:113-131 | For a mapper configured through its own methods, the copy keeps an object of the target type an object of the target type |
| Scenarios.MemberNameMismatchSource | XMapper.Tests/ErrorMessages/MemberNameMismatch.cs:19-25 | Under the Source basis the first unmatched member gives "Property 'XStringA2' was not found on target 'DummyB'." |
| Scenarios.MemberNameMismatchTarget | XMapper.Tests/ErrorMessages/MemberNameMismatch.cs:27-33 | Under the Target basis: "Property 'XStringB2' was not found on source 'DummyA'." |
| Scenarios.AssignNullToNotNullable | XMapper.Tests/ErrorMessages/AssignNullToNotNullable.cs:17-27 | On either basis, a null `int?` into an `int` fails with the message naming 'DummyA.XInt' and 'DummyB.XInt', and the target keeps its value |
| Scenarios.IgnoreTargetProperties | XMapper.Tests/IgnoreTests.cs:32-48 | Ignoring four members of `Dummy2` under the Target basis leaves XNullableString, XNullableString2 and XInt, in that order |
| Scenarios.IgnoreSourceProperties | XMapper.Tests/IgnoreTests.cs:15-30 | Ignoring the same four members of `Dummy1` under the Source basis leaves XNullableString, XInt, XType and Multiple, in that order |
| Properties.CopyAllFailsOnMissing | XMapper/XMapper.cs:116-120 | A catalog member whose name the other type lacks always makes the copy fail: if no member before it fails, it does |
| Scenarios.IncludedActionNotReached | XMapper.Tests/IncludeCustomActionTests.cs:14-28 | In this test's own configuration, the Source catalog of `Dummy1` still lists `XType`, which `Dummy2` lacks. So `Map` fails in the bulk copy, and the registered fill-if-null action has no effect: the outcome equals that of the same mapper without it |
| Scenarios.IgnoreForWrongPropertyList | XMapper.Tests/ErrorMessages/IgnoreForWrongPropertyList.cs:17-33 | The ignore method of the other basis is refused with the message naming the right one |

Where the tests and the code disagree, the model follows the code.
`IgnoreTests.cs:15-30` expects only XInt and XNullableString to remain in the Source catalog.
But `Dummy1` also declares `XType` and `Multiple` (`TestHelpers/DummyTypes.cs:17-18`), and `GetProperties` lists them.
Nothing in `XMapper.cs` removes them, so `Scenarios.IgnoreSourceProperties` keeps them.

The same two members affect `IncludeCustomActionTests.cs:14-28`.
That test maps `Dummy1` to `Dummy2` under the Source basis and ignores only `XNullableEnum`.
`Dummy2` has no `XType`, so under `XMapper.cs:116-119` the copy stops with "Property 'XType' was not found on target 'Dummy2'." and the action is never reached.
`Scenarios.IncludedActionNotReached` proves that the copy fails and the action has no effect.
The rows `Properties.AssignOverridesCopy` and `Properties.FillIfNullAfterCopy` state the behaviour the test intends, for a copy that succeeds.

## Left out

- Reflection (`GetProperties`, `GetProperty`, `GetValue`/`SetValue`, `NullabilityInfoContext`) is replaced by explicit descriptor lists with a kind and a write state per member. Objects are maps from names to values. Read-only properties, indexers, and the ambiguity exceptions of `GetProperty` are not modelled.
- Types are modelled without inheritance. `List.Remove` compares `PropertyInfo` objects, and for a property inherited from a base class the selector's `PropertyInfo` (reflected on the base class) differs from the catalog entry (reflected on the derived class). In C# ignoring an inherited member is therefore a silent no-op that leaves the catalog unchanged and `Map` goes on copying it; the model removes it by name.
- The order of the members is modelled as the order of each type's descriptor list. `GetProperties` does not promise an order; the scenario catalogs follow declaration order, which the repository's tests do not rely on (they sort by name).
- Expression-tree selectors are modelled as the selected member's name. Selectors that are not a plain member access are not modelled, and neither is the cast that would fail on them.
- Arbitrary `Action<TSource, TTarget>` closures cannot be verified. The model has three sample actions: assignment, fill-if-null and the nested mapper. User code and the exceptions it throws are not modelled.
- Executor.MapPropertyValue: the runtime's type-mismatch error is an abstract `Conversion` failure, raised when the value's type name differs from the member's. Its .NET message text, implicit conversions and assignment to a base type or interface are not modelled.
- Object identity and aliasing are not modelled: source and target are values, so `Map(x, x)` and shared sub-objects are not captured. The nested-mapper action captures its sub-mapper's configuration as a value rather than a reference to a live mapper.
- The nested-mapper action given a non-instance value, such as a string where an object is expected, reports a `Conversion` failure. In C# that is excluded by the member types.
- Mapper.XMapper.MapNew returns an `Err` where `Map(source)` throws. Exceptions are `Failure` values throughout.
- Properties.ExecuteIdempotent holds only for mappers without actions, because an action may depend on the state of the target it runs on.
- Static-field caching of mappers, thread safety, and performance advice are not behaviour and are not modelled.
- The `PropertyList` enum is the datatype `Types.PropertyList`. It carries no contract of its own.
