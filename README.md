# CDC_Interview core, modelled in Dafny

This project models the core of the CDC_Interview iOS app, a cryptocurrency price list with an optional EUR column. It covers:

- the service container (`Dependency`), which memoises the first instance it stores for each service and hands out that instance afterwards. Concurrent first resolutions may each run the factory; only the first product stored is kept;
- the feature-flag store whose `supportEUR` flag switches the EUR column on and off;
- the list, detail and settings view-models that read and write that flag;
- the price records, data-source resources and network-provider descriptions they use;
- the child-coordinator list of the navigation coordinators;
- the precision rule of the price formatter.

One Dafny module stands for each Swift file:

| module | file |
|---|---|
| `Dependencies` | `Layer/Shared/Dependency.swift` |
| `FeatureFlags` | `Layer/Shared/FeatureFlagProvider.swift` |
| `CryptoList` | `Layer/Presentation/ListView/CryptoListViewModel.swift` |
| `Detail` | `Layer/Presentation/DetailView/DetailViewModel.swift` |
| `Settings` | `Layer/Presentation/SettingView/SettingViewModel.swift` |
| `DataSources` | `Layer/Data/DataSources/Core/DataSourceResource.swift` |
| `PriceItems` | `Layer/Domain/Entities/CryptoPriceItem.swift` |
| `Coordinators` | `Layer/Presentation/Coordinators/AppCoordinator.swift` |
| `NetworkProviders` | `Layer/Shared/NetworkProviderType.swift` |
| `Formatting` | `Utilities/NumberFormatter.swift` |

Two helper modules support them:

- `Common` holds `Option` (Swift's optional), `Subsequence` and `Filter` (Swift's `Array.filter`).
- `Text` holds the string operations: case mapping, `contains`, and the case-insensitive sort of tags.

Objects whose fields Swift updates in place are Dafny classes with `modifies` clauses:

- the container, `Dependencies.Dependency`;
- the flag store, `FeatureFlags.FeatureFlagProvider`;
- the three view-models;
- the coordinator;
- the formatter.

Every other entity is a datatype.

How the Swift constructs are modelled:

- **Service keys and `as? T`.** The container's key `ObjectIdentifier(T.self)` is a `ServiceId`. A built service is a `Service` object whose `conformsTo` set says for which `T` the cast `as? T` succeeds.
- **`resolve`.** It is split into its two locked sections, `Lookup` and `Store`, with the factory call `Invoke` between them. A race between two resolutions can then be stated as an interleaving of those sections (`RaceKeepsFirstStore`).
- **The flag store.** Its `BehaviorRelay` is the sequence `published` of every map it has held. A subscription is the position in that sequence at which it was made. What a subscriber has received is the projection of the later maps onto its flag, with consecutive repeats removed (`distinctUntilChanged`).

## Model

| member | source | states |
|---|---|---|
| Dependencies.Memo | CDC_Interview/CDC_Interview/Layer/Shared/Dependency.swift:44 | the memo yields an instance exactly when one is stored under the key and conforms to the requested type, and then it is the stored one |
| Dependencies.LookupOf | CDC_Interview/CDC_Interview/Layer/Shared/Dependency.swift:42-53 | the first locked section decides exactly one of: memoised instance (conforming), nil for a key with no factory, or build with the registered factory |
| Dependencies.StoreStep | CDC_Interview/CDC_Interview/Layer/Shared/Dependency.swift:63-75 | the double-check: an instance stored meanwhile wins and nothing changes; otherwise the new product is stored and returned; no other key and no registration changes |
| Dependencies.ResolveStep | CDC_Interview/CDC_Interview/Layer/Shared/Dependency.swift:39-76 | a whole `resolve`: registrations never change; a non-nil result conforms to the requested type and is the instance now memoised for it; a nil result leaves the state unchanged; no other key's memo changes; a memoised instance is returned as is |
| Dependencies.ResolveMemoised | CDC_Interview/CDC_Interview/Layer/Shared/Dependency.swift:43-47 | a conforming memoised instance is returned without calling a factory or changing state |
| Dependencies.ResolveUnregistered | CDC_Interview/CDC_Interview/Layer/Shared/Dependency.swift:49-53 | with no memoised instance and no factory, resolve returns nil and changes nothing |
| Dependencies.ResolveMismatch | CDC_Interview/CDC_Interview/Layer/Shared/Dependency.swift:58-61 | a factory product that fails `as? T` gives nil and is not stored |
| Dependencies.ResolveTwiceSameInstance | CDC_Interview/CDC_Interview/Layer/Shared/Dependency.swift:71-75 | after a successful build the product is memoised, and the next resolve takes the fast path and returns the identical instance |
| Dependencies.RaceKeepsFirstStore | CDC_Interview/CDC_Interview/Layer/Shared/Dependency.swift:63-69 | when two resolutions both built a product, the first store wins, the second product is dropped and both callers get the first |
| Dependencies.Apply | CDC_Interview/CDC_Interview/Layer/Shared/Dependency.swift:31-76 | one operation: `register` overwrites one factory and touches no memo; `resolve` runs a factory exactly when the lookup decides to build; a non-nil result is the memoised instance; no memoised instance is ever replaced |
| Dependencies.Run | CDC_Interview/CDC_Interview/Layer/Shared/Dependency.swift:31-76 | over a whole trace there is one outcome per operation, of the operation's kind, and every instance memoised at the start is still memoised at the end |
| Dependencies.SingletonPersists | CDC_Interview/CDC_Interview/Layer/Shared/Dependency.swift:39-76 | once an instance is memoised for a key, no sequence of registrations and resolutions removes it, and every later resolve of that key returns it without invoking a factory |
| Dependencies.RegisterIsLocal | CDC_Interview/CDC_Interview/Layer/Shared/Dependency.swift:31-35 | registering changes neither the memo nor what any other key resolves to |
| Dependencies.LastRegistrationBuilds | CDC_Interview/CDC_Interview/Layer/Shared/Dependency.swift:34 | of two registrations before the first resolution, the later factory is invoked and its product is kept |
| Dependencies.OtherKeyUnresolved | CDC_Interview/CDC_Interview/Layer/Shared/Dependency.swift:50-53 | on an empty container, registering one key leaves another key resolving to nil with nothing stored |
| Dependencies.Dependency.constructor | CDC_Interview/CDC_Interview/Layer/Shared/Dependency.swift:23-27 | the container starts with exactly the given dictionaries and no factory calls |
| Dependencies.Dependency.Register | CDC_Interview/CDC_Interview/Layer/Shared/Dependency.swift:31-35 | only the factory table changes, overwriting any earlier factory for the key; no factory runs |
| Dependencies.Dependency.Lookup | CDC_Interview/CDC_Interview/Layer/Shared/Dependency.swift:42-53 | the first locked section computes `LookupOf` of the current state |
| Dependencies.Dependency.Invoke | CDC_Interview/CDC_Interview/Layer/Shared/Dependency.swift:59 | the factory receives this container and returns a fresh instance of what it produces; the call is logged |
| Dependencies.Dependency.Store | CDC_Interview/CDC_Interview/Layer/Shared/Dependency.swift:63-75 | result and new state are `StoreStep` of the old state |
| Dependencies.Dependency.Resolve | CDC_Interview/CDC_Interview/Layer/Shared/Dependency.swift:39-76 | result and new state are `ResolveStep` of the old state; a factory runs, exactly once, only when the lookup decided to build, and its product is fresh |
| Dependencies.ResolveTwice | CDC_Interview/CDC_Interview/Layer/Shared/Dependency.swift:39-76 | register then resolve twice: both results are the same non-nil instance and the factory ran once, handed the container |
| FeatureFlags.ValueIn | CDC_Interview/CDC_Interview/Layer/Shared/FeatureFlagProvider.swift:54 | an absent flag reads as false, a present one as its stored value |
| FeatureFlags.Project | CDC_Interview/CDC_Interview/Layer/Shared/FeatureFlagProvider.swift:46-47 | each published map becomes its flag's value, position by position |
| FeatureFlags.Dedup | CDC_Interview/CDC_Interview/Layer/Shared/FeatureFlagProvider.swift:48 | `distinctUntilChanged` keeps the first and last values, never emits the same value twice in a row, and emits only values of the input in their order |
| FeatureFlags.DedupSnoc | CDC_Interview/CDC_Interview/Layer/Shared/FeatureFlagProvider.swift:48 | a new input value extends the de-duplicated stream exactly when it differs from the last input value |
| FeatureFlags.FeatureFlagProvider.constructor | CDC_Interview/CDC_Interview/Layer/Shared/FeatureFlagProvider.swift:37-43 | the store starts holding `supportEUR: false`, which is its only published value |
| FeatureFlags.FeatureFlagProvider.GetValue | CDC_Interview/CDC_Interview/Layer/Shared/FeatureFlagProvider.swift:51-55 | returns the current value, false for an absent flag |
| FeatureFlags.FeatureFlagProvider.Update | CDC_Interview/CDC_Interview/Layer/Shared/FeatureFlagProvider.swift:57-63 | the map with one key set is published; the flag now reads as the new value and every other flag is unchanged |
| FeatureFlags.FeatureFlagProvider.ObserveFlagValue | CDC_Interview/CDC_Interview/Layer/Shared/FeatureFlagProvider.swift:45-49 | a new subscription immediately receives exactly the flag's current value |
| FeatureFlags.FeatureFlagProvider.Observed | CDC_Interview/CDC_Interview/Layer/Shared/FeatureFlagProvider.swift:45-49 | a subscriber's stream starts with the value at subscription, ends with the current value, and has no consecutive repeats |
| FeatureFlags.ObservedAfterUpdate | CDC_Interview/CDC_Interview/Layer/Shared/FeatureFlagProvider.swift:57-63 | one update delivers one new value to every subscriber when the flag changes, and nothing when it does not |
| FeatureFlags.RepeatedValueEmittedOnce | CDC_Interview/CDC_Interview/Layer/Shared/FeatureFlagProvider.swift:45-49 | a subscriber that has seen `false`, followed by three maps holding `true`, has seen exactly `[false, true]` |
| FeatureFlags.ThreeUpdatesEmitTwice | CDC_Interview/CDC_InterviewTests/FeatureFlagProviderTests.swift:84-105 | a subscriber followed by three updates to true receives exactly `[false, true]` |
| Settings.SettingViewModel.constructor | CDC_Interview/CDC_Interview/Layer/Presentation/SettingView/SettingViewModel.swift:19-26 | the switch starts at the store's value and the store is not written |
| Settings.SettingViewModel.SetSupportEUR | CDC_Interview/CDC_Interview/Layer/Presentation/SettingView/SettingViewModel.swift:11-15 | assigning the switch publishes the new value to the store under `supportEUR`, leaving the store's invariant intact |
| Settings.AfterAssignments | CDC_Interview/CDC_Interview/Layer/Presentation/SettingView/SettingViewModel.swift:11-15 | the store after a run of switch assignments: unchanged for none, otherwise holding exactly its old flags plus `supportEUR` |
| Settings.LastAssignmentWins | CDC_Interview/CDC_InterviewTests/SettingViewModelTests.swift:114-128 | after any non-empty run of assignments the store holds the last value assigned |
| Detail.FormattedPrices | CDC_Interview/CDC_Interview/Layer/Presentation/DetailView/DetailViewModel.swift:57-63 | a USD line, followed by a EUR line only when EUR is shown and the row has a EUR price |
| Detail.TwoLinesExactlyWhenEURShown | CDC_Interview/CDC_Interview/Layer/Presentation/DetailView/DetailViewModel.swift:58-61 | the text has a line break exactly when EUR is shown and available, and always starts with the USD line |
| Detail.DetailViewModel.TokenName | CDC_Interview/CDC_Interview/Layer/Presentation/DetailView/DetailViewModel.swift:26-28 | the token name is the row's name |
| Detail.DetailViewModel.constructor | CDC_Interview/CDC_Interview/Layer/Presentation/DetailView/DetailViewModel.swift:31-43 | the view-model starts with the store's current flag and text consistent with it |
| Detail.DetailViewModel.UpdateFormattedPrices | CDC_Interview/CDC_Interview/Layer/Presentation/DetailView/DetailViewModel.swift:57-63 | the text is brought in line with the flag and the row |
| Detail.DetailViewModel.OnSupportEUR | CDC_Interview/CDC_Interview/Layer/Presentation/DetailView/DetailViewModel.swift:50-53 | a flag value delivered by the store is taken over and the text follows it |
| CryptoList.SameItem | CDC_Interview/CDC_Interview/Layer/Presentation/ListView/CryptoListViewModel.swift:207-209 | two rows are equal exactly when they differ at most in name, symbol, prices, tags and flag; a row equals itself |
| CryptoList.SameItemIgnoresContent | CDC_Interview/CDC_Interview/Layer/Presentation/ListView/CryptoListViewModel.swift:207-209 | row equality is an equivalence decided by the id alone, whatever the other fields hold |
| CryptoList.ExtractSymbol | CDC_Interview/CDC_Interview/Layer/Presentation/ListView/CryptoListViewModel.swift:183-186 | the symbol is the first three characters of the name (fewer for a short name), upper-cased |
| CryptoList.CreateDisplayItem | CDC_Interview/CDC_Interview/Layer/Presentation/ListView/CryptoListViewModel.swift:159-181 | keeps id, name and flag, derives the symbol, renders USD, renders EUR exactly when given, and sorts the tags case-insensitively as a permutation |
| CryptoList.ConvertUSDPrices | CDC_Interview/CDC_Interview/Layer/Presentation/ListView/CryptoListViewModel.swift:132-143 | one row per record, in order, with no EUR price and the EUR flag off |
| CryptoList.ConvertAllPrices | CDC_Interview/CDC_Interview/Layer/Presentation/ListView/CryptoListViewModel.swift:145-156 | one row per record, in order, with both prices rendered and the EUR flag on |
| CryptoList.Visible | CDC_Interview/CDC_Interview/Layer/Presentation/ListView/CryptoListViewModel.swift:118-129 | an empty search shows every row; otherwise only rows whose name, symbol or a tag contains the lower-cased text, in their original order |
| CryptoList.Matches | CDC_Interview/CDC_Interview/Layer/Presentation/ListView/CryptoListViewModel.swift:123-127 | the filter closure; the empty query matches every row |
| CryptoList.MatchesAt | CDC_Interview/CDC_Interview/Layer/Presentation/ListView/CryptoListViewModel.swift:123-127 | a row matches exactly when the query occurs at some offset of its lower-cased name, symbol or one of its tags |
| CryptoList.VisibleKeepsExactlyMatches | CDC_Interview/CDC_Interview/Layer/Presentation/ListView/CryptoListViewModel.swift:123-127 | every matching row is kept as often as it occurs, and no other row |
| CryptoList.LoadingStates | CDC_Interview/CDC_Interview/Layer/Presentation/ListView/CryptoListViewModel.swift:63-76 | loading first, then success with the rows of the fetch the flag selects or that fetch's error message; successful rows carry the flag |
| CryptoList.CryptoListViewModel.constructor | CDC_Interview/CDC_Interview/Layer/Presentation/ListView/CryptoListViewModel.swift:20-39 | no rows, not loading, no error, empty search, EUR off |
| CryptoList.CryptoListViewModel.SetSearchText | CDC_Interview/CDC_Interview/Layer/Presentation/ListView/CryptoListViewModel.swift:24-26 | the search text is set |
| CryptoList.CryptoListViewModel.FilterCurrentItems | CDC_Interview/CDC_Interview/Layer/Presentation/ListView/CryptoListViewModel.swift:118-129 | the shown rows become `Visible` of all rows for the current search text |
| CryptoList.CryptoListViewModel.UpdateItems | CDC_Interview/CDC_Interview/Layer/Presentation/ListView/CryptoListViewModel.swift:113-116 | all rows are replaced and the shown rows refiltered |
| CryptoList.CryptoListViewModel.Handle | CDC_Interview/CDC_Interview/Layer/Presentation/ListView/CryptoListViewModel.swift:79-94 | loading sets the spinner and clears the error, keeping the rows; success replaces and refilters the rows and clears both; an error keeps the rows and sets the message |
| CryptoList.CryptoListViewModel.SetShowEURPrice | CDC_Interview/CDC_Interview/Layer/Presentation/ListView/CryptoListViewModel.swift:97-101 | the published EUR flag follows the store |
| Text.Lower | CDC_Interview/CDC_Interview/Layer/Presentation/ListView/CryptoListViewModel.swift:122 | lower-casing maps each character and keeps the length |
| Text.Upper | CDC_Interview/CDC_Interview/Layer/Presentation/ListView/CryptoListViewModel.swift:185 | upper-casing maps each character and keeps the length |
| Text.Contains | CDC_Interview/CDC_Interview/Layer/Presentation/ListView/CryptoListViewModel.swift:124-126 | `contains`: the empty query occurs in every string, an occurring query is never longer than the string, and a query as long as the string occurs exactly when it equals it |
| Text.ContainsAt | CDC_Interview/CDC_Interview/Layer/Presentation/ListView/CryptoListViewModel.swift:124-126 | `contains` holds exactly when the query occurs at some offset |
| Text.SortCaseInsensitive | CDC_Interview/CDC_Interview/Layer/Presentation/ListView/CryptoListViewModel.swift:167-170 | the tags come out case-insensitively ordered, as a permutation of the input |
| Text.Insert | CDC_Interview/CDC_Interview/Layer/Presentation/ListView/CryptoListViewModel.swift:167-170 | inserting one tag into sorted tags keeps them sorted and adds exactly that tag |
| Text.SortedPairwise | CDC_Interview/CDC_Interview/Layer/Presentation/ListView/CryptoListViewModel.swift:167-170 | in sorted tags every earlier tag is at most every later one, not only its neighbour |
| Common.Filter | CDC_Interview/CDC_Interview/Layer/Presentation/Coordinators/AppCoordinator.swift:25 | `filter` keeps, in order, only elements that pass |
| Common.FilterCount | CDC_Interview/CDC_Interview/Layer/Presentation/ListView/CryptoListViewModel.swift:123 | a passing element keeps every occurrence and a failing one keeps none |
| Coordinators.Coordinator.constructor | CDC_Interview/CDC_Interview/Layer/Presentation/Coordinators/AppCoordinator.swift:30 | a coordinator starts with no children |
| Coordinators.Coordinator.AddChildCoordinator | CDC_Interview/CDC_Interview/Layer/Presentation/Coordinators/AppCoordinator.swift:20-22 | the child is appended after the existing ones |
| Coordinators.Coordinator.RemoveChildCoordinator | CDC_Interview/CDC_Interview/Layer/Presentation/Coordinators/AppCoordinator.swift:24-26 | the list becomes `Without` the given object |
| Coordinators.Without | CDC_Interview/CDC_Interview/Layer/Presentation/Coordinators/AppCoordinator.swift:25 | no reference to the object is left; the rest keep their order |
| Coordinators.RemoveKeepsOthers | CDC_Interview/CDC_Interview/Layer/Presentation/Coordinators/AppCoordinator.swift:25 | every other child keeps its number of occurrences |
| Coordinators.RemoveAbsent | CDC_Interview/CDC_Interview/Layer/Presentation/Coordinators/AppCoordinator.swift:25 | removing an object that is not a child changes nothing |
| Coordinators.AddThenRemove | CDC_Interview/CDC_InterviewTests/AppCoordinatorTests.swift:120-130 | adding a new child and removing it restores the list |
| DataSources.RawValue | CDC_Interview/CDC_Interview/Layer/Data/DataSources/Core/DataSourceResource.swift:12-20 | the raw values are `usdPrices` and `allPrices` |
| DataSources.FromRaw | CDC_Interview/CDC_Interview/Layer/Data/DataSources/Core/DataSourceResource.swift:12-20 | `init(rawValue:)` succeeds exactly for the two raw values and inverts `RawValue` |
| DataSources.RoundTrip | CDC_Interview/CDC_Interview/Layer/Data/DataSources/Core/DataSourceResource.swift:12-20 | every case survives the trip through its raw value |
| DataSources.InvalidRawValue | CDC_Interview/CDC_Interview/Layer/Data/DataSources/Core/DataSourceResource.swift:12 | an unknown raw value gives nil |
| DataSources.RawValuesDistinct | CDC_Interview/CDC_Interview/Layer/Data/DataSources/Core/DataSourceResource.swift:52-54 | distinct cases have distinct raw values and distinct file names |
| DataSources.Description | CDC_Interview/CDC_Interview/Layer/Data/DataSources/Core/DataSourceResource.swift:37-44 | a description is non-empty and differs from the raw value |
| DataSources.FileExtension | CDC_Interview/CDC_Interview/Layer/Data/DataSources/Core/DataSourceResource.swift:47-49 | the extension is `json` |
| DataSources.Filename | CDC_Interview/CDC_Interview/Layer/Data/DataSources/Core/DataSourceResource.swift:52-54 | the file name is the raw value followed by `.json` |
| DataSources.AllCases | CDC_Interview/CDC_Interview/Layer/Data/DataSources/Core/DataSourceResource.swift:12 | two distinct cases |
| DataSources.AllCasesComplete | CDC_Interview/CDC_Interview/Layer/Data/DataSources/Core/DataSourceResource.swift:12-20 | every case is listed in `allCases` |
| DataSources.PriceResources | CDC_Interview/CDC_Interview/Layer/Data/DataSources/Core/DataSourceResource.swift:62-64 | the price resources are the two cases |
| DataSources.PriceResourcesAreAllCases | CDC_Interview/CDC_Interview/Layer/Data/DataSources/Core/DataSourceResource.swift:62-64 | the price resources are exactly `allCases`, without repeats |
| PriceItems.TagRawValue | CDC_Interview/CDC_Interview/Layer/Domain/Entities/CryptoPriceItem.swift:14-17 | the raw values are `deposit` and `withdrawal` |
| PriceItems.TagFromRaw | CDC_Interview/CDC_Interview/Layer/Domain/Entities/CryptoPriceItem.swift:14-17 | decoding succeeds exactly for the two raw values and inverts `TagRawValue` |
| PriceItems.TagRoundTrip | CDC_Interview/CDC_Interview/Layer/Domain/Entities/CryptoPriceItem.swift:14-17 | every tag survives the trip through its raw value |
| PriceItems.TagRawValuesDistinct | CDC_Interview/CDC_Interview/Layer/Domain/Entities/CryptoPriceItem.swift:14-17 | distinct tags have distinct raw values |
| PriceItems.TagStrings | CDC_Interview/CDC_Interview/Layer/Domain/Entities/CryptoPriceItem.swift:29-31 | one raw value per tag, in order |
| PriceItems.TagStringsDecode | CDC_Interview/CDC_Interview/Layer/Domain/Entities/CryptoPriceItem.swift:52-54 | decoding the tag strings gives back the tags |
| PriceItems.AllPriceItem.Usd | CDC_Interview/CDC_Interview/Layer/Domain/Entities/CryptoPriceItem.swift:57-59 | `usd` reads through to the price record |
| PriceItems.AllPriceItem.Eur | CDC_Interview/CDC_Interview/Layer/Domain/Entities/CryptoPriceItem.swift:62-64 | `eur` reads through to the price record |
| NetworkProviders.Description | CDC_Interview/CDC_Interview/Layer/Shared/NetworkProviderType.swift:26-34 | the local description is `Local Data Source`; a remote one is `Remote Data Source (` followed by the base URL and `)` |
| NetworkProviders.RemoteIsNotLocal | CDC_Interview/CDC_Interview/Layer/Shared/NetworkProviderType.swift:26-34 | no remote description equals the local one |
| NetworkProviders.RemoteDescriptionInjective | CDC_Interview/CDC_Interview/Layer/Shared/NetworkProviderType.swift:31-32 | equal remote descriptions mean equal base URLs |
| NetworkProviders.DefaultRemoteDescription | CDC_Interview/CDC_Interview/Layer/Shared/NetworkProviderType.swift:22 | the default remote is `https://api.crypto.com` and is described with it |
| Formatting.PriceDigits | CDC_Interview/CDC_Interview/Utilities/NumberFormatter.swift:79-88 | always at least two fraction digits; at most 2 from 1 up, 4 from 0.01 below 1, 8 below 0.01 |
| Formatting.PriceDigitsMonotone | CDC_Interview/CDC_Interview/Utilities/NumberFormatter.swift:79-88 | a larger amount never gets more fraction digits |
| Formatting.CryptoFormatter.constructor | CDC_Interview/CDC_Interview/Utilities/NumberFormatter.swift:14-40 | the cached formatters start with Foundation's default fraction digits |
| Formatting.CryptoFormatter.FormatUSD | CDC_Interview/CDC_Interview/Utilities/NumberFormatter.swift:76-91 | the USD formatter is set to the price bracket of the value and renders it |
| Formatting.CryptoFormatter.FormatEUR | CDC_Interview/CDC_Interview/Utilities/NumberFormatter.swift:97-112 | the EUR formatter is set to the price bracket of the value and renders it |
| Formatting.CryptoFormatter.Format | CDC_Interview/CDC_Interview/Utilities/NumberFormatter.swift:120-125 | dispatches to the currency's own method, leaving the other formatter untouched |
| Formatting.CryptoFormatter.FormatDecimal | CDC_Interview/CDC_Interview/Utilities/NumberFormatter.swift:133-139 | minimum and maximum fraction digits both become the requested number of places, eight when none is given |

## Left out

- Locks, dispatch queues and threads: every operation runs to completion alone. The only interleaving modelled is the container's store after a concurrent build (`RaceKeepsFirstStore`).
- The reactive plumbing is not modelled: `debounce` of the search text, `flatMapLatest` cancelling an older fetch, drivers, `asDriver(onErrorJustReturn:)` and dispose bags. The model gives the states the handlers leave behind, plus the state sequence of one fetch (`LoadingStates`).
- Dependencies.Dependency.Invoke: a factory is modelled as allocating one fresh service; a factory that itself resolves from the container (re-entrancy) is not modelled.
- Dependencies.Dependency.Register: `requires` that the factory's product conforms to the key, which Swift's generic signature guarantees. A mismatched product is reachable only through the dictionaries given to the testing initialiser (`ResolveMismatch`).
- `Dependency.shared` and the private initialiser are not modelled separately; they are the constructor with empty dictionaries.
- The view-model initialisers resolve their collaborators from the container and call `fatalError` when one is missing. Here they receive the flag store directly; the list view-model's price use case is replaced by the fetch results given to `LoadingStates`.
- CryptoList.CryptoListViewModel.constructor: the bindings the initialiser sets up (the first fetch, the first flag value) are not run by it; `Handle` and `SetShowEURPrice` are those events.
- Detail.DetailViewModel.constructor: the flag's current value is taken to be delivered synchronously during the initialiser, because a behaviour relay replays its value and the main scheduler runs at once on the main thread.
- Text.Lower: Unicode case mapping is modelled on ASCII letters only. `Upper`, `Contains` and `SortCaseInsensitive` (standing for `localizedCaseInsensitiveCompare`) are modelled the same way, with no locale and no Unicode normalisation.
- Text.SortCaseInsensitive: the contract states order and permutation; how Swift's sort orders tags that differ only in case is not stated.
- Decimal values are modelled as `real`.
- Formatting: the string that Foundation's `NumberFormatter` produces (symbol, grouping, rounding down, locale) is not modelled. A formatting call returns the rendering request it hands to Foundation, and the list view-model takes the renderer as a parameter.
- Formatting.CryptoFormatter.FormatDecimal: Foundation's handling of a negative number of places is not modelled.
- The `formatterQueue` serialisation and `parse` in the formatter are not modelled.
- `existsInBundle`, `DataSourceConfiguration`, the data-source providers, repositories and use cases are not part of this model.
- The rest of `AppCoordinator.swift` (building tab bars and child coordinators, `start`) is UIKit wiring and is not part of this model.
- Views (SwiftUI and UIKit) are not part of this model.
