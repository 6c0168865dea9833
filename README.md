# Lunch-menu tile: a Dafny model

This project models the core of a wearable "lunch menu" tile. The model has three parts.

- **The menu store** (`LunchMenuRepo`). It has one preferences slot, under the key `"lunch_menus"`. The slot holds the whole week as a map from lower-case day name to an ordered list of dishes (`MenuItem`). Reading an absent slot gives the empty week. A write replaces the whole week. A fixed Monday-to-Friday sample week serves as the seed.
- **The tile service** (`LunchMenuTileService`). It takes today's list from the stored week, defaulting to empty. A tile request reads the state once. If today's list is empty, it writes the sample week and reads once more, with no retry.
- **The renderer** (`LunchMenuTileRenderer`). Each dish becomes a heading with its name, then a description line if it has one, then a price line. The weekday label is the upper-case day name. A "See more" chip is always present. The tile registers no image resources.

Modules:

- `Wrappers`: Option, for Kotlin's nullable types.
- `Days`: `java.time.DayOfWeek`, its enum name and the lower-case storage key.
- `MenuRepo`: dishes, the preferences snapshot, `Read`/`Write`, the sample week and the `LunchMenuRepo` class.
- `TileRenderer`: the tile state, the layout elements, flattening and its inverse, and the `createLayout` loop. `Unflatten` (with its step `Prepend`) is not in the source. It is a reader that parses a column back into dishes, and it exists to prove that the column loses nothing.
- `TileService`: `getTodayMenu`, a pure specification of `latestTileState`, and the `LunchMenuTileService` class.

Modelling choices:

- The JSON codec is taken as the identity. A stored value *is* the week it encodes.
- The stored string `"{}"` read for an absent slot is represented by `EmptyWeek`.
- Prices are integer euro cents. The source's `Double` 15.9 is 1590 here.
- The day of the week is a parameter, not a reading of the device clock.
- Each "latest value" of the state stream is a fresh, sequential read of the store.
- The sample week is built by methods, one per day, and the week from those. Their contracts state its shape: the keys, four dishes a day, price bounds, non-empty names, which dishes are described. The dish texts themselves appear only in the method bodies. A `LunchMenuRepo` builds the week once, into its constant `sampleLunchMenus`, in the role of the companion object's `val`.
- The pure specification of `latestTileState` takes the week it seeds with as a parameter `seed`. Its lemmas assume only the sample week's shape (`SeedShape`). The service passes `repo.sampleLunchMenus`, which the repository's constructor proves to have that shape.
- `LunchMenuRepo.writes` is a ghost log of every map handed to `updateLunchMenus`. It lets the model state how many writes a request makes and what they write.

Where one might expect more of the code than it does, the model follows the code:

- **Corrupt or missing data.** A reader might expect a corrupt blob to degrade to the empty week. The code catches nothing: Gson would throw. The model has no corrupt state.
- **Seed-write failures.** A reader might expect a failed seed write to be swallowed. The code has no `try`. The model's writes always succeed (see Left out).
- **Dish invariants.** Dishes are meant to have non-empty names and non-negative prices. The code does not enforce this, and neither does the model's type. The sample week is proved to meet it.

## Model

| member | source | states |
|---|---|---|
| `Wrappers.Option.GetOr` | start/src/main/java/com/example/wear/tiles/messaging/LunchMenuRepo.kt:20 | a present value is returned as is, an absent one becomes the default (the `?:` operator) |
| `Days.LowerChar` | start/src/main/java/com/example/wear/tiles/messaging/tile/LunchMenuTileService.kt:83 | an upper-case ASCII letter maps to its lower-case letter; every other character is kept |
| `Days.Lowercase` | start/src/main/java/com/example/wear/tiles/messaging/tile/LunchMenuTileService.kt:83 | `lowercase()` keeps the length and lower-cases each character in place |
| `Days.LookupKeyIsLowercaseName` | start/src/main/java/com/example/wear/tiles/messaging/tile/LunchMenuTileService.kt:83 | the storage key of each day, "monday" to "sunday", is its enum name lower-cased |
| `Days.NameIsUpper` | start/src/main/java/com/example/wear/tiles/messaging/tile/LunchMenuTileRenderer.kt:70-74 | every day's enum name is non-empty and made of capital letters only |
| `Days.LookupKeyInjective` | start/src/main/java/com/example/wear/tiles/messaging/tile/LunchMenuTileService.kt:83 | two days share a storage key exactly when they are the same day |
| `MenuRepo.Slot` | start/src/main/java/com/example/wear/tiles/messaging/LunchMenuRepo.kt:20 | the slot is present exactly when the key "lunch_menus" is stored, and then holds that key's value |
| `MenuRepo.Read` | start/src/main/java/com/example/wear/tiles/messaging/LunchMenuRepo.kt:19-22 | reading an absent slot gives the empty week; otherwise it gives the stored week |
| `MenuRepo.Write` | start/src/main/java/com/example/wear/tiles/messaging/LunchMenuRepo.kt:24-28 | after a write, a read returns exactly the map written; only the key "lunch_menus" is added or changed, and every other key keeps its value |
| `MenuRepo.WriteIdempotent` | start/src/main/java/com/example/wear/tiles/messaging/LunchMenuRepo.kt:26 | writing the same week twice leaves the same store as writing it once |
| `MenuRepo.WriteLastWins` | start/src/main/java/com/example/wear/tiles/messaging/LunchMenuRepo.kt:24-28 | a write replaces the previous week wholesale: the days read afterwards are exactly the days of the last map written, with no merging |
| `MenuRepo.SampleMonday` | start/src/main/java/com/example/wear/tiles/messaging/LunchMenuRepo.kt:32-37 | four named dishes priced 13.50 to 16.50; only the second has no description |
| `MenuRepo.SampleTuesday` | start/src/main/java/com/example/wear/tiles/messaging/LunchMenuRepo.kt:38-43 | four named dishes priced 13.50 to 16.50, all with descriptions |
| `MenuRepo.SampleWednesday` | start/src/main/java/com/example/wear/tiles/messaging/LunchMenuRepo.kt:44-49 | four named dishes priced 13.50 to 16.50; only the second has no description |
| `MenuRepo.SampleThursday` | start/src/main/java/com/example/wear/tiles/messaging/LunchMenuRepo.kt:50-55 | four named dishes priced 13.50 to 16.50; only the second has no description |
| `MenuRepo.SampleFriday` | start/src/main/java/com/example/wear/tiles/messaging/LunchMenuRepo.kt:56-61 | four named dishes priced 13.50 to 16.50; only the second and third have no description |
| `MenuRepo.SampleLunchMenus` | start/src/main/java/com/example/wear/tiles/messaging/LunchMenuRepo.kt:31-62 | the sample week has exactly the keys monday to friday; every day has four dishes with non-empty names and prices from 13.50 to 16.50; every day's first dish is described, and the second is undescribed on every day except Tuesday |
| `MenuRepo.SampleKeysAreWeekdays` | start/src/main/java/com/example/wear/tiles/messaging/LunchMenuRepo.kt:31-62 | the sample week has an entry for a day's key exactly when the day is Monday to Friday, so none for Saturday or Sunday |
| `MenuRepo.DefaultDescriptionIsNone` | start/src/main/java/com/example/wear/tiles/messaging/LunchMenuRepo.kt:66-70 | a dish built without a description has none (the Kotlin default `null`) |
| `MenuRepo.LunchMenuRepo.constructor` | start/src/main/java/com/example/wear/tiles/messaging/LunchMenuRepo.kt:16 | a repository starts over the preferences already persisted, with no writes made; its sample week has the sample shape |
| `MenuRepo.LunchMenuRepo.UpdateLunchMenus` | start/src/main/java/com/example/wear/tiles/messaging/LunchMenuRepo.kt:24-28 | the store becomes `Write` of the old store; the menus read back are the map written; the write log grows by exactly that map |
| `TileRenderer.ItemRun` | start/src/main/java/com/example/wear/tiles/messaging/tile/LunchMenuTileRenderer.kt:140-144 | a dish's run starts with its name as a heading and ends with its price; it has three elements with the description second when there is one, else two |
| `TileRenderer.Flatten` | start/src/main/java/com/example/wear/tiles/messaging/tile/LunchMenuTileRenderer.kt:137-146 | the column has 2 elements per dish plus one per described dish; it is empty exactly when the menu is |
| `TileRenderer.CountDescribed` | start/src/main/java/com/example/wear/tiles/messaging/tile/LunchMenuTileRenderer.kt:141-143 | the number of described dishes is at most the number of dishes |
| `TileRenderer.Names` | start/src/main/java/com/example/wear/tiles/messaging/tile/LunchMenuTileRenderer.kt:140 | the dish names in menu order, one per dish |
| `TileRenderer.FlattenConcat` | start/src/main/java/com/example/wear/tiles/messaging/tile/LunchMenuTileRenderer.kt:138-145 | dishes are laid out independently of each other and in list order |
| `TileRenderer.HeadingsConcat` | start/src/main/java/com/example/wear/tiles/messaging/tile/LunchMenuTileRenderer.kt:140 | the headings of two columns joined are the headings of the first, then of the second |
| `TileRenderer.HeadingsOfRun` | start/src/main/java/com/example/wear/tiles/messaging/tile/LunchMenuTileRenderer.kt:140-144 | a dish's run has a single heading, its name |
| `TileRenderer.HeadingsAreNames` | start/src/main/java/com/example/wear/tiles/messaging/tile/LunchMenuTileRenderer.kt:138-140 | the headings of the column, read in order, are exactly the dish names in menu order |
| `TileRenderer.UnflattenFlatten` | start/src/main/java/com/example/wear/tiles/messaging/tile/LunchMenuTileRenderer.kt:137-146 | the column can be read back into the very dishes it came from: name, description or its absence, and price |
| `TileRenderer.FlattenUnflatten` | start/src/main/java/com/example/wear/tiles/messaging/tile/LunchMenuTileRenderer.kt:137-146 | conversely, a column that reads back to some dishes is exactly the column those dishes are laid out as |
| `TileRenderer.FlattenInjective` | start/src/main/java/com/example/wear/tiles/messaging/tile/LunchMenuTileRenderer.kt:137-146 | two different menus never produce the same column |
| `TileRenderer.FlattenSnoc` | start/src/main/java/com/example/wear/tiles/messaging/tile/LunchMenuTileRenderer.kt:138-145 | one more dish at the end adds its run at the end of the column |
| `TileRenderer.AddMenuItem` | start/src/main/java/com/example/wear/tiles/messaging/tile/LunchMenuTileRenderer.kt:138-145 | one pass of the `forEach` appends exactly that dish's run to the column |
| `TileRenderer.CreateLayout` | start/src/main/java/com/example/wear/tiles/messaging/tile/LunchMenuTileRenderer.kt:132-149 | the loop that adds each dish's heading, optional description and price to the column builds exactly `Flatten` of today's menu |
| `TileRenderer.CurrentWeekday` | start/src/main/java/com/example/wear/tiles/messaging/tile/LunchMenuTileRenderer.kt:70-74 | the label is the day's non-empty, all-capital enum name; it lower-cases to the storage key, yet always differs from it |
| `TileRenderer.LunchMenuTileLayout` | start/src/main/java/com/example/wear/tiles/messaging/tile/LunchMenuTileRenderer.kt:76-108 | the layout's label is the weekday; its content reads back to today's dishes; its chip is "See more" |
| `TileRenderer.ChipAlwaysPresent` | start/src/main/java/com/example/wear/tiles/messaging/tile/LunchMenuTileRenderer.kt:95-105 | the "See more" chip is there whatever the state; an empty menu gives an empty column |
| `TileRenderer.ProduceRequestedResources` | start/src/main/java/com/example/wear/tiles/messaging/tile/LunchMenuTileRenderer.kt:57-65 | whatever ids are requested, no resource is added |
| `TileService.GetTodayMenu` | start/src/main/java/com/example/wear/tiles/messaging/tile/LunchMenuTileService.kt:81-85 | the list stored under today's lower-case key when the key is present; the empty list otherwise |
| `TileService.StateOnlyReadsToday` | start/src/main/java/com/example/wear/tiles/messaging/tile/LunchMenuTileService.kt:50 | the tile state is a function of the stored week and the day, and depends only on today's entry |
| `TileService.LatestTileStateSpec` | start/src/main/java/com/example/wear/tiles/messaging/tile/LunchMenuTileService.kt:64-74 | it seeds exactly when today's list is empty; without a seed it returns the first read, after a seed it returns today's state in the seed week |
| `TileService.PrefsAfter` | start/src/main/java/com/example/wear/tiles/messaging/tile/LunchMenuTileService.kt:64-79 | a request leaves the store either unchanged or overwritten with the seed week, and overwritten whenever it seeds |
| `TileService.NoSeedWhenTodayHasDishes` | start/src/main/java/com/example/wear/tiles/messaging/tile/LunchMenuTileService.kt:66-73 | when today's first read is non-empty, nothing is written and that list is returned |
| `TileService.SeedOnWeekday` | start/src/main/java/com/example/wear/tiles/messaging/tile/LunchMenuTileService.kt:68-72 | on Monday to Friday with nothing for today, the result is that day's entry of the sample week, four dishes |
| `TileService.WeekdayNeverEmpty` | start/src/main/java/com/example/wear/tiles/messaging/tile/LunchMenuTileService.kt:64-74 | on Monday to Friday, with a seed of the sample shape, the returned list is never empty |
| `TileService.SeedOnWeekend` | start/src/main/java/com/example/wear/tiles/messaging/tile/LunchMenuTileService.kt:68-72 | on Saturday or Sunday with nothing for today, the store is overwritten with the sample week, yet the result is empty |
| `TileService.WeekendReseedsEveryRequest` | start/src/main/java/com/example/wear/tiles/messaging/tile/LunchMenuTileService.kt:64-79 | after such a weekend seed, the next weekend request seeds again |
| `TileService.WeekdaySeedsAtMostOnce` | start/src/main/java/com/example/wear/tiles/messaging/tile/LunchMenuTileService.kt:64-79 | on a weekday, the request after any request writes nothing |
| `TileService.SeedDiscardsOtherDays` | start/src/main/java/com/example/wear/tiles/messaging/tile/LunchMenuTileService.kt:68-78 | the emptiness test looks only at today: a seed loses any other day's stored menu that differs from the sample, while keys other than the menu slot are untouched |
| `TileService.SoupOnMonday` | start/src/main/java/com/example/wear/tiles/messaging/tile/LunchMenuTileService.kt:64-85 | a stored Monday of one soup at 9.50, on a Monday, gives that soup with no description and no write |
| `TileService.MissingDaySeeds` | start/src/main/java/com/example/wear/tiles/messaging/tile/LunchMenuTileService.kt:64-85 | with only Monday stored, a Tuesday request seeds, shows the sample Tuesday's four dishes and leaves the full sample week stored |
| `TileService.LunchMenuTileService.constructor` | start/src/main/java/com/example/wear/tiles/messaging/tile/LunchMenuTileService.kt:47 | the service works over the repository it is given |
| `TileService.LunchMenuTileService.RefreshData` | start/src/main/java/com/example/wear/tiles/messaging/tile/LunchMenuTileService.kt:76-79 | the store becomes the repository's sample week, written once |
| `TileService.LunchMenuTileService.LatestTileState` | start/src/main/java/com/example/wear/tiles/messaging/tile/LunchMenuTileService.kt:64-74 | returns the state and leaves the store as `LatestTileStateSpec` and `PrefsAfter` say; it makes one write, of the sample week, if the first read was empty, and none otherwise |
| `TileService.LunchMenuTileService.TileRequest` | start/src/main/java/com/example/wear/tiles/messaging/tile/LunchMenuTileService.kt:58-62 | the tile is the layout of the latest state, for the given day; the store ends as `PrefsAfter` says; it makes one write, of the sample week, if the first read was empty, and none otherwise |

## Left out

- JSON encoding and decoding (Gson) is taken as the identity. No codec round trip is claimed. Malformed stored text, on which the code would throw, is not modelled.
- The asynchronous stream machinery is not modelled: the DataStore `Flow`, `stateIn` with `WhileSubscribed(5000)`, and `filterNotNull().first()`. The second read after a seed is modelled as a sequential read-after-write. The real shared `StateFlow` may still deliver the cached pre-seed value, and that race is not captured.
- Concurrent requests are not modelled, and neither is the atomicity of the DataStore `edit`.
- Storage failures are not modelled. Every write succeeds. The code would propagate a failed write out of the tile request.
- `LocalDate.now()` is not modelled: the current day is a parameter.
- One `today` stands for two separate clock reads. The source computes the lookup key inside the flow's `map` (LunchMenuTileService.kt:83), and the `StateFlow` caches the result until the store next emits. It computes the weekday label at render time (LunchMenuTileRenderer.kt:71). The model always pairs the label with the same day's menu. The source can show, for example, "TUESDAY" over Monday's dishes across midnight, or whenever the cached state was mapped on an earlier day.
- `Days.Lowercase` covers only ASCII letters, which is all the day names contain. Kotlin's `lowercase()` is full Unicode.
- The price text `"€%.2f".format(price)` is not rendered. Its floating-point formatting and the mis-encoded euro sign are not modelled. A price line is the abstract element `PriceText(price)`.
- `TileRenderer.UnflattenFlatten` distinguishes a description line from a price line by element kind. In the real layout both are body texts that differ only in content.
- The protolayout builders, typography, colours, `setMaxLines`, `launchActivityClickable`/`openNewConversation`, `renderTimeline` and all `Log.d` calls are not modelled. The chip's action is kept only as its id "new_button".
- The service lifecycle (`onCreate`, `lateinit` fields) and `resourcesRequest` are host wiring and are not modelled.
- `MessagingTileRenderer.kt` is not part of this model. It is a hard-coded column of text. Its `getCurrentWeekday` duplicates the lunch renderer's.
- `MenuRepo.SampleLunchMenus`: its contract states the sample week's shape, not the dish names and descriptions as text, nor the exact prices (only their bounds, 13.50 to 16.50); those are in the bodies of the per-day methods only, because any proof that can see all of the text becomes too large.
- Name non-emptiness and non-negative prices are not type invariants of `MenuItem`. The code does not enforce them.
