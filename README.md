# Habit-tracker persistence, modelled in Dafny

This project models the persistence layer of a small habit tracker
(`src/lib/storage.ts`). The tracker keeps one record per calendar day: how many
nutrition drinks were finished, how many water servings were drunk, and whether
the pill was taken. It also keeps the state of one running nutrition-drink
countdown. Everything lives in the browser's `localStorage` as JSON text:

| key | value |
|---|---|
| `day-<YYYY-MM-DD>` | `{date, completedNutridrinks, waterServings, pillTaken}` |
| `nutridrinkTimer` | `{startTime}` (the type also allows an optional `pausedTime`) |

Modules:

- `Wrappers` (`wrappers.dfy`): `Option`, standing for the source's `null`.
- `Json` (`json.dfy`): parsed JSON values (`Value`) and their JavaScript
  truthiness. A `Codec` is a pair of conversions standing for
  `JSON.stringify` and `JSON.parse`. `parse` answers `None` where
  `JSON.parse` throws. The text grammar is abstract. The one thing the
  layer relies on is the hypothesis `RoundTrips`: a value a JavaScript
  object can represent stringifies to non-empty text that parses back to
  the same value.
- `WebStorage` (`web_storage.dfy`): `localStorage` as a class `LocalStorage`
  with a `map<string, string>` field and `getItem`, `setItem` and
  `removeItem`. Whether the browser has room for a write is decided outside
  the model. It is passed in as `fits`. A refused write throws, modelled as
  `QuotaExceeded`, and leaves the map unchanged.
- `DateFormat` (`date_format.dfy`): `getTodayDateString`, a pure function of
  the year, zero-based month index and day that the clock would report. It
  includes `String(n)`, with its inverse, and `padStart(2, '0')`, whose
  two-digit result reads back as the month or day.
- `HabitStorage` (`habit_storage.dfy`): the records, the storage keys, and
  pure functions that specify each operation on the old map. Each operation
  of `storage.ts` is a module-level method that takes the `LocalStorage` as a
  parameter. Its `ensures` ties the result and the new map to one of those
  functions.
- `HabitStorageProperties` (`habit_storage_properties.dfy`): what callers can
  rely on, stated as lemmas about those functions:
  - a saved value reads back;
  - corrupted text is deleted and never comes back;
  - empty text is not deleted;
  - `getTodaysData` is idempotent once its write is accepted;
  - each operation touches only its own key.

Behaviour of the code, as modelled:

- `getDataForDay` returns whatever `JSON.parse` produced; the cast to
  `DailyData` is unchecked. A JSON `null` in storage reads exactly like a
  missing record.
- `getTodaysData` tests the result for truthiness. A stored value that parses
  to `null`, `0`, `false` or `""` is replaced by the zero record. Any truthy
  value is returned as today's data, even if it is not a record (a number, an
  array).
- `saveDataForDay` stringifies whatever value it is given. Its declared
  parameter type is not checked at run time, so it can save back a value read
  earlier, record or not. It swallows a refused write.
- `saveNutridrinkTimerState` has no `try`/`catch`, so there a refused write's
  exception reaches the caller.
- The `TimerState` type allows a `pausedTime`, but `saveNutridrinkTimerState`
  writes only `{startTime}`; `TimerStateJson` covers the whole declared type,
  and `SaveTimer` uses it with no pause.
- Only text that is present and non-empty is parsed. Empty text reads as
  null, and its key is left in place.

## Model

| member | source | states |
|---|---|---|
| `Json.FieldOf` | src/lib/storage.ts:3-8 | reading a property of a JSON object: None exactly when no field has that key, otherwise the value of the first field with that key |
| `Json.Truthy` | src/lib/storage.ts:49 | the `!todayData` test: a parsed value is truthy exactly when it is not null, false, 0 or the empty string |
| `WebStorage.LocalStorage.GetItem` | src/lib/storage.ts:21 | `getItem` gives the stored text exactly when the key is present, and null otherwise |
| `WebStorage.LocalStorage.SetItem` | src/lib/storage.ts:37 | `setItem` stores the text under the key and changes nothing else; when refused, it reports the quota error and the map is unchanged |
| `WebStorage.LocalStorage.RemoveItem` | src/lib/storage.ts:27 | `removeItem` deletes exactly that key; removing a missing key does nothing |
| `DateFormat.Digits` | src/lib/storage.ts:13-15 | `String(n)` of a non-negative integer is a non-empty run of digits; it has no leading zero and is one character exactly when n < 10 |
| `DateFormat.DigitsRoundTrip` | src/lib/storage.ts:14-15 | reading the digits of `String(n)` gives back n |
| `DateFormat.IntToString` | src/lib/storage.ts:13-16 | `String(i)` is non-empty and starts with '-' exactly when i is negative |
| `DateFormat.IntRoundTrip` | src/lib/storage.ts:13-16 | the year's text is a decimal integer text that reads back as the year |
| `DateFormat.PadStart` | src/lib/storage.ts:14-15 | `padStart(target, fill)` gives length max(target, length of s): the fill character on the left, then s unchanged at the end |
| `DateFormat.TwoDigitField` | src/lib/storage.ts:14-15 | `String(n).padStart(2, '0')` is at least two characters; for 0..99 it is exactly two digits that read back as n |
| `DateFormat.TodayDateString` | src/lib/storage.ts:11-17 | for month index 0..11 and day 1..31: the year's text, '-', two digits reading monthIndex + 1, '-', two digits reading the day |
| `DateFormat.FourDigitYear` | src/lib/storage.ts:13 | a year from 1000 to 9999 is written with four digits |
| `DateFormat.DateStringLayout` | src/lib/storage.ts:11-16 | for month index 0..11 and day 1..31 the date string has the `YYYY-MM-DD` layout with the month shifted to one-based; length 10 for a four-digit year |
| `DateFormat.DateTextDetermines` | src/lib/storage.ts:16 | a `YYYY-MM-DD` text determines its year, month and day |
| `DateFormat.DateStringInjective` | src/lib/storage.ts:11-16 | different calendar dates give different date strings |
| `HabitStorage.DailyDataJson` | src/lib/storage.ts:3-8 | a day record is a truthy JSON object with four distinct keys, none an array index; the first field is `date`, and looking up `date`, `completedNutridrinks`, `waterServings` and `pillTaken` gives the record's date string, its two counts as numbers and its pill flag as a boolean |
| `HabitStorage.TimerStateJson` | src/lib/storage.ts:63-66 | a timer state is a truthy JSON object whose `startTime` field is the start time; its `pausedTime` field is present exactly when the state has a pause, and holds it; without a pause the object is exactly `{startTime}` |
| `HabitStorage.FreshRecord` | src/lib/storage.ts:50-55 | the record created for a day with nothing logged is the JSON object `{date: today, completedNutridrinks: 0, waterServings: 0, pillTaken: false}`, in that order |
| `HabitStorage.DayKey` | src/lib/storage.ts:21 | the day key gives back the date after its four-character prefix, and never equals `nutridrinkTimer` |
| `HabitStorage.SelfHealingRead` | src/lib/storage.ts:20-32 | missing or empty text reads as null and the map is unchanged; non-empty text that parses to v reads as v and the map is unchanged; non-empty text that does not parse reads as null and only that key is removed |
| `HabitStorage.SaveDay` | src/lib/storage.ts:35-42 | a save writes the JSON text of the given value under the day's key and nothing else; a refused write leaves the map unchanged |
| `HabitStorage.GetToday` | src/lib/storage.ts:45-59 | getting today touches only today's key; the result is never falsy; a truthy stored value is returned with the map unchanged |
| `HabitStorage.SaveTimer` | src/lib/storage.ts:68-73 | saving the timer writes `{startTime}` text under the fixed key `nutridrinkTimer` and nothing else; a refused write leaves the map unchanged |
| `HabitStorage.GetDataForDay` | src/lib/storage.ts:20-32 | `getDataForDay` returns the value and leaves the map that `SelfHealingRead` gives for the day's key |
| `HabitStorage.SaveDataForDay` | src/lib/storage.ts:35-42 | `saveDataForDay` leaves the map `SaveDay` gives, and the caller never sees a refused write |
| `HabitStorage.GetTodaysData` | src/lib/storage.ts:45-59 | `getTodaysData` for the clock's date returns the value and leaves the map `GetToday` gives; the result is truthy |
| `HabitStorage.SaveNutridrinkTimerState` | src/lib/storage.ts:70-73 | `saveNutridrinkTimerState` leaves the map `SaveTimer` gives; a refused write reaches the caller as `QuotaExceeded` |
| `HabitStorage.GetNutridrinkTimerState` | src/lib/storage.ts:75-87 | `getNutridrinkTimerState` returns the value and leaves the map `SelfHealingRead` gives for the timer key |
| `HabitStorage.ClearTimer` | src/lib/storage.ts:89-91 | after clearing, the timer key is absent, every other key is still present and maps to the same text |
| `HabitStorage.ClearNutridrinkTimerState` | src/lib/storage.ts:89-91 | `clearNutridrinkTimerState` leaves the store as `ClearTimer` describes: the timer key removed and nothing else |
| `HabitStorageProperties.SaveThenGetDay` | src/lib/storage.ts:20-42 | if JSON round-trips, any saved value that a JavaScript object can represent (every record included) reads back as written, and the read leaves the map unchanged |
| `HabitStorageProperties.CorruptDayHeals` | src/lib/storage.ts:22-28 | non-empty text that does not parse reads as null and its key is removed; a second read is null and changes nothing |
| `HabitStorageProperties.MissingOrEmptyDayReadsNull` | src/lib/storage.ts:21-31 | a missing day, or one holding the empty string, reads as null and the map is unchanged (the empty string is not deleted) |
| `HabitStorageProperties.DayOpsKeepTimer` | src/lib/storage.ts:20-58 | reading or saving a day, and getting today, leave the `nutridrinkTimer` entry unchanged |
| `HabitStorageProperties.DayOpsKeepOtherDays` | src/lib/storage.ts:20-58 | reading or saving a day, and getting today, leave every other day's entry unchanged |
| `HabitStorageProperties.FreshTodayRecord` | src/lib/storage.ts:45-58 | if JSON round-trips and the write is accepted: with no usable record, getting today returns `{date: today, completedNutridrinks: 0, waterServings: 0, pillTaken: false}` and stores text that parses back to it under today's key |
| `HabitStorageProperties.GetTodayIdempotent` | src/lib/storage.ts:45-58 | if JSON round-trips and the first call's write is accepted, a second `getTodaysData` with no writes in between returns the same value and writes nothing |
| `HabitStorageProperties.RefusedTodayWrite` | src/lib/storage.ts:45-58 | when the write is refused, the zero record is still returned but nothing is stored for today |
| `HabitStorageProperties.TruthyStoredValueReturned` | src/lib/storage.ts:20-49 | any truthy parsed value, record or not, is returned as today's data and the map is unchanged |
| `HabitStorageProperties.FalsyStoredValueReplaced` | src/lib/storage.ts:45-58 | a stored value that parses to a falsy value is overwritten by the zero record's text when the write is accepted |
| `HabitStorageProperties.DistinctDaysDistinctKeys` | src/lib/storage.ts:11-21 | two different calendar days are stored under two different keys |
| `HabitStorageProperties.SaveThenGetTimer` | src/lib/storage.ts:70-79 | if JSON round-trips, a saved timer reads back as `{startTime: t}` with no `pausedTime`, and the read changes nothing |
| `HabitStorageProperties.SecondTimerSaveReplacesFirst` | src/lib/storage.ts:70-73 | a second accepted timer save leaves the same map as if the first save had not happened |
| `HabitStorageProperties.ClearTimerIdempotent` | src/lib/storage.ts:70-91 | `ClearTimer` is idempotent; clearing after a save (written or refused) gives the same store as clearing without it; after clearing, the timer reads as null and nothing changes |
| `HabitStorageProperties.CorruptTimerHeals` | src/lib/storage.ts:75-86 | non-empty timer text that does not parse reads as null and is removed; a second read is null and changes nothing |
| `HabitStorageProperties.TimerOpsKeepDays` | src/lib/storage.ts:68-91 | saving, reading or clearing the timer leaves every `day-` entry unchanged |

## Left out

- The JSON text grammar and any concrete `JSON.stringify` / `JSON.parse` are not modelled. The codec is abstract, and read-back properties assume `RoundTrips`. The model does not show that such a codec exists.
- `RoundTrips` covers only values whose object keys are distinct and not array indices. JavaScript objects cannot keep duplicate keys, and they move index keys to the front. The records this layer writes satisfy this condition.
- Numbers are integers. Floating-point values, `-0`, and `NaN` and `Infinity` (which `JSON.stringify` writes as `null`) are not modelled.
- `padStart` is modelled only with a one-character fill, which is the only fill the source uses.
- The clock (`new Date()`) is not modelled. Its year, month index and day are parameters.
- How the browser decides that storage is full is not modelled. Only its verdict is, as the `fits` parameter.
- `JSON.stringify` throwing (BigInt values, cycles) is not modelled. It cannot happen for the two shapes written here.
- `console.error` logging is a side effect with no bearing on the stored state.
- The Svelte `writable` import and the commented-out store are framework glue and are not used.
- `vite.config.ts` is build configuration with no logic.
- Other tabs writing to the same storage at the same time are not modelled. The code does not coordinate with them, and the model is single-threaded.
