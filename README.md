# Zenit personal-finance dashboard: data layer model

A Dafny model of the two pieces of data logic in the service layer of the
Zenit dashboard (credit cards, transactions, goals, planned expenses,
investment allocations and returns):

- **The local keyed-list store** (`src/services/localStore.ts`). A browser
  key-value storage holds three lists of records keyed by a string `id`
  (`planned_expenses`, `investment_allocations`, `investment_returns`) and
  one alert-settings object (`alerts`). Reads fall back to hard-coded
  defaults. An upsert replaces the first entry with the item's id or appends
  the item. A delete drops every entry with the id. Each mutation reads the
  list, computes the new one and writes it back under its own key. The
  storage is the class `LocalStore.Store`, whose field is a
  `map<string, Stored>`. Its methods are proved against the pure functions
  `Upserted` and `Deleted`, and the lemmas prove what those functions
  guarantee.
- **The backend data-access layer** (`src/services/db.ts`). The pure
  mappers turn backend rows (snake_case columns, SQL null) into view models.
  `queryTransactions` builds a paginated, filtered query. Guarded writes
  need a signed-in user. `fetchAlertSettings` falls back to a fixed default.
  Every call re-raises the backend's error. The remote backend is an oracle,
  the datatype `DataAccess.Backend`. It says who is signed in, which error a
  write gets, and what each read returns. Each write function returns the
  writes it issued together with its outcome, so "fails before writing"
  can be stated.

Modules: `Common` (Option, Nullable, Result), `Entities` (view models),
`KeyedList` (`withId` and the delete filter), `LocalStore`, `Mappers`
(rows and mappers), `Requests` (write requests and the transaction query),
`DataAccess` (the data-access functions).

Notes on the source:
- `src/app/types.ts` declares none of the entity types that the services
  import. The entity types in `Entities` are built from the row shapes and
  the mapper outputs in `src/services/db.ts`.
- `mapProfile` keeps null as null. `mapTransaction` turns a null `subtitle`
  or `category` into an absent value. `mapCreditCard`, `mapAllocation` and
  `mapReturn` turn a null style into `default`. The model keeps the
  difference: `Nullable` is SQL null and `Option` is an absent property.
- Card styles are `default | alt | dark` and investment styles are
  `default | alt | soft`. They are the subset types `Entities.CardStyle`
  and `Entities.InvestmentStyle` of one `Entities.Style`.
- `fetchAlertSettings` never returns null. With no row it returns the
  default `{limitPercent: 70, subscriptionsBudget: 210}`.
- Field names: `type` becomes `kind` and `label` becomes `labelText`,
  because both words are Dafny keywords.

## Model

| member | source | states |
|---|---|---|
| KeyedList.FindIndex | src/services/localStore.ts:37 | the result is -1 exactly when no entry has the id; otherwise it is the first index whose entry has the id |
| KeyedList.WithId | src/services/localStore.ts:36-44 | with no entry of the item's id the result is the list with the item appended; otherwise, at the first match, the length is kept, that index holds the item and every other index, later duplicates included, is unchanged |
| KeyedList.Without | src/services/localStore.ts:71 | no entry of the result has the id; every result entry comes from the list; every entry with another id is kept |
| KeyedList.WithIdLengthNew | src/services/localStore.ts:38-40 | an item with a new id grows the list by one and ends up last |
| KeyedList.WithIdLengthExisting | src/services/localStore.ts:41-43 | an item whose id is present leaves the length unchanged |
| KeyedList.WithIdContains | src/services/localStore.ts:36-44 | after an upsert the list contains the item |
| KeyedList.WithIdIdempotent | src/services/localStore.ts:36-44 | upserting the same item twice equals upserting it once |
| KeyedList.WithIdIds | src/services/localStore.ts:36-44 | the set of ids after an upsert is the set before plus the item's id |
| KeyedList.WithIdKeepsUnique | src/services/localStore.ts:36-44 | an upsert keeps ids unique |
| KeyedList.WithoutConcat | src/services/localStore.ts:71 | the filter distributes over concatenation, so survivors keep their original order |
| KeyedList.WithoutUnchanged | src/services/localStore.ts:71 | the filter leaves a list unchanged if and only if no entry has the id |
| KeyedList.WithoutUpdateMatching | src/services/localStore.ts:41-43 | replacing one matching entry by another matching entry does not change the filtered list |
| KeyedList.WithoutAfterWithId | src/services/localStore.ts:36-44 | deleting an id after upserting an item with it equals deleting it outright |
| KeyedList.WithoutKeepsUnique | src/services/localStore.ts:71 | the filter keeps ids unique |
| LocalStore.ReadJson | src/services/localStore.ts:22-30 | a missing key, an empty value or an unparseable value gives the fallback; otherwise the parsed value |
| LocalStore.AlertsIn | src/services/localStore.ts:46-51 | fresh storage reads as the default alert settings |
| LocalStore.Upserted | src/services/localStore.ts:65-68 | an upsert writes only the kind's key; every other key keeps its value |
| LocalStore.Deleted | src/services/localStore.ts:70-73 | a delete writes only the kind's key; every other key keeps its value |
| LocalStore.Store.WriteJson | src/services/localStore.ts:32-34 | one key is set and nothing else changes |
| LocalStore.Store.GetAlertSettings | src/services/localStore.ts:46-51 | with no `alerts` key the result is `{70, 210}` |
| LocalStore.Store.SaveAlertSettings | src/services/localStore.ts:53-55 | only `alerts` is written, and reading it back gives the saved settings |
| LocalStore.Store.GetPlannedExpenses | src/services/localStore.ts:57-63 | with no key the result is the three default planned expenses |
| LocalStore.Store.GetInvestmentAllocations | src/services/localStore.ts:75-81 | with no key the result is the three default allocations |
| LocalStore.Store.GetInvestmentReturns | src/services/localStore.ts:93-98 | with no key the result is the two default returns |
| LocalStore.Store.Upsert | src/services/localStore.ts:65-68 | read the list, upsert by id, write it back: the new storage is `Upserted` of the old |
| LocalStore.Store.Delete | src/services/localStore.ts:70-73 | read the list, filter out the id, write it back: the new storage is `Deleted` of the old |
| LocalStore.Store.UpsertPlannedExpense | src/services/localStore.ts:65-68 | the new storage is the old one with the planned-expense list upserted |
| LocalStore.Store.DeletePlannedExpense | src/services/localStore.ts:70-73 | the new storage is the old one with the id filtered out of the planned-expense list |
| LocalStore.Store.UpsertInvestmentAllocation | src/services/localStore.ts:83-86 | the new storage is the old one with the allocation list upserted |
| LocalStore.Store.DeleteInvestmentAllocation | src/services/localStore.ts:88-91 | the new storage is the old one with the id filtered out of the allocation list |
| LocalStore.Store.UpsertInvestmentReturn | src/services/localStore.ts:100-103 | the new storage is the old one with the return list upserted |
| LocalStore.Store.DeleteInvestmentReturn | src/services/localStore.ts:105-108 | the new storage is the old one with the id filtered out of the return list |
| LocalStore.KindsRoundTrip | src/services/localStore.ts:22-34 | for each list kind, writing a list and parsing it back gives the list, and a written value is never empty |
| LocalStore.ReadListFallback | src/services/localStore.ts:22-30 | a missing, empty or unparseable value reads as the kind's default list |
| LocalStore.ReadAfterWrite | src/services/localStore.ts:22-34 | reading a list back after writing it gives the list written |
| LocalStore.UpsertStoresItem | src/services/localStore.ts:65-68 | the list stored after an upsert contains the item |
| LocalStore.UpsertIdempotent | src/services/localStore.ts:65-68 | upserting the same item twice leaves the same storage as upserting it once |
| LocalStore.DeleteRemovesAll | src/services/localStore.ts:70-73 | the list stored after a delete is the old list filtered, and no entry has the id |
| LocalStore.DeleteAbsentKeepsContents | src/services/localStore.ts:70-73 | deleting an id no entry has leaves the list's contents unchanged |
| LocalStore.DeleteIdempotent | src/services/localStore.ts:70-73 | deleting twice leaves the same storage as deleting once |
| LocalStore.MutationsKeepUnique | src/services/localStore.ts:65-73 | upserts and deletes keep the stored list's ids unique |
| LocalStore.DefaultsUnique | src/services/localStore.ts:57-98 | the hard-coded default lists have unique ids |
| LocalStore.MutationLeavesOtherKeys | src/services/localStore.ts:65-108 | a list mutation leaves every other list, and the alert settings, reading as before |
| LocalStore.FreshAlerts | src/services/localStore.ts:46-51 | fresh storage gives `{limitPercent: 70, subscriptionsBudget: 210}` |
| LocalStore.SaveThenGetAlerts | src/services/localStore.ts:46-55 | reading after a save gives the saved value, and no list changes |
| LocalStore.FreshUpsertMaterialisesDefaults | src/services/localStore.ts:57-68 | upserting a new item into fresh storage stores the three defaults followed by the item |
| LocalStore.FreshDeleteMaterialisesDefaults | src/services/localStore.ts:57-73 | deleting an unknown id on fresh storage writes the default list under its key |
| LocalStore.DeleteUndoesUpsert | src/services/localStore.ts:65-73 | deleting an id after upserting it leaves the same storage as deleting it outright |
| Mappers.MapAll | src/services/db.ts:153 | `rows.map(f)`: same length, and position i holds f of row i |
| Mappers.MapTransaction | src/services/db.ts:72-80 | null `subtitle`/`category` become absent and present ones are kept; id, description, amount and type are copied; `created_at` becomes `createdAt` |
| Mappers.MapCreditCard | src/services/db.ts:82-90 | a null or missing style becomes `Default` and a present one is kept; the other columns are renamed |
| Mappers.MapGoal | src/services/db.ts:92-105 | progress is 0 when the target is 0, otherwise progress × target = current × 100; style is always `Default` |
| Mappers.MapProfile | src/services/db.ts:107-112 | null columns stay null; `avatar_url` becomes `avatarUrl` |
| Mappers.MapPlannedExpense | src/services/db.ts:114-119 | all four columns are copied |
| Mappers.MapInvestment | src/services/db.ts:121-133 | for `mapAllocation` and `mapReturn`: the style is always set, `Default` when the column is null |
| Mappers.GoalReached | src/services/db.ts:92-95 | with a positive target, progress is at least 100 exactly when current reaches target |
| Mappers.GoalProgressSign | src/services/db.ts:92-95 | with a positive target, progress is non-negative exactly when current is |
| Requests.BuildTransactionQuery | src/services/db.ts:164-186 | the range is `from = (page-1)·pageSize` to `from + pageSize - 1`, with page 1 and size 10 by default, so it holds exactly pageSize rows; there is exactly one filter per truthy parameter, carrying its value, and no other filter |
| Requests.DefaultQuery | src/services/db.ts:164-167 | with no parameters the query covers rows 0 to 9 and has no filters |
| Requests.EmptyStringsAddNothing | src/services/db.ts:175-186 | empty-string parameters add no filter |
| Requests.PagesAdjacent | src/services/db.ts:166-167 | page p+1 starts on the row after page p's last row |
| Requests.PagesDisjoint | src/services/db.ts:166-167 | with a positive page size, distinct pages do not overlap |
| Requests.RowOnExactlyOnePage | src/services/db.ts:166-173 | with a positive page size, every row index from 0 lies on exactly one page, `row / pageSize + 1`: no gaps and no overlaps |
| DataAccess.GetUserId | src/services/db.ts:135-141 | fails with "Usuario nao autenticado." exactly when nobody is signed in; otherwise gives the user's id |
| DataAccess.Send | src/services/db.ts:218-220 | one write is issued; the call fails exactly when the backend reports an error, and then with that error |
| DataAccess.FetchAll | src/services/db.ts:149-153 | a backend error is re-raised; otherwise every row is mapped, in order |
| DataAccess.TransactionColumnsOf | src/services/db.ts:208-216 | absent subtitle and category are written as null |
| DataAccess.CreditCardColumnsOf | src/services/db.ts:276-284 | the payload's name, holder, digits and amounts are sent; an absent style is written as `Default` |
| DataAccess.GoalColumnsOf | src/services/db.ts:341-346 | the user id, title, target and current amounts of the payload are sent |
| DataAccess.PlannedExpenseColumnsOf | src/services/db.ts:466-471 | the user id, title, amount and frequency of the payload are sent |
| DataAccess.InvestmentColumnsOf | src/services/db.ts:523-529 | the payload id and the user id are sent; an absent style is written as `Default` |
| DataAccess.FetchTransactions | src/services/db.ts:143-154 | fails exactly when the backend does; otherwise gives the rows mapped |
| DataAccess.QueryTransactions | src/services/db.ts:156-197 | sends the query built from the parameters; re-raises the backend error; otherwise gives the mapped rows and the count, 0 when the backend gives none |
| DataAccess.CreateTransaction | src/services/db.ts:199-221 | with nobody signed in, issues nothing and fails unauthenticated; otherwise inserts the payload as that user |
| DataAccess.UpdateTransaction | src/services/db.ts:223-247 | with no guard, issues one update of the row with the id; fails exactly when the backend reports an error |
| DataAccess.DeleteTransaction | src/services/db.ts:249-255 | issues one delete of the row with the id; fails exactly when the backend reports an error |
| DataAccess.FetchCreditCards | src/services/db.ts:257-265 | fails exactly when the backend does; otherwise gives the rows mapped |
| DataAccess.CreateCreditCard | src/services/db.ts:267-289 | with nobody signed in, issues nothing and fails; otherwise inserts the payload as that user |
| DataAccess.UpdateCreditCard | src/services/db.ts:291-315 | issues one update of the row with the id; fails exactly when the backend reports an error |
| DataAccess.DeleteCreditCard | src/services/db.ts:317-323 | issues one delete of the row with the id; fails exactly when the backend reports an error |
| DataAccess.FetchGoals | src/services/db.ts:325-333 | fails exactly when the backend does; otherwise gives the rows mapped |
| DataAccess.CreateGoal | src/services/db.ts:335-351 | with nobody signed in, issues nothing and fails; otherwise inserts the payload as that user |
| DataAccess.UpdateGoal | src/services/db.ts:353-371 | issues one update of the row with the id; fails exactly when the backend reports an error |
| DataAccess.DeleteGoal | src/services/db.ts:373-379 | issues one delete of the row with the id; fails exactly when the backend reports an error |
| DataAccess.FetchProfile | src/services/db.ts:381-393 | fails exactly when the single-row read fails, re-raising that read's error; otherwise gives the row mapped |
| DataAccess.UpdateProfile | src/services/db.ts:395-408 | issues one update of name and email; fails exactly when the backend reports an error |
| DataAccess.FetchAlertSettings | src/services/db.ts:410-434 | with nobody signed in, fails unauthenticated; re-raises a backend error; with no row gives exactly `{70, 210}`; with a row gives its two columns |
| DataAccess.UpsertAlertSettings | src/services/db.ts:436-450 | with nobody signed in, issues nothing and fails; otherwise upserts the settings as that user |
| DataAccess.FetchPlannedExpenses | src/services/db.ts:452-458 | fails exactly when the backend does; otherwise gives the rows mapped |
| DataAccess.CreatePlannedExpense | src/services/db.ts:460-475 | with nobody signed in, issues nothing and fails; otherwise inserts the payload as that user |
| DataAccess.UpdatePlannedExpense | src/services/db.ts:477-494 | issues one update of the row with the id; fails exactly when the backend reports an error |
| DataAccess.DeletePlannedExpense | src/services/db.ts:496-504 | issues one delete of the row with the id; fails exactly when the backend reports an error |
| DataAccess.FetchInvestmentAllocations | src/services/db.ts:506-514 | fails exactly when the backend does; otherwise gives the rows mapped |
| DataAccess.UpsertInvestmentAllocation | src/services/db.ts:516-533 | with nobody signed in, issues nothing and fails; otherwise upserts the payload, style defaulted, as that user |
| DataAccess.DeleteInvestmentAllocation | src/services/db.ts:535-543 | issues one delete of the row with the id; fails exactly when the backend reports an error |
| DataAccess.FetchInvestmentReturns | src/services/db.ts:545-553 | fails exactly when the backend does; otherwise gives the rows mapped |
| DataAccess.UpsertInvestmentReturn | src/services/db.ts:555-572 | with nobody signed in, issues nothing and fails; otherwise upserts the payload, style defaulted, as that user |
| DataAccess.DeleteInvestmentReturn | src/services/db.ts:574-582 | issues one delete of the row with the id; fails exactly when the backend reports an error |
| DataAccess.CreatedTransactionReadsBack | src/services/db.ts:199-221 | a created transaction, stored and read back through `mapTransaction`, gives the payload: absent optionals went out as null and come back absent |
| DataAccess.MercadoScenario | src/services/db.ts:199-221 | the expense "Mercado" of -50, read back, has amount -50 and type expense |
| DataAccess.CreatedCardStyle | src/services/db.ts:267-289 | the write default and the read default agree: a card created without a style reads back as `Default` |
| DataAccess.UpsertedInvestmentReadsBack | src/services/db.ts:516-533 | an upserted investment entry reads back with its payload and a style that is always set |
| DataAccess.AlertSettingsRoundTrip | src/services/db.ts:410-450 | settings that were upserted and are now held by the backend are what the next fetch returns |
| DataAccess.GuardedWritesNeedUser | src/services/db.ts:135-141 | with nobody signed in, every create and upsert issues nothing and fails, and so does `fetchAlertSettings`, all with "Usuario nao autenticado." |

## Left out

- The remote client and its library: the client handle, auth calls, the query builder, `ilike` matching, date-string comparison, ordering and `range` semantics. The backend is the oracle `DataAccess.Backend`.
- Backend state between calls: one `Backend` value answers every call. A write that changes what a later read returns is stated through the `Stored…` functions of `DataAccess`. They assume the table keeps the written columns and fills in the id and the default `created_at`. So "delete a card, then fetch: the id is gone" is not modelled.
- The error the auth call can return is ignored by the source. The model has only "a user or none".
- `JSON.parse`/`JSON.stringify` and `window.localStorage`: stored values are the datatype `LocalStore.Stored`, and unparseable text is the variant `Garbled`.
- LocalStore.ReadJson: a value that parses but has another shape (including the JSON text `null`) is read as the fallback. The source returns such a value unchecked, cast to the expected type.
- Floating point: amounts and percentages are exact reals. `Number(...)` coercion, NaN, and the rounding of `current / target * 100` are not modelled. Only the zero-target guard of `mapGoal` is kept exactly.
- Non-integer or NaN `page`/`pageSize`: these are integers in the model.
- async/await sequencing and the ordering of in-flight calls.
- All pages, components and the app shell (`src/pages`, `src/components`, `src/app/App.tsx`, `src/main.tsx`, `legacy/app.js`), which includes the CSV export. Also the static data and declarations (`src/app/mocks.ts`, `src/data/navigation.ts`, `src/app/types.ts`).
- KeyedList.WithId: `withId` spreads the input into a new array and assigns one index of the copy. In the model the list is an immutable sequence, so "the input is never modified" holds by construction and is not a separate contract.
- The upsert of alert settings (src/services/db.ts:441-445) sends neither an `id` nor a conflict target. Whether a second save updates the existing row therefore depends on a table schema that is not shown. If `id` is the key, a second row may appear, and `maybeSingle()` (src/services/db.ts:416) then raises an error. `DataAccess.AlertSettingsRoundTrip` assumes the backend holds the one row `DataAccess.StoredAlertSettings` builds from the upserted columns.
