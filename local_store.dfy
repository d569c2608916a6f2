/**
 * The per-browser store: a key-value storage holding typed lists of
 * records keyed by id (planned expenses, investment allocations,
 * investment returns) and one alert-settings object.
 */
module LocalStore {
  import opened Common
  import opened Entities
  import opened KeyedList

  /**
   * What a storage key holds, as seen by `JSON.parse`: the empty string,
   * text the parser rejects, or the serialisation of one of the shapes the
   * store writes.
   */
  datatype Stored =
    | Blank
    | Garbled
    | AlertsJson(settings: AlertSettings)
    | PlannedJson(planned: seq<PlannedExpense>)
    | InvestmentsJson(entries: seq<InvestmentEntry>)

  /** `JSON.parse(raw) as T` for each shape; `None` where parsing throws. */
  function ParseAlerts(v: Stored): Option<AlertSettings> {
    if v.AlertsJson? then Some(v.settings) else None
  }

  function ParsePlanned(v: Stored): Option<seq<PlannedExpense>> {
    if v.PlannedJson? then Some(v.planned) else None
  }

  function ParseInvestments(v: Stored): Option<seq<InvestmentEntry>> {
    if v.InvestmentsJson? then Some(v.entries) else None
  }

  /**
   * `readJson(key, fallback)`: a missing key or an empty value gives the
   * fallback, and so does a value that does not parse.
   */
  function ReadJson<T>(storage: map<string, Stored>, key: string, fallback: T,
                       parse: Stored -> Option<T>): (r: T)
    ensures key !in storage ==> r == fallback
    ensures key in storage && storage[key] == Blank ==> r == fallback
    ensures key in storage && parse(storage[key]).None? ==> r == fallback
    ensures key in storage && storage[key] != Blank && parse(storage[key]).Some? ==>
              r == parse(storage[key]).value
  {
    if key !in storage || storage[key] == Blank then fallback
    else match parse(storage[key])
      case None => fallback
      case Some(v) => v
  }

  /** One of the stored lists: its key, its hard-coded default, how it (de)serialises and its id. */
  datatype ListKind<!T> = ListKind(
    key: string,
    defaults: seq<T>,
    parse: Stored -> Option<seq<T>>,
    encode: seq<T> -> Stored,
    idOf: T -> string)

  /** What `JSON.stringify` followed by `JSON.parse` guarantees for the kind. */
  ghost predicate RoundTrips<T(!new)>(k: ListKind<T>) {
    && (forall xs :: k.parse(k.encode(xs)) == Some(xs))
    && (forall xs :: k.encode(xs) != Blank)
    && k.parse(Garbled) == None
  }

  const AlertsKey: string := "alerts"

  const DefaultPlannedExpenses: seq<PlannedExpense> := [
    PlannedExpense("1", "Casa propria", 1200.0, "mes"),
    PlannedExpense("2", "Carro", 900.0, "mes"),
    PlannedExpense("3", "Curso", 350.0, "mes")
  ]

  const DefaultAllocations: seq<InvestmentAllocation> := [
    InvestmentEntry("1", "Renda fixa", 45.0, Some(Default)),
    InvestmentEntry("2", "Fundos imobiliarios", 28.0, Some(Alt)),
    InvestmentEntry("3", "Acoes", 27.0, Some(Soft))
  ]

  const DefaultReturns: seq<InvestmentReturn> := [
    InvestmentEntry("1", "12 meses", 14.2, Some(Default)),
    InvestmentEntry("2", "24 meses", 22.9, Some(Soft))
  ]

  const PlannedExpensesKind: ListKind<PlannedExpense> := ListKind(
    "planned_expenses", DefaultPlannedExpenses, ParsePlanned,
    (xs: seq<PlannedExpense>) => PlannedJson(xs), (e: PlannedExpense) => e.id)

  const AllocationsKind: ListKind<InvestmentAllocation> := ListKind(
    "investment_allocations", DefaultAllocations, ParseInvestments,
    (xs: seq<InvestmentAllocation>) => InvestmentsJson(xs), (e: InvestmentAllocation) => e.id)

  const ReturnsKind: ListKind<InvestmentReturn> := ListKind(
    "investment_returns", DefaultReturns, ParseInvestments,
    (xs: seq<InvestmentReturn>) => InvestmentsJson(xs), (e: InvestmentReturn) => e.id)

  /** The list a kind reads from `storage` (`getPlannedExpenses` and friends). */
  function ReadList<T>(storage: map<string, Stored>, k: ListKind<T>): seq<T> {
    ReadJson(storage, k.key, k.defaults, k.parse)
  }

  /** The alert settings read from `storage` (`getAlertSettings`). */
  function AlertsIn(storage: map<string, Stored>): (r: AlertSettings)
    ensures AlertsKey !in storage ==> r == DefaultAlertSettings
  {
    ReadJson(storage, AlertsKey, DefaultAlertSettings, ParseAlerts)
  }

  /** The storage after an upsert: read the list, upsert by id, write it back under its key. */
  function Upserted<T>(storage: map<string, Stored>, k: ListKind<T>, item: T): (r: map<string, Stored>)
    ensures r.Keys == storage.Keys + {k.key}
    ensures forall key :: key in storage && key != k.key ==> r[key] == storage[key]
  {
    storage[k.key := k.encode(WithId(ReadList(storage, k), item, k.idOf))]
  }

  /** The storage after a delete: read the list, drop the id, write it back under its key. */
  function Deleted<T>(storage: map<string, Stored>, k: ListKind<T>, id: string): (r: map<string, Stored>)
    ensures r.Keys == storage.Keys + {k.key}
    ensures forall key :: key in storage && key != k.key ==> r[key] == storage[key]
  {
    storage[k.key := k.encode(Without(ReadList(storage, k), id, k.idOf))]
  }

  /** `window.localStorage` with the operations of the local store. */
  class Store {
    var storage: map<string, Stored>

    /** Fresh storage: no key is set. */
    constructor ()
      ensures storage == map[]
    {
      storage := map[];
    }

    /** `writeJson(key, value)`: sets one key. */
    method WriteJson(key: string, value: Stored)
      modifies this
      ensures storage == old(storage)[key := value]
    {
      storage := storage[key := value];
    }

    function GetAlertSettings(): (r: AlertSettings)
      reads this
      ensures AlertsKey !in storage ==> r == DefaultAlertSettings
    {
      AlertsIn(storage)
    }

    method SaveAlertSettings(settings: AlertSettings)
      modifies this
      ensures storage == old(storage)[AlertsKey := AlertsJson(settings)]
      ensures GetAlertSettings() == settings
    {
      WriteJson(AlertsKey, AlertsJson(settings));
    }

    function GetPlannedExpenses(): (r: seq<PlannedExpense>)
      reads this
      ensures PlannedExpensesKind.key !in storage ==> r == DefaultPlannedExpenses
    {
      ReadList(storage, PlannedExpensesKind)
    }

    function GetInvestmentAllocations(): (r: seq<InvestmentAllocation>)
      reads this
      ensures AllocationsKind.key !in storage ==> r == DefaultAllocations
    {
      ReadList(storage, AllocationsKind)
    }

    function GetInvestmentReturns(): (r: seq<InvestmentReturn>)
      reads this
      ensures ReturnsKind.key !in storage ==> r == DefaultReturns
    {
      ReadList(storage, ReturnsKind)
    }

    /** Read the kind's list, upsert `item` by id, write the list back. */
    method Upsert<T>(k: ListKind<T>, item: T)
      modifies this
      ensures storage == Upserted(old(storage), k, item)
    {
      var list := ReadList(storage, k);
      WriteJson(k.key, k.encode(WithId(list, item, k.idOf)));
    }

    /** Read the kind's list, drop every entry with `id`, write the list back. */
    method Delete<T>(k: ListKind<T>, id: string)
      modifies this
      ensures storage == Deleted(old(storage), k, id)
    {
      var list := Without(ReadList(storage, k), id, k.idOf);
      WriteJson(k.key, k.encode(list));
    }

    method UpsertPlannedExpense(item: PlannedExpense)
      modifies this
      ensures storage == Upserted(old(storage), PlannedExpensesKind, item)
    {
      Upsert(PlannedExpensesKind, item);
    }

    method DeletePlannedExpense(id: string)
      modifies this
      ensures storage == Deleted(old(storage), PlannedExpensesKind, id)
    {
      Delete(PlannedExpensesKind, id);
    }

    method UpsertInvestmentAllocation(item: InvestmentAllocation)
      modifies this
      ensures storage == Upserted(old(storage), AllocationsKind, item)
    {
      Upsert(AllocationsKind, item);
    }

    method DeleteInvestmentAllocation(id: string)
      modifies this
      ensures storage == Deleted(old(storage), AllocationsKind, id)
    {
      Delete(AllocationsKind, id);
    }

    method UpsertInvestmentReturn(item: InvestmentReturn)
      modifies this
      ensures storage == Upserted(old(storage), ReturnsKind, item)
    {
      Upsert(ReturnsKind, item);
    }

    method DeleteInvestmentReturn(id: string)
      modifies this
      ensures storage == Deleted(old(storage), ReturnsKind, id)
    {
      Delete(ReturnsKind, id);
    }
  }

  // ---------------------------------------------------------------------
  // Properties of the store

  /** The three stored kinds serialise faithfully. */
  lemma KindsRoundTrip()
    ensures RoundTrips(PlannedExpensesKind)
    ensures RoundTrips(AllocationsKind)
    ensures RoundTrips(ReturnsKind)
  {
  }

  /** A missing key, an empty value or unparseable text reads as the default list. */
  lemma ReadListFallback<T(!new)>(storage: map<string, Stored>, k: ListKind<T>)
    requires RoundTrips(k)
    requires k.key !in storage || storage[k.key] == Blank || storage[k.key] == Garbled
    ensures ReadList(storage, k) == k.defaults
  {
  }

  /** Reading a list back after writing it gives the list written. */
  lemma ReadAfterWrite<T(!new)>(storage: map<string, Stored>, k: ListKind<T>, xs: seq<T>)
    requires RoundTrips(k)
    ensures ReadList(storage[k.key := k.encode(xs)], k) == xs
  {
  }

  /** After an upsert the list stored under the kind's key holds the item. */
  lemma UpsertStoresItem<T(!new)>(storage: map<string, Stored>, k: ListKind<T>, item: T)
    requires RoundTrips(k)
    ensures item in ReadList(Upserted(storage, k, item), k)
  {
  }

  /** Upserting the same item twice leaves the storage as upserting it once. */
  lemma UpsertIdempotent<T(!new)>(storage: map<string, Stored>, k: ListKind<T>, item: T)
    requires RoundTrips(k)
    ensures Upserted(Upserted(storage, k, item), k, item) == Upserted(storage, k, item)
  {
    var once := WithId(ReadList(storage, k), item, k.idOf);
    ReadAfterWrite(storage, k, once);
    WithIdIdempotent(ReadList(storage, k), item, k.idOf);
  }

  /** After a delete no entry of the stored list has the id; the others keep their order. */
  lemma DeleteRemovesAll<T(!new)>(storage: map<string, Stored>, k: ListKind<T>, id: string)
    requires RoundTrips(k)
    ensures ReadList(Deleted(storage, k, id), k) == Without(ReadList(storage, k), id, k.idOf)
    ensures Absent(ReadList(Deleted(storage, k, id), k), id, k.idOf)
  {
  }

  /** Deleting an id that no entry has leaves the list's contents as they were. */
  lemma DeleteAbsentKeepsContents<T(!new)>(storage: map<string, Stored>, k: ListKind<T>, id: string)
    requires RoundTrips(k)
    requires Absent(ReadList(storage, k), id, k.idOf)
    ensures ReadList(Deleted(storage, k, id), k) == ReadList(storage, k)
  {
    DeleteRemovesAll(storage, k, id);
    WithoutUnchanged(ReadList(storage, k), id, k.idOf);
  }

  /** Deleting twice is deleting once. */
  lemma DeleteIdempotent<T(!new)>(storage: map<string, Stored>, k: ListKind<T>, id: string)
    requires RoundTrips(k)
    ensures Deleted(Deleted(storage, k, id), k, id) == Deleted(storage, k, id)
  {
    DeleteRemovesAll(storage, k, id);
    WithoutUnchanged(ReadList(Deleted(storage, k, id), k), id, k.idOf);
  }

  /** Upserts and deletes keep the ids of the stored list unique. */
  lemma MutationsKeepUnique<T(!new)>(storage: map<string, Stored>, k: ListKind<T>, item: T, id: string)
    requires RoundTrips(k)
    requires UniqueIds(ReadList(storage, k), k.idOf)
    ensures UniqueIds(ReadList(Upserted(storage, k, item), k), k.idOf)
    ensures UniqueIds(ReadList(Deleted(storage, k, id), k), k.idOf)
  {
    ReadAfterWrite(storage, k, WithId(ReadList(storage, k), item, k.idOf));
    WithIdKeepsUnique(ReadList(storage, k), item, k.idOf);
    DeleteRemovesAll(storage, k, id);
    WithoutKeepsUnique(ReadList(storage, k), id, k.idOf);
  }

  /** The default lists have unique ids, so fresh storage starts unique. */
  lemma DefaultsUnique()
    ensures UniqueIds(DefaultPlannedExpenses, PlannedExpensesKind.idOf)
    ensures UniqueIds(DefaultAllocations, AllocationsKind.idOf)
    ensures UniqueIds(DefaultReturns, ReturnsKind.idOf)
  {
  }

  /** A mutation of one list leaves every other key's reading unchanged. */
  lemma MutationLeavesOtherKeys<T, U>(storage: map<string, Stored>, k: ListKind<T>, other: ListKind<U>,
                                      item: T, id: string)
    requires other.key != k.key
    ensures ReadList(Upserted(storage, k, item), other) == ReadList(storage, other)
    ensures ReadList(Deleted(storage, k, id), other) == ReadList(storage, other)
    ensures k.key != AlertsKey ==> AlertsIn(Upserted(storage, k, item)) == AlertsIn(storage)
    ensures k.key != AlertsKey ==> AlertsIn(Deleted(storage, k, id)) == AlertsIn(storage)
  {
  }

  /** Fresh storage reads as the default alert settings `{70, 210}`. */
  lemma FreshAlerts()
    ensures AlertsIn(map[]) == AlertSettings(70.0, 210.0)
  {
  }

  /** Saving alert settings then reading them gives the saved value, and touches no list. */
  lemma SaveThenGetAlerts<T>(storage: map<string, Stored>, settings: AlertSettings, k: ListKind<T>)
    requires k.key != AlertsKey
    ensures AlertsIn(storage[AlertsKey := AlertsJson(settings)]) == settings
    ensures ReadList(storage[AlertsKey := AlertsJson(settings)], k) == ReadList(storage, k)
  {
  }

  /** Upserting a new planned expense into fresh storage stores the three defaults plus the item. */
  lemma FreshUpsertMaterialisesDefaults(item: PlannedExpense)
    requires item.id != "1" && item.id != "2" && item.id != "3"
    ensures Upserted(map[], PlannedExpensesKind, item)
            == map["planned_expenses" := PlannedJson(DefaultPlannedExpenses + [item])]
  {
  }

  /** Deleting an unknown id on fresh storage writes the default list under its key. */
  lemma FreshDeleteMaterialisesDefaults(id: string)
    requires id != "1" && id != "2" && id != "3"
    ensures Deleted(map[], PlannedExpensesKind, id)
            == map["planned_expenses" := PlannedJson(DefaultPlannedExpenses)]
  {
    assert Absent(DefaultPlannedExpenses, id, PlannedExpensesKind.idOf);
    WithoutUnchanged(DefaultPlannedExpenses, id, PlannedExpensesKind.idOf);
  }

  /** Deleting an id after upserting it is the same as deleting it outright. */
  lemma DeleteUndoesUpsert<T(!new)>(storage: map<string, Stored>, k: ListKind<T>, item: T)
    requires RoundTrips(k)
    ensures Deleted(Upserted(storage, k, item), k, k.idOf(item)) == Deleted(storage, k, k.idOf(item))
  {
    ReadAfterWrite(storage, k, WithId(ReadList(storage, k), item, k.idOf));
    WithoutAfterWithId(ReadList(storage, k), item, k.idOf);
  }
}
