/**
 * The persistence layer of the habit tracker (src/lib/storage.ts): one record
 * per day under `day-<date>` and the state of the nutrition-drink countdown
 * under `nutridrinkTimer`, both as JSON text in `localStorage`.
 *
 * Each operation is a module-level method taking the `ls: LocalStorage` it
 * reads and writes; its contract ties the result and the new store to a pure
 * function of the old store, and the
 * properties the tracker relies on are stated about those functions.
 */
module HabitStorage {
  import opened Wrappers
  import opened Json
  import opened WebStorage
  import DateFormat

  /** One day's log, as the `DailyData` interface declares it. */
  datatype DailyData = DailyData(date: string, completedNutridrinks: int, waterServings: int, pillTaken: bool)

  /** A running countdown: when it started and, optionally, when it was paused. */
  datatype TimerState = TimerState(startTime: int, pausedTime: Option<int>)

  /** The JSON object `JSON.stringify` sees for a day record, fields in declaration order. */
  function DailyDataJson(d: DailyData): (v: Value)
    ensures WellFormed(v) && Truthy(v)
    ensures v.Obj? && |v.fields| == 4 && v.fields[0] == ("date", Str(d.date))
    ensures FieldOf(v.fields, "date") == Some(Str(d.date))
    ensures FieldOf(v.fields, "completedNutridrinks") == Some(Num(d.completedNutridrinks))
    ensures FieldOf(v.fields, "waterServings") == Some(Num(d.waterServings))
    ensures FieldOf(v.fields, "pillTaken") == Some(Bool(d.pillTaken))
  {
    var fields := [("date", Str(d.date)),
                   ("completedNutridrinks", Num(d.completedNutridrinks)),
                   ("waterServings", Num(d.waterServings)),
                   ("pillTaken", Bool(d.pillTaken))];
    FlatObjectWellFormed(fields);
    FieldOfDistinctKeys(fields, 0);
    FieldOfDistinctKeys(fields, 1);
    FieldOfDistinctKeys(fields, 2);
    FieldOfDistinctKeys(fields, 3);
    Obj(fields)
  }

  /** The JSON object for a timer state; an absent `pausedTime` is left out, as `JSON.stringify` does. */
  function TimerStateJson(t: TimerState): (v: Value)
    ensures WellFormed(v) && Truthy(v)
    ensures t.pausedTime.None? ==> v == Obj([("startTime", Num(t.startTime))])
    ensures v.Obj? && FieldOf(v.fields, "startTime") == Some(Num(t.startTime))
    ensures FieldOf(v.fields, "pausedTime") == if t.pausedTime.Some? then Some(Num(t.pausedTime.value)) else None
  {
    var fields := [("startTime", Num(t.startTime))] +
                  (if t.pausedTime.Some? then [("pausedTime", Num(t.pausedTime.value))] else []);
    FlatObjectWellFormed(fields);
    Obj(fields)
  }

  /** The record `getTodaysData` creates for a day with nothing logged. */
  function FreshRecord(today: string): (d: DailyData)
    ensures DailyDataJson(d) == Obj([("date", Str(today)), ("completedNutridrinks", Num(0)),
                                     ("waterServings", Num(0)), ("pillTaken", Bool(false))])
  {
    DailyData(today, 0, 0, false)
  }

  const TimerKey: string := "nutridrinkTimer"

  /** The storage key of a day: never the timer's key, and the date can be read back from it. */
  function DayKey(date: string): (k: string)
    ensures |k| == |date| + 4 && k[4..] == date
    ensures k != TimerKey
  {
    var k := "day-" + date;
    assert k[0] != TimerKey[0];
    k
  }

  /** What a read returns, and the store it leaves behind. */
  datatype ReadResult = ReadResult(value: Value, items: map<string, string>)

  /**
   * The read both getters share: text that is missing or empty reads as null and
   * leaves the store alone; text that parses is returned as parsed; text that
   * does not parse reads as null and its key is removed.
   */
  function SelfHealingRead(json: Codec, items: map<string, string>, key: string): (r: ReadResult)
    // Summary: only `key` can change, it is at most removed, a non-null value is
    // what the stored text parses to, and removal happens only for unparsable text.
    ensures r.items - {key} == items - {key}
    ensures r.items == items || r.items == items - {key}
    ensures r.value != Null ==> key in items && json.parse(items[key]) == Some(r.value)
    ensures key in items && key !in r.items ==> items[key] != "" && json.parse(items[key]) == None && r.value == Null
    // The three cases in full.
    ensures key !in items || items[key] == "" ==> r == ReadResult(Null, items)
    ensures key in items && items[key] != "" && json.parse(items[key]).Some? ==> r == ReadResult(json.parse(items[key]).value, items)
    ensures key in items && items[key] != "" && json.parse(items[key]).None? ==> r == ReadResult(Null, items - {key})
  {
    if key in items && items[key] != "" then
      match json.parse(items[key])
      case Some(v) => ReadResult(v, items)
      case None => ReadResult(Null, items - {key})
    else
      ReadResult(Null, items)
  }

  /**
   * The store after `saveDataForDay`: the text of whatever value the caller
   * passes under the day's key, unless the write is refused. The declared
   * parameter type is not checked at run time, so any value can be saved,
   * including one read back earlier.
   */
  function SaveDay(json: Codec, items: map<string, string>, date: string, data: Value, fits: bool): (m: map<string, string>)
    ensures m - {DayKey(date)} == items - {DayKey(date)}
    ensures fits ==> DayKey(date) in m && m[DayKey(date)] == json.stringify(data)
    ensures !fits ==> m == items
  {
    if fits then items[DayKey(date) := json.stringify(data)] else items
  }

  /**
   * `getTodaysData`: the stored value for today if it is truthy; otherwise the
   * fresh zero record, which is also saved. The result is never falsy.
   */
  function GetToday(json: Codec, items: map<string, string>, today: string, fits: bool): (r: ReadResult)
    ensures r.items - {DayKey(today)} == items - {DayKey(today)}
    ensures Truthy(r.value)
    ensures Truthy(SelfHealingRead(json, items, DayKey(today)).value) ==> r == SelfHealingRead(json, items, DayKey(today))
  {
    var read := SelfHealingRead(json, items, DayKey(today));
    if Truthy(read.value) then
      read
    else
      ReadResult(DailyDataJson(FreshRecord(today)), SaveDay(json, read.items, today, DailyDataJson(FreshRecord(today)), fits))
  }

  /** The store after `saveNutridrinkTimerState`: a state with no pause under the timer key. */
  function SaveTimer(json: Codec, items: map<string, string>, startTime: int, fits: bool): (m: map<string, string>)
    ensures m - {TimerKey} == items - {TimerKey}
    ensures fits ==> TimerKey in m && m[TimerKey] == json.stringify(TimerStateJson(TimerState(startTime, None)))
    ensures !fits ==> m == items
  {
    if fits then items[TimerKey := json.stringify(TimerStateJson(TimerState(startTime, None)))] else items
  }

  // ---------------------------------------------------------------------------
  // The operations, on the browser's storage

  /** `getDataForDay(date)`. */
  method GetDataForDay(ls: LocalStorage, json: Codec, date: string) returns (r: Value)
    modifies ls
    ensures ReadResult(r, ls.items) == SelfHealingRead(json, old(ls.items), DayKey(date))
  {
    var stored := ls.GetItem(DayKey(date));
    if stored.Some? && stored.value != "" {
      var parsed := json.parse(stored.value);
      if parsed.Some? {
        r := parsed.value;
      } else {
        ls.RemoveItem(DayKey(date));
        r := Null;
      }
    } else {
      r := Null;
    }
  }

  /** `saveDataForDay(date, data)`: a refused write is caught, so the caller never sees it. */
  method SaveDataForDay(ls: LocalStorage, json: Codec, date: string, data: Value, fits: bool)
    modifies ls
    ensures ls.items == SaveDay(json, old(ls.items), date, data, fits)
  {
    var _ := ls.SetItem(DayKey(date), json.stringify(data), fits);
  }

  /** `getTodaysData()`, with the clock's year, month index and day passed in. */
  method GetTodaysData(ls: LocalStorage, json: Codec, year: int, monthIndex: int, day: int, fits: bool)
    returns (r: Value)
    modifies ls
    ensures ReadResult(r, ls.items) == GetToday(json, old(ls.items), DateFormat.TodayDateString(year, monthIndex, day), fits)
    ensures Truthy(r)
  {
    var today := DateFormat.TodayDateString(year, monthIndex, day);
    r := GetDataForDay(ls, json, today);
    if !Truthy(r) {
      r := DailyDataJson(FreshRecord(today));
      SaveDataForDay(ls, json, today, r, fits);
    }
  }

  /**
   * `saveNutridrinkTimerState(startTime)`. There is no try/catch here, so a
   * refused write reaches the caller: `QuotaExceeded` is that exception.
   */
  method SaveNutridrinkTimerState(ls: LocalStorage, json: Codec, startTime: int, fits: bool)
    returns (w: WriteResult)
    modifies ls
    ensures ls.items == SaveTimer(json, old(ls.items), startTime, fits)
    ensures w == QuotaExceeded <==> !fits
  {
    w := ls.SetItem(TimerKey, json.stringify(TimerStateJson(TimerState(startTime, None))), fits);
  }

  /** `getNutridrinkTimerState()`. */
  method GetNutridrinkTimerState(ls: LocalStorage, json: Codec) returns (r: Value)
    modifies ls
    ensures ReadResult(r, ls.items) == SelfHealingRead(json, old(ls.items), TimerKey)
  {
    var stored := ls.GetItem(TimerKey);
    if stored.Some? && stored.value != "" {
      var parsed := json.parse(stored.value);
      if parsed.Some? {
        r := parsed.value;
      } else {
        ls.RemoveItem(TimerKey);
        r := Null;
      }
    } else {
      r := Null;
    }
  }

  /** The store after `clearNutridrinkTimerState()`: no timer entry, every other entry as it was. */
  function ClearTimer(items: map<string, string>): (m: map<string, string>)
    ensures TimerKey !in m
    ensures m.Keys == items.Keys - {TimerKey}
    ensures forall k :: k in m ==> m[k] == items[k]
  {
    items - {TimerKey}
  }

  /** `clearNutridrinkTimerState()`. */
  method ClearNutridrinkTimerState(ls: LocalStorage)
    modifies ls
    ensures ls.items == ClearTimer(old(ls.items))
  {
    ls.RemoveItem(TimerKey);
  }
}
