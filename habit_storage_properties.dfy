/**
 * What the tracker can rely on from its persistence layer, stated about the
 * functions that specify the operations in `HabitStorage`. Properties that
 * read back what was written assume that JSON round-trips (`RoundTrips`).
 */
module HabitStorageProperties {
  import opened Wrappers
  import opened Json
  import opened HabitStorage
  import DateFormat

  /** Key `k` is absent from both stores or holds the same text in both. */
  ghost predicate SameEntry(m1: map<string, string>, m2: map<string, string>, k: string) {
    (k in m1 <==> k in m2) && (k in m1 ==> m1[k] == m2[k])
  }

  // ---------------------------------------------------------------------------
  // Day records

  /**
   * A saved value reads back as written, and the read leaves the store as it
   * is. This holds for every record and for any other value a JavaScript
   * object can represent, such as one read earlier and saved again.
   */
  lemma SaveThenGetDay(json: Codec, items: map<string, string>, date: string, data: Value)
    requires RoundTrips(json) && WellFormed(data)
    ensures var saved := SaveDay(json, items, date, data, true);
      SelfHealingRead(json, saved, DayKey(date)) == ReadResult(data, saved)
  {
  }

  /** Text under the day's key that does not parse reads as null and is removed, so a second read is null too and changes nothing. */
  lemma CorruptDayHeals(json: Codec, items: map<string, string>, date: string)
    requires DayKey(date) in items && items[DayKey(date)] != ""
    requires json.parse(items[DayKey(date)]) == None
    ensures var first := SelfHealingRead(json, items, DayKey(date));
      && first == ReadResult(Null, items - {DayKey(date)})
      && SelfHealingRead(json, first.items, DayKey(date)) == first
  {
  }

  /** A missing day, or one holding the empty (falsy) string, reads as null and nothing is removed. */
  lemma MissingOrEmptyDayReadsNull(json: Codec, items: map<string, string>, date: string)
    requires DayKey(date) !in items || items[DayKey(date)] == ""
    ensures SelfHealingRead(json, items, DayKey(date)) == ReadResult(Null, items)
  {
  }

  /** Reading or saving one day, or getting today, leaves the timer's entry as it was. */
  lemma DayOpsKeepTimer(json: Codec, items: map<string, string>, date: string, data: Value, fits: bool)
    ensures SameEntry(SaveDay(json, items, date, data, fits), items, TimerKey)
    ensures SameEntry(SelfHealingRead(json, items, DayKey(date)).items, items, TimerKey)
    ensures SameEntry(GetToday(json, items, date, fits).items, items, TimerKey)
  {
  }

  /** Reading or saving one day, or getting today, leaves every other day's entry as it was. */
  lemma DayOpsKeepOtherDays(json: Codec, items: map<string, string>, date: string, other: string, data: Value, fits: bool)
    requires other != date
    ensures SameEntry(SaveDay(json, items, date, data, fits), items, DayKey(other))
    ensures SameEntry(SelfHealingRead(json, items, DayKey(date)).items, items, DayKey(other))
    ensures SameEntry(GetToday(json, items, date, fits).items, items, DayKey(other))
  {
  }

  // ---------------------------------------------------------------------------
  // Today's record

  /**
   * With no usable record for today, the first call returns the zero record
   * for today and stores its text under today's key.
   */
  lemma FreshTodayRecord(json: Codec, items: map<string, string>, today: string)
    requires RoundTrips(json)
    requires !Truthy(SelfHealingRead(json, items, DayKey(today)).value)
    ensures var first := GetToday(json, items, today, true);
      && first.value == DailyDataJson(DailyData(today, 0, 0, false))
      && DayKey(today) in first.items
      && json.parse(first.items[DayKey(today)]) == Some(first.value)
  {
  }

  /**
   * Getting today twice with no write in between returns the same value the
   * second time and leaves the store as the first call left it.
   */
  lemma GetTodayIdempotent(json: Codec, items: map<string, string>, today: string, fits: bool)
    requires RoundTrips(json)
    ensures var first := GetToday(json, items, today, true);
      GetToday(json, first.items, today, fits) == first
  {
  }

  /** When the write is refused, today's zero record is still returned, but nothing new is stored. */
  lemma RefusedTodayWrite(json: Codec, items: map<string, string>, today: string)
    requires !Truthy(SelfHealingRead(json, items, DayKey(today)).value)
    ensures GetToday(json, items, today, false)
      == ReadResult(DailyDataJson(FreshRecord(today)), SelfHealingRead(json, items, DayKey(today)).items)
  {
  }

  /**
   * The cast to a record is unchecked: any truthy parsed value, record or not,
   * is returned as today's data and the store is left alone.
   */
  lemma TruthyStoredValueReturned(json: Codec, items: map<string, string>, today: string, v: Value, fits: bool)
    requires DayKey(today) in items && items[DayKey(today)] != ""
    requires json.parse(items[DayKey(today)]) == Some(v) && Truthy(v)
    ensures GetToday(json, items, today, fits) == ReadResult(v, items)
  {
  }

  /** A stored value that parses to something falsy (null, 0, false, "") is overwritten by the zero record. */
  lemma FalsyStoredValueReplaced(json: Codec, items: map<string, string>, today: string, v: Value)
    requires DayKey(today) in items && items[DayKey(today)] != ""
    requires json.parse(items[DayKey(today)]) == Some(v) && !Truthy(v)
    ensures GetToday(json, items, today, true)
      == ReadResult(DailyDataJson(FreshRecord(today)),
                    items[DayKey(today) := json.stringify(DailyDataJson(FreshRecord(today)))])
  {
  }

  /** Two different calendar days are kept under two different keys. */
  lemma DistinctDaysDistinctKeys(y1: int, m1: int, d1: int, y2: int, m2: int, d2: int)
    requires 0 <= m1 < 12 && 1 <= d1 <= 31
    requires 0 <= m2 < 12 && 1 <= d2 <= 31
    requires (y1, m1, d1) != (y2, m2, d2)
    ensures DayKey(DateFormat.TodayDateString(y1, m1, d1)) != DayKey(DateFormat.TodayDateString(y2, m2, d2))
  {
    if DayKey(DateFormat.TodayDateString(y1, m1, d1)) == DayKey(DateFormat.TodayDateString(y2, m2, d2)) {
      DateFormat.DateStringInjective(y1, m1, d1, y2, m2, d2);
    }
  }

  // ---------------------------------------------------------------------------
  // Timer state

  /** A saved timer reads back as `{startTime}` with no `pausedTime`, and the read changes nothing. */
  lemma SaveThenGetTimer(json: Codec, items: map<string, string>, startTime: int)
    requires RoundTrips(json)
    ensures var saved := SaveTimer(json, items, startTime, true);
      SelfHealingRead(json, saved, TimerKey) == ReadResult(Obj([("startTime", Num(startTime))]), saved)
  {
  }

  /** A second accepted save replaces the first, whether or not the first was accepted. */
  lemma SecondTimerSaveReplacesFirst(json: Codec, items: map<string, string>, t1: int, t2: int, fits1: bool)
    ensures SaveTimer(json, SaveTimer(json, items, t1, fits1), t2, true) == SaveTimer(json, items, t2, true)
  {
  }

  /**
   * Clearing twice is clearing once; clearing after a save leaves the store as
   * if the save had not happened; after clearing, the timer reads as null and
   * nothing further changes.
   */
  lemma ClearTimerIdempotent(json: Codec, items: map<string, string>, startTime: int, fits: bool)
    ensures ClearTimer(ClearTimer(items)) == ClearTimer(items)
    ensures ClearTimer(SaveTimer(json, items, startTime, fits)) == ClearTimer(items)
    ensures SelfHealingRead(json, ClearTimer(items), TimerKey) == ReadResult(Null, ClearTimer(items))
  {
  }

  /** Timer text that does not parse reads as null and is removed; a second read is null too. */
  lemma CorruptTimerHeals(json: Codec, items: map<string, string>)
    requires TimerKey in items && items[TimerKey] != ""
    requires json.parse(items[TimerKey]) == None
    ensures var first := SelfHealingRead(json, items, TimerKey);
      && first == ReadResult(Null, ClearTimer(items))
      && SelfHealingRead(json, first.items, TimerKey) == first
  {
  }

  /** Saving, reading or clearing the timer leaves every day's entry as it was. */
  lemma TimerOpsKeepDays(json: Codec, items: map<string, string>, startTime: int, fits: bool, date: string)
    ensures SameEntry(SaveTimer(json, items, startTime, fits), items, DayKey(date))
    ensures SameEntry(SelfHealingRead(json, items, TimerKey).items, items, DayKey(date))
    ensures SameEntry(ClearTimer(items), items, DayKey(date))
  {
  }
}
