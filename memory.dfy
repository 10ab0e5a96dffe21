/**
 * The memory service (src/services/memory.ts): typed getters and setters over
 * per-user JSON documents, a bounded message history and habit completion sets.
 */
module Memory {
  import opened Wrappers
  import opened Json
  import opened Store

  const PROFILE := "profile"
  const ROADMAP := "roadmap"
  const PUSHMODE := "pushmode"
  const MINDSET := "mindset"
  const OFFER := "offer"
  const HISTORY := "history"

  /** The key of one habit's completion log. */
  function HabitLogKey(userId: string, habitId: string): string {
    UserKey(userId, "habit_logs:" + habitId)
  }

  /**
   * getJson: absent or empty text is null, text that is not a JSON document fails
   * to parse and is null, and a stored JSON null reads back as null too.
   */
  function GetJson(store: KeyValueStore, key: string): (r: Option<Json>)
    reads store
    ensures r.Some? <==> key in store.data && store.data[key].Doc? && store.data[key].doc != JNull
    ensures r.Some? ==> store.data[key] == Doc(r.value)
  {
    match store.Get(key)
    case Some(Doc(j)) => if j == JNull then None else Some(j)
    case _ => None
  }

  /** setJson: stores the document under the key and touches nothing else. */
  method SetJson(store: KeyValueStore, key: string, v: Json)
    modifies store
    ensures store.data == old(store.data)[key := Doc(v)]
  {
    store.Set(key, Doc(v));
  }

  /** What a getter of one category returns: getProfile, getRoadmap, getHabits, getPushMode, getMindset, getOffer. */
  function GetCategory(store: KeyValueStore, userId: string, category: string): (r: Option<Json>)
    reads store
    ensures r.Some? ==> UserKey(userId, category) in store.data && store.data[UserKey(userId, category)] == Doc(r.value)
    ensures r.None? ==> var key := UserKey(userId, category);
      key !in store.data || !store.data[key].Doc? || store.data[key].doc == JNull
  {
    GetJson(store, UserKey(userId, category))
  }

  /** The matching setters: each writes its own category's key only. */
  method SetCategory(store: KeyValueStore, userId: string, category: string, v: Json)
    modifies store
    ensures store.data == old(store.data)[UserKey(userId, category) := Doc(v)]
    ensures forall c :: c != category ==> UserKey(userId, c) !in old(store.data) || (UserKey(userId, c) in store.data && store.data[UserKey(userId, c)] == old(store.data)[UserKey(userId, c)])
  {
    forall c | c != category ensures UserKey(userId, c) != UserKey(userId, category) {
      UserKeyCategories(userId, c, category);
    }
    SetJson(store, UserKey(userId, category), v);
  }

  /** A history entry as appendHistory builds it. */
  function HistoryEntry(role: string, content: string, ts: string): Json {
    JObj(map["role" := JStr(role), "content" := JStr(content), "ts" := JStr(ts)])
  }

  /** LPUSH followed by LTRIM 0 stop: the list after pushing one entry and trimming. */
  function PushTrim(items: seq<Json>, entry: Json, stop: nat): (r: seq<Json>)
  {
    TrimList([entry] + items, 0, stop)
  }

  /** The pushed entry is the head, the older entries follow newest first, and at most stop + 1 remain. */
  lemma PushTrimNewestFirst(items: seq<Json>, entry: Json, stop: nat)
    ensures var r := PushTrim(items, entry, stop);
      && |r| == (if |items| + 1 <= stop + 1 then |items| + 1 else stop + 1)
      && r[0] == entry
      && r[1..] <= items
  {
  }

  /** The length appendHistory's comment promises to keep. */
  const HISTORY_LIMIT := 50

  /** appendHistory as written: LTRIM 0 50 keeps indices 0..50. */
  function HistoryAfterAppendAsWritten(items: seq<Json>, entry: Json): seq<Json> {
    PushTrim(items, entry, 50)
  }

  /** As written, a full history of 50 entries grows to 51 on the next append. */
  lemma AsWrittenKeeps51(items: seq<Json>, entry: Json)
    requires |items| == HISTORY_LIMIT
    ensures |HistoryAfterAppendAsWritten(items, entry)| == HISTORY_LIMIT + 1
  {
    PushTrimNewestFirst(items, entry, 50);
  }

  /** appendHistory as intended: LTRIM 0 49 keeps the newest 50. */
  function HistoryAfterAppend(items: seq<Json>, entry: Json): seq<Json> {
    PushTrim(items, entry, HISTORY_LIMIT - 1)
  }

  /** The corrected history never holds more than 50 entries and keeps the newest first. */
  lemma HistoryAtMost50(items: seq<Json>, entry: Json)
    ensures var r := HistoryAfterAppend(items, entry);
      |r| <= HISTORY_LIMIT && r[0] == entry && r[1..] <= items
      && (|items| < HISTORY_LIMIT ==> r == [entry] + items)
  {
    PushTrimNewestFirst(items, entry, HISTORY_LIMIT - 1);
    var r := HistoryAfterAppend(items, entry);
    if |items| < HISTORY_LIMIT {
      assert r == [entry] + items;
    }
  }

  /**
   * appendHistory exactly as the source issues it (the as-written half of the
   * finding): LPUSH of the entry, then LTRIM 0 50. A history key holding
   * something other than a list makes LPUSH fail and nothing is written.
   */
  method AppendHistoryAsWritten(store: KeyValueStore, userId: string, role: string, content: string, ts: string) returns (ok: bool)
    modifies store
    ensures var key := UserKey(userId, HISTORY);
      && (ok <==> key !in old(store.data) || old(store.data)[key].List?)
      && (ok ==> store.data == old(store.data)[key := List(HistoryAfterAppendAsWritten(ListAt(old(store.data), key), HistoryEntry(role, content, ts)))])
      && (!ok ==> store.data == old(store.data))
  {
    var key := UserKey(userId, HISTORY);
    ok := store.LPush(key, HistoryEntry(role, content, ts));
    if ok {
      ok := store.LTrim(key, 0, 50);
    }
  }

  /** appendHistory with the trim the comment states: LTRIM 0 49. */
  method AppendHistory(store: KeyValueStore, userId: string, role: string, content: string, ts: string) returns (ok: bool)
    modifies store
    ensures var key := UserKey(userId, HISTORY);
      && (ok <==> key !in old(store.data) || old(store.data)[key].List?)
      && (ok ==> store.data == old(store.data)[key := List(HistoryAfterAppend(ListAt(old(store.data), key), HistoryEntry(role, content, ts)))])
      && (!ok ==> store.data == old(store.data))
  {
    var key := UserKey(userId, HISTORY);
    ok := store.LPush(key, HistoryEntry(role, content, ts));
    if ok {
      ok := store.LTrim(key, 0, HISTORY_LIMIT - 1);
    }
  }

  /** The habit log map after SADD of one date. */
  function HabitLogAfter(m: map<string, Value>, key: string, date: string): map<string, Value> {
    m[key := Members(SetAt(m, key) + {date})]
  }

  /** Logging the same completion date twice leaves the log as one logging left it. */
  lemma HabitLogIdempotent(m: map<string, Value>, key: string, date: string)
    ensures HabitLogAfter(HabitLogAfter(m, key, date), key, date) == HabitLogAfter(m, key, date)
    ensures date in SetAt(HabitLogAfter(m, key, date), key)
  {
  }

  /** logHabitCompletion: SADD of the date to the habit's log. */
  method LogHabitCompletion(store: KeyValueStore, userId: string, habitId: string, date: string) returns (ok: bool)
    modifies store
    ensures var key := HabitLogKey(userId, habitId);
      && (ok <==> key !in old(store.data) || old(store.data)[key].Members?)
      && (ok ==> store.data == HabitLogAfter(old(store.data), key, date))
      && (!ok ==> store.data == old(store.data))
  {
    ok := store.SAdd(HabitLogKey(userId, habitId), date);
  }

  /** getRaw / setRaw / del: plain key access for the wizards and the admin tools. */
  function GetRaw(store: KeyValueStore, key: string): (r: Option<Value>)
    reads store
    ensures r.Some? <==> key in store.data
    ensures r.Some? ==> r.value == store.data[key]
  {
    store.Get(key)
  }
}
