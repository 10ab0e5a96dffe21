/**
 * The sales-call review (src/services/coaching/sales.ts). The review
 * completion is an input, a function of the transcript, the stored profile
 * and the stored offer (JNull when absent); None is a completion that throws.
 */
module SalesReview {
  import opened Wrappers
  import opened Strings
  import opened Json
  import opened Store
  import Memory

  const SALES_REVIEWS := "sales_reviews"
  const SNIPPET_LIMIT := 500
  /** LTRIM 0 20 keeps indices 0..20. */
  const LAST_INDEX := 20

  function ReviewsKey(userId: string): string {
    UserKey(userId, SALES_REVIEWS)
  }

  /** The stored review entry: the time, the transcript's first 500 characters, and the feedback. */
  function ReviewEntry(ts: string, transcript: string, feedback: string): (r: Json)
    ensures r.JObj? && r.fields.Keys == {"ts", "transcriptSnippet", "feedback"}
    ensures r.fields["transcriptSnippet"] == JStr(Take(transcript, SNIPPET_LIMIT))
    ensures r.fields["feedback"] == JStr(feedback)
  {
    JObj(map["ts" := JStr(ts), "transcriptSnippet" := JStr(Take(transcript, SNIPPET_LIMIT)), "feedback" := JStr(feedback)])
  }

  /** The snippet is a prefix of the transcript, all of it when it is short, else exactly 500 characters. */
  lemma SnippetIsPrefix(transcript: string)
    ensures Take(transcript, SNIPPET_LIMIT) <= transcript
    ensures |transcript| <= SNIPPET_LIMIT ==> Take(transcript, SNIPPET_LIMIT) == transcript
    ensures |transcript| > SNIPPET_LIMIT ==> |Take(transcript, SNIPPET_LIMIT)| == SNIPPET_LIMIT
  {
  }

  /** The review list after one more review: the new one first, the older ones after it, at most 21. */
  function ReviewsAfter(items: seq<Json>, entry: Json): seq<Json> {
    Memory.PushTrim(items, entry, LAST_INDEX)
  }

  lemma ReviewsBounded(items: seq<Json>, entry: Json)
    ensures var r := ReviewsAfter(items, entry);
      && |r| <= LAST_INDEX + 1
      && r[0] == entry
      && r[1..] <= items
      && (|items| <= LAST_INDEX ==> r == [entry] + items)
  {
    Memory.PushTrimNewestFirst(items, entry, LAST_INDEX);
    var r := ReviewsAfter(items, entry);
    if |items| <= LAST_INDEX {
      assert r == [entry] + items;
    }
  }

  /**
   * analyzeSalesCall: returns the review text unchanged and pushes the entry
   * to the head of the user's review list, trimmed to 21. A failed completion,
   * or a review key that is not a list (a WRONGTYPE error), writes nothing.
   */
  method AnalyzeSalesCall(store: KeyValueStore, userId: string, transcript: string, now: string,
                          review: (string, Json, Json) -> Option<string>)
    returns (r: Result<string>)
    modifies store
    ensures var profile := old(Memory.GetJson(store, UserKey(userId, Memory.PROFILE))).GetOr(JNull);
      var offer := old(Memory.GetJson(store, UserKey(userId, Memory.OFFER))).GetOr(JNull);
      var key := ReviewsKey(userId);
      && (r.Success? <==> review(transcript, profile, offer).Some? && (key !in old(store.data) || old(store.data)[key].List?))
      && (r.Success? ==>
            && r.value == review(transcript, profile, offer).value
            && store.data == old(store.data)[key := List(ReviewsAfter(ListAt(old(store.data), key), ReviewEntry(now, transcript, r.value)))])
      && (r.Failure? ==> store.data == old(store.data))
  {
    var profile := Memory.GetJson(store, UserKey(userId, Memory.PROFILE)).GetOr(JNull);
    var offer := Memory.GetJson(store, UserKey(userId, Memory.OFFER)).GetOr(JNull);
    var result := review(transcript, profile, offer);
    if result.None? {
      return Failure("sales review completion failed");
    }
    var key := ReviewsKey(userId);
    var entry := ReviewEntry(now, transcript, result.value);
    ghost var before := store.data;
    var ok := store.LPush(key, entry);
    if !ok {
      return Failure("WRONGTYPE");
    }
    ok := store.LTrim(key, 0, LAST_INDEX);
    assert store.data == before[key := List(ReviewsAfter(ListAt(before, key), entry))];
    r := Success(result.value);
  }
}
