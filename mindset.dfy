/**
 * The mindset log (src/services/coaching/mindset.ts). The coaching
 * completion is an input, a function of the message, the stored profile
 * (JNull when absent) and the faith preference; None is a completion that
 * throws. One clock reading stands for the time.
 */
module Mindset {
  import opened Wrappers
  import opened Strings
  import opened Json
  import opened Store
  import Memory
  import Prompts

  const THEME_LIMIT := 100
  const NOTE_LIMIT := 200
  const HEADER := "\U{1F9E0} Mindset Response:\n"

  function MindsetKey(userId: string): string {
    UserKey(userId, Memory.MINDSET)
  }

  /** The mindset state a user without one starts from. */
  function FreshState(userId: string, now: string): Json {
    JObj(map["userId" := JStr(userId), "themes" := JArr([]), "notes" := JStr(""), "lastUpdated" := JStr(now)])
  }

  /** `(await getMindset(userId)) || fresh`: the stored state when truthy. */
  function Current(data: map<string, Value>, userId: string, now: string): Json {
    var key := MindsetKey(userId);
    if key in data && data[key].Doc? && JsTruthy(data[key].doc) then data[key].doc else FreshState(userId, now)
  }

  /** The note one message adds: a line with the time and the message's first 200 characters. */
  function NoteLine(now: string, message: string): string {
    "\n" + now + " - " + Take(message, NOTE_LIMIT)
  }

  /**
   * The state after one message, or None where `themes.push` throws (a state
   * that is not an object or whose themes are not an array). `notes +=`
   * converts the old notes to text first, as JavaScript does.
   */
  function Updated(ms: Json, message: string, now: string): (r: Option<Json>)
    ensures r.Some? <==> ms.JObj? && "themes" in ms.fields && ms.fields["themes"].JArr?
  {
    if ms.JObj? && "themes" in ms.fields && ms.fields["themes"].JArr? then
      var themes := ms.fields["themes"].items + [JStr(Take(message, THEME_LIMIT))];
      var notes := Prompts.Interp(Field(ms, "notes")) + NoteLine(now, message);
      Some(JObj(ms.fields["themes" := JArr(themes)]["notes" := JStr(notes)]["lastUpdated" := JStr(now)]))
    else None
  }

  /**
   * One message adds exactly one theme, the message's first 100 characters;
   * the old notes stay a prefix of the new ones, which end with the
   * message's first 200 characters; every other property is kept.
   */
  lemma UpdatedSpec(ms: Json, message: string, now: string, name: string)
    requires Updated(ms, message, now).Some?
    ensures var after := Updated(ms, message, now).value;
      var oldNotes := Prompts.Interp(Field(ms, "notes"));
      && after.JObj?
      && after.fields["themes"] == JArr(ms.fields["themes"].items + [JStr(Take(message, THEME_LIMIT))])
      && after.fields["notes"].JStr?
      && oldNotes <= after.fields["notes"].s
      && after.fields["notes"].s[|after.fields["notes"].s| - |Take(message, NOTE_LIMIT)|..] == Take(message, NOTE_LIMIT)
      && (name != "themes" && name != "notes" && name != "lastUpdated" ==> Field(after, name) == Field(ms, name))
  {
    var oldNotes := Prompts.Interp(Field(ms, "notes"));
    var line := NoteLine(now, message);
    var notes := oldNotes + line;
    assert notes[..|oldNotes|] == oldNotes;
    assert notes[|notes| - |Take(message, NOTE_LIMIT)|..] == line[|line| - |Take(message, NOTE_LIMIT)|..];
  }

  /** A user without a mindset state starts with no themes and empty notes. */
  lemma FreshStart(userId: string, message: string, now: string)
    ensures var after := Updated(FreshState(userId, now), message, now).value;
      after.fields["themes"] == JArr([JStr(Take(message, THEME_LIMIT))])
      && after.fields["notes"] == JStr(NoteLine(now, message))
  {
  }

  /**
   * handleMindsetMessage: asks the completion with the profile's faith
   * preference ('off' without one), then stores the updated state and
   * returns the completion; a failed completion or a throwing update writes
   * nothing.
   */
  method HandleMindsetMessage(store: KeyValueStore, userId: string, message: string, now: string,
                              coach: (string, Json, Json) -> Option<string>)
    returns (r: Result<string>)
    modifies store
    ensures var profile := old(Memory.GetJson(store, UserKey(userId, Memory.PROFILE))).GetOr(JNull);
      var faith := Prompts.OrElse(profile, "faithPreference", JStr("off"));
      var after := Updated(Current(old(store.data), userId, now), message, now);
      && (r.Success? <==> coach(message, profile, faith).Some? && after.Some?)
      && (r.Success? ==>
            && r.value == coach(message, profile, faith).value
            && store.data == old(store.data)[MindsetKey(userId) := Doc(after.value)])
      && (r.Failure? ==> store.data == old(store.data))
  {
    var profile := Memory.GetJson(store, UserKey(userId, Memory.PROFILE)).GetOr(JNull);
    var stored := Memory.GetJson(store, MindsetKey(userId));
    var ms := if stored.Some? && JsTruthy(stored.value) then stored.value else FreshState(userId, now);
    var faith := Prompts.OrElse(profile, "faithPreference", JStr("off"));
    var completion := coach(message, profile, faith);
    if completion.None? {
      return Failure("mindset completion failed");
    }
    var after := Updated(ms, message, now);
    if after.None? {
      return Failure("themes is not an array");
    }
    Memory.SetJson(store, MindsetKey(userId), after.value);
    r := Success(completion.value);
  }

  /** generateMindsetResponse: the fixed header, then the text unchanged. */
  function MindsetResponse(text: string): (r: string)
    ensures |r| == |HEADER| + |text| && r[..|HEADER|] == HEADER && r[|HEADER|..] == text
  {
    HEADER + text
  }
}
