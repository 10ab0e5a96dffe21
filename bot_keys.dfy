/**
 * The per-user keys the Python bot (bot.py) reads and writes. Its key helpers
 * (k_user_thread, k_onboarding_stage, k_last_checkin, k_asana_project and the
 * metadata key behind get_user_meta/set_user_meta) are defined outside the
 * modelled file; the daily check-in's KEYS pattern fixes the metadata key as
 * `user:<id>:meta`, and the other four are given distinct category names here.
 */
module BotKeys {
  import opened Wrappers
  import opened Strings
  import opened Json
  import opened Store

  const META := "meta"
  const THREAD := "thread"
  const ONBOARDING_STAGE := "onboarding_stage"
  const LAST_CHECKIN := "last_checkin"
  const ASANA_PROJECT := "asana_project"

  /** `user:<str(uid)>:<category>` for a Discord user id. */
  function BotKey(uid: int, category: string): string {
    UserKey(ShowInt(uid), category)
  }

  function MetaKey(uid: int): string { BotKey(uid, META) }
  function ThreadKey(uid: int): string { BotKey(uid, THREAD) }
  function StageKey(uid: int): string { BotKey(uid, ONBOARDING_STAGE) }
  function LastCheckinKey(uid: int): string { BotKey(uid, LAST_CHECKIN) }
  function AsanaProjectKey(uid: int): string { BotKey(uid, ASANA_PROJECT) }

  lemma ShowIntNoColon(n: int)
    ensures NoColon(ShowInt(n))
  {
    ShowIntHasNo(n, ':');
  }

  /** A bot key names one user and one category: equal keys have equal ids and categories. */
  lemma BotKeyInjective(u1: int, c1: string, u2: int, c2: string)
    requires BotKey(u1, c1) == BotKey(u2, c2)
    ensures u1 == u2 && c1 == c2
  {
    ShowIntNoColon(u1);
    ShowIntNoColon(u2);
    UserKeyInjective(ShowInt(u1), c1, ShowInt(u2), c2);
    ShowIntInjective(u1, u2);
  }

  /** The Python side reads plain string values; any other value reads as absent. */
  function StoredText(data: map<string, Value>, key: string): (r: Option<string>)
    ensures r.Some? <==> key in data && data[key].Text?
  {
    if key in data && data[key].Text? then Some(data[key].text) else None
  }

  /** Python's truthiness of `redis.get(key)`: a stored non-empty string. */
  predicate TextTruthy(data: map<string, Value>, key: string) {
    StoredText(data, key).Some? && StoredText(data, key).value != ""
  }

  /** The stored metadata document as a dictionary, empty when absent. */
  function MetaOf(data: map<string, Value>, uid: int): map<string, Json> {
    var key := MetaKey(uid);
    if key in data && data[key].Doc? && data[key].doc.JObj? then data[key].doc.fields else map[]
  }

  /** The five bot keys of one user are pairwise distinct. */
  lemma BotKeysDistinct(uid: int)
    ensures MetaKey(uid) != ThreadKey(uid) && MetaKey(uid) != StageKey(uid)
    ensures MetaKey(uid) != LastCheckinKey(uid) && MetaKey(uid) != AsanaProjectKey(uid)
    ensures ThreadKey(uid) != StageKey(uid) && ThreadKey(uid) != LastCheckinKey(uid)
    ensures ThreadKey(uid) != AsanaProjectKey(uid) && StageKey(uid) != LastCheckinKey(uid)
    ensures StageKey(uid) != AsanaProjectKey(uid) && LastCheckinKey(uid) != AsanaProjectKey(uid)
  {
    var u := ShowInt(uid);
    UserKeyCategories(u, META, THREAD);
    UserKeyCategories(u, META, ONBOARDING_STAGE);
    UserKeyCategories(u, META, LAST_CHECKIN);
    UserKeyCategories(u, META, ASANA_PROJECT);
    UserKeyCategories(u, THREAD, ONBOARDING_STAGE);
    UserKeyCategories(u, THREAD, LAST_CHECKIN);
    UserKeyCategories(u, THREAD, ASANA_PROJECT);
    UserKeyCategories(u, ONBOARDING_STAGE, LAST_CHECKIN);
    UserKeyCategories(u, ONBOARDING_STAGE, ASANA_PROJECT);
    UserKeyCategories(u, LAST_CHECKIN, ASANA_PROJECT);
  }
}
