/**
 * The admin tools: the state service (src/services/admin/adminStateService.ts),
 * its older duplicate (src/discord/commands/admin/adminStateService.ts), the
 * memory reset (src/services/admin/adminActionsService.ts) and the admin
 * check (src/services/admin/adminAuth.ts). RedisJSON reads and writes are
 * Doc values; a RedisJSON command on a key of another kind is a WRONGTYPE
 * error that writes nothing.
 */
module Admin {
  import opened Wrappers
  import opened Json
  import opened Store
  import opened Strings
  import Memory
  import Env

  /** The keys of one user: those matching `user:<id>:*`. */
  function UserKeys(data: map<string, Value>, userId: string): set<string> {
    set k | k in data && Matches(k, UserPattern(userId))
  }

  /** The store with one user's keys removed. */
  function WithoutUser(data: map<string, Value>, userId: string): (r: map<string, Value>)
    ensures forall k :: k in r <==> k in data && !Matches(k, UserPattern(userId))
    ensures forall k :: k in r ==> r[k] == data[k]
  {
    data - UserKeys(data, userId)
  }

  function KeySet(keys: seq<string>): set<string> {
    set k | k in keys
  }

  /** A list without repeats has as many distinct elements as entries. */
  lemma {:induction false} DistinctCount(keys: seq<string>)
    requires Distinct(keys)
    ensures |set k | k in keys| == |keys|
  {
    if keys != [] {
      var rest := keys[1..];
      DistinctCount(rest);
      assert (set k | k in keys) == (set k | k in rest) + {keys[0]};
      assert keys[0] !in rest;
    }
  }

  /** resetAllUserData: deletes exactly the user's keys and reports how many there were. */
  method ResetAllUserData(store: KeyValueStore, userId: string) returns (cleared: nat)
    modifies store
    ensures store.data == WithoutUser(old(store.data), userId)
    ensures cleared == |UserKeys(old(store.data), userId)|
  {
    var keys := store.Keys(UserPattern(userId));
    assert (set k | k in keys) == UserKeys(store.data, userId);
    DistinctCount(keys);
    if |keys| > 0 {
      var _ := store.DeleteAll(keys);
    }
    cleared := |keys|;
  }

  /** The duplicate resetAllUserData: the same deletion, always answering true. */
  method ResetAllUserDataOk(store: KeyValueStore, userId: string) returns (ok: bool)
    modifies store
    ensures store.data == WithoutUser(old(store.data), userId)
    ensures ok
  {
    var keys := store.Keys(UserPattern(userId));
    assert (set k | k in keys) == UserKeys(store.data, userId);
    if |keys| > 0 {
      var _ := store.DeleteAll(keys);
    }
    ok := true;
  }

  /** resetUserMemory: DEL of each matched key in turn; `deleted` counts the matches. */
  method ResetUserMemory(store: KeyValueStore, userId: string) returns (ok: bool, deleted: nat)
    modifies store
    ensures store.data == WithoutUser(old(store.data), userId)
    ensures ok && deleted == |UserKeys(old(store.data), userId)|
  {
    var keys := store.Keys(UserPattern(userId));
    ghost var before := store.data;
    assert (set k | k in keys) == UserKeys(before, userId);
    DistinctCount(keys);
    for i := 0 to |keys|
      invariant store.data == before - KeySet(keys[..i])
    {
      assert KeySet(keys[..i + 1]) == KeySet(keys[..i]) + {keys[i]} by {
        assert keys[..i + 1] == keys[..i] + [keys[i]];
      }
      var _ := store.Delete(keys[i]);
    }
    assert keys[..|keys|] == keys;
    ok, deleted := true, |keys|;
  }

  /** Another user's key survives a reset when it does not fall under this user's prefix. */
  lemma OtherUsersKept(data: map<string, Value>, userId: string, key: string)
    requires key in data && !Matches(key, UserPattern(userId))
    ensures key in WithoutUser(data, userId) && WithoutUser(data, userId)[key] == data[key]
  {
  }

  /** After a reset no key of the user remains, whatever the category. */
  lemma ResetLeavesNothing(data: map<string, Value>, userId: string, category: string)
    ensures UserKey(userId, category) !in WithoutUser(data, userId)
    ensures UserKeys(WithoutUser(data, userId), userId) == {}
  {
    UserKeyMatches(userId, category);
  }

  // -------------------------------------------------------------------
  // Field updates
  // -------------------------------------------------------------------

  /**
   * `(await redis.json.get(key)) || {}`: the stored document when truthy, else
   * the empty object. Assigning a property of a truthy primitive throws in a
   * module, so only objects and arrays are kept for the property writes.
   */
  function Base(data: map<string, Value>, key: string): (r: Result<Json>)
    ensures r.Success? <==> key !in data || (data[key].Doc? && (data[key].doc.JObj? || data[key].doc.JArr? || !JsTruthy(data[key].doc)))
    ensures r.Success? && key in data && (data[key].doc.JObj? || data[key].doc.JArr?) ==> r.value == data[key].doc
    ensures r.Success? && (key !in data || !JsTruthy(data[key].doc)) ==> r.value == JObj(map[])
  {
    if key !in data then Success(JObj(map[]))
    else if !data[key].Doc? then Failure("WRONGTYPE")
    else if !JsTruthy(data[key].doc) then Success(JObj(map[]))
    else if data[key].doc.JObj? || data[key].doc.JArr? then Success(data[key].doc)
    else Failure("cannot create property on a primitive")
  }

  /** The 32-bit array index a property name denotes: a canonical decimal below 2^32 - 1. */
  function ArrayIndex(name: string): (r: Option<nat>)
    ensures r.Some? ==> AllDigits(name) && name != [] && r.value < 0xFFFF_FFFF
  {
    if name != [] && AllDigits(name) && (name[0] != '0' || |name| == 1) && DigitsValue(name) < 0xFFFF_FFFF
    then Some(DigitsValue(name)) else None
  }

  /** Assigning element i: past the end the array grows, the holes reading back as null once stored. */
  function SetAt(items: seq<Json>, i: nat, v: Json): (r: seq<Json>)
    ensures |r| == if i < |items| then |items| else i + 1
    ensures r[i] == v
    ensures forall j :: 0 <= j < |r| && j != i ==> r[j] == if j < |items| then items[j] else JNull
  {
    if i < |items| then items[i := v] else items + seq(i - |items|, _ => JNull) + [v]
  }

  /**
   * `doc[name] = value` on the object or array from Base: an object gets the
   * property; an array index sets that element; `length` would resize the
   * array, which is not modelled (a failure here); any other name is a
   * property JSON.stringify drops, so the stored array is unchanged.
   */
  function SetProperty(doc: Json, name: string, value: Json): Result<Json> {
    match doc
    case JObj(fields) => Success(JObj(fields[name := value]))
    case JArr(items) =>
      if ArrayIndex(name).Some? then Success(JArr(SetAt(items, ArrayIndex(name).value, value)))
      else if name == "length" then Failure("array length assignment")
      else Success(doc)
    case _ => Success(doc)
  }

  /** The profile after setting one field. */
  function ProfileWithField(data: map<string, Value>, userId: string, field: string, value: Json): Result<Json> {
    match Base(data, UserKey(userId, Memory.PROFILE))
    case Failure(e) => Failure(e)
    case Success(doc) => SetProperty(doc, field, value)
  }

  /** On an object profile, or none, setting a field gives it the value and keeps every other field. */
  lemma ProfileFieldSpec(data: map<string, Value>, userId: string, field: string, value: Json, other: string)
    requires ProfileWithField(data, userId, field, value).Success?
    requires var key := UserKey(userId, Memory.PROFILE); key !in data || !data[key].doc.JArr?
    requires other != field
    ensures var p := ProfileWithField(data, userId, field, value).value;
      var key := UserKey(userId, Memory.PROFILE);
      && Field(p, field) == Some(value)
      && (key in data && data[key].Doc? && data[key].doc.JObj? ==> Field(p, other) == Field(data[key].doc, other))
      && (key !in data ==> p == JObj(map[field := value]))
  {
  }

  /** An array profile: a named field leaves it as it was, an index sets that element. */
  lemma ArrayProfileSpec(data: map<string, Value>, userId: string, field: string, value: Json)
    requires var key := UserKey(userId, Memory.PROFILE); key in data && data[key].Doc? && data[key].doc.JArr?
    ensures var items := data[UserKey(userId, Memory.PROFILE)].doc.items;
      var r := ProfileWithField(data, userId, field, value);
      && (r.Failure? <==> field == "length")
      && (ArrayIndex(field).None? && field != "length" ==> r == Success(JArr(items)))
      && (ArrayIndex(field).Some? ==> r == Success(JArr(SetAt(items, ArrayIndex(field).value, value))))
  {
    assert ArrayIndex("length").None?;
  }

  /** updateUserProfileField: writes and returns the profile with one field set. */
  method UpdateUserProfileField(store: KeyValueStore, userId: string, field: string, value: Json)
    returns (r: Result<Json>)
    modifies store
    ensures r == ProfileWithField(old(store.data), userId, field, value)
    ensures r.Success? ==> store.data == old(store.data)[UserKey(userId, Memory.PROFILE) := Doc(r.value)]
    ensures r.Failure? ==> store.data == old(store.data)
  {
    var key := UserKey(userId, Memory.PROFILE);
    var base := Base(store.data, key);
    if base.Failure? {
      return Failure(base.error);
    }
    r := SetProperty(base.value, field, value);
    if r.Success? {
      store.Set(key, Doc(r.value));
    }
  }

  /** The duplicate updateUserProfileField: the same write, answering true. */
  method UpdateUserProfileFieldOk(store: KeyValueStore, userId: string, field: string, value: Json)
    returns (ok: bool)
    modifies store
    ensures ok <==> ProfileWithField(old(store.data), userId, field, value).Success?
    ensures ok ==> store.data == old(store.data)[UserKey(userId, Memory.PROFILE) := Doc(ProfileWithField(old(store.data), userId, field, value).value)]
    ensures !ok ==> store.data == old(store.data)
  {
    var r := UpdateUserProfileField(store, userId, field, value);
    ok := r.Success?;
  }

  /** The roadmap after setUserStage: current_stage and updatedAt set, all else kept. */
  function RoadmapWithStage(data: map<string, Value>, userId: string, stage: string, now: string): Result<Json> {
    match Base(data, UserKey(userId, Memory.ROADMAP))
    case Failure(e) => Failure(e)
    case Success(doc) =>
      match SetProperty(doc, "current_stage", JStr(stage))
      case Failure(e) => Failure(e)
      case Success(staged) => SetProperty(staged, "updatedAt", JStr(now))
  }

  lemma RoadmapStageSpec(data: map<string, Value>, userId: string, stage: string, now: string, other: string)
    requires RoadmapWithStage(data, userId, stage, now).Success?
    requires var key := UserKey(userId, Memory.ROADMAP); key !in data || !data[key].doc.JArr?
    requires other != "current_stage" && other != "updatedAt"
    ensures var r := RoadmapWithStage(data, userId, stage, now).value;
      var key := UserKey(userId, Memory.ROADMAP);
      && Field(r, "current_stage") == Some(JStr(stage))
      && Field(r, "updatedAt") == Some(JStr(now))
      && (key in data && data[key].Doc? && data[key].doc.JObj? ==> Field(r, other) == Field(data[key].doc, other))
  {
  }

  /** An array roadmap gets two named properties JSON drops: it is written back as it was. */
  lemma ArrayRoadmapKept(data: map<string, Value>, userId: string, stage: string, now: string)
    requires var key := UserKey(userId, Memory.ROADMAP); key in data && data[key].Doc? && data[key].doc.JArr?
    ensures RoadmapWithStage(data, userId, stage, now) == Success(data[UserKey(userId, Memory.ROADMAP)].doc)
  {
    assert !AllDigits("current_stage") by { assert !IsDigit("current_stage"[0]); }
    assert !AllDigits("updatedAt") by { assert !IsDigit("updatedAt"[0]); }
  }

  /** setUserStage: writes and returns the roadmap with the stage set. */
  method SetUserStage(store: KeyValueStore, userId: string, stage: string, now: string) returns (r: Result<Json>)
    modifies store
    ensures r == RoadmapWithStage(old(store.data), userId, stage, now)
    ensures r.Success? ==> store.data == old(store.data)[UserKey(userId, Memory.ROADMAP) := Doc(r.value)]
    ensures r.Failure? ==> store.data == old(store.data)
  {
    var key := UserKey(userId, Memory.ROADMAP);
    var base := Base(store.data, key);
    if base.Failure? {
      return Failure(base.error);
    }
    var staged := SetProperty(base.value, "current_stage", JStr(stage));
    if staged.Failure? {
      return Failure(staged.error);
    }
    r := SetProperty(staged.value, "updatedAt", JStr(now));
    if r.Success? {
      store.Set(key, Doc(r.value));
    }
  }

  /**
   * The duplicate setUserStage: JSON.SET at path `$.current_stage`. A missing
   * key is an error (new documents must be set at the root); a document that
   * is not an object has no such path and is left as it is; an object gets
   * current_stage and nothing else.
   */
  method SetUserStagePath(store: KeyValueStore, userId: string, stage: string) returns (r: Result<bool>)
    modifies store
    ensures var key := UserKey(userId, Memory.ROADMAP);
      && (r.Success? <==> key in old(store.data) && old(store.data)[key].Doc?)
      && (r.Success? && old(store.data)[key].doc.JObj? ==>
            store.data == old(store.data)[key := Doc(JObj(old(store.data)[key].doc.fields["current_stage" := JStr(stage)]))])
      && (r.Failure? || !old(store.data)[key].doc.JObj? ==> store.data == old(store.data))
  {
    var key := UserKey(userId, Memory.ROADMAP);
    if key !in store.data || !store.data[key].Doc? {
      return Failure(if key !in store.data then "new objects must be created at the root" else "WRONGTYPE");
    }
    var doc := store.data[key].doc;
    if doc.JObj? {
      store.Set(key, Doc(JObj(doc.fields["current_stage" := JStr(stage)])));
    }
    r := Success(true);
  }

  // -------------------------------------------------------------------
  // Push mode
  // -------------------------------------------------------------------

  function PushModeKey(userId: string): string {
    UserKey(userId, Memory.PUSHMODE)
  }

  /** `(await redis.get(key)) === "true"` */
  predicate StoredTrue(data: map<string, Value>, key: string) {
    key in data && data[key] == Text("true")
  }

  /** toggleUserPushMode: a stored "true" becomes "false"; anything else, absent included, becomes "true". */
  method ToggleUserPushMode(store: KeyValueStore, userId: string) returns (enabled: bool)
    modifies store
    ensures enabled <==> !StoredTrue(old(store.data), PushModeKey(userId))
    ensures store.data == old(store.data)[PushModeKey(userId) := Text(if enabled then "true" else "false")]
  {
    var key := PushModeKey(userId);
    var current := store.Get(key) == Some(Text("true"));
    store.Set(key, Text(if !current then "true" else "false"));
    enabled := !current;
  }

  /** Toggling twice from a stored "true" or "false" gives that value back. */
  lemma ToggleTwice(data: map<string, Value>, key: string, v: string)
    requires v == "true" || v == "false"
    ensures var once := data[key := Text(v)][key := Text(if !StoredTrue(data[key := Text(v)], key) then "true" else "false")];
      once[key] == Text(if v == "true" then "false" else "true")
      && once[key := Text(if !StoredTrue(once, key) then "true" else "false")] == data[key := Text(v)]
  {
  }

  /**
   * The duplicate toggleUserPushMode(enabled): overwrites the key with
   * `{enabled, updated}` without reading it; a key of another kind is a
   * WRONGTYPE error.
   */
  method SetUserPushMode(store: KeyValueStore, userId: string, enabled: bool, nowMillis: int) returns (r: Result<bool>)
    modifies store
    ensures var key := PushModeKey(userId);
      && (r.Success? <==> key !in old(store.data) || old(store.data)[key].Doc?)
      && (r.Success? ==> store.data == old(store.data)[key := Doc(JObj(map["enabled" := JBool(enabled), "updated" := JNum(nowMillis)]))])
      && (r.Failure? ==> store.data == old(store.data))
  {
    var key := PushModeKey(userId);
    if key in store.data && !store.data[key].Doc? {
      return Failure("WRONGTYPE");
    }
    store.Set(key, Doc(JObj(map["enabled" := JBool(enabled), "updated" := JNum(nowMillis)])));
    r := Success(true);
  }

  // -------------------------------------------------------------------
  // isAdmin (adminAuth.ts)
  // -------------------------------------------------------------------

  /** isAdmin: listed ids always; otherwise only in a server, with a role configured, by holding it. */
  function IsAdmin(config: Env.Config, userId: string, inGuild: bool, memberRoles: set<string>): (r: bool)
    ensures userId in config.adminIds ==> r
    ensures userId !in config.adminIds && (!inGuild || config.adminRoleId == "") ==> !r
    ensures userId !in config.adminIds && inGuild && config.adminRoleId != "" ==> (r <==> config.adminRoleId in memberRoles)
  {
    if userId in config.adminIds then true
    else if inGuild && config.adminRoleId != "" then config.adminRoleId in memberRoles
    else false
  }
}
