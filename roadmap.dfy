/**
 * Roadmap stage transitions (src/services/coaching/roadmap.ts), on the
 * stored roadmap document. The record is JSON, so the cases where the
 * JavaScript would throw are kept: `stages` that is not an array, or a null
 * stage reached by `find` or `map`. A throw writes nothing.
 */
module RoadmapStages {
  import opened Wrappers
  import opened Json
  import opened Store
  import Memory

  datatype Outcome =
    | NoRoadmap              // the function returns null
    | Threw                  // a TypeError escapes; nothing is written
    | Saved(roadmap: Json)   // the updated roadmap, as written back

  function RoadmapKey(userId: string): string {
    UserKey(userId, Memory.ROADMAP)
  }

  /** `const roadmap = await getRoadmap(userId); if (!roadmap) ...`: the stored document when it is truthy. */
  function Loaded(data: map<string, Value>, userId: string): (r: Option<Json>)
    ensures r.Some? <==> RoadmapKey(userId) in data && data[RoadmapKey(userId)].Doc? && JsTruthy(data[RoadmapKey(userId)].doc)
    ensures r.Some? ==> data[RoadmapKey(userId)] == Doc(r.value)
  {
    var key := RoadmapKey(userId);
    if key in data && data[key].Doc? && JsTruthy(data[key].doc) then Some(data[key].doc) else None
  }

  /** `s.id === stageId` */
  predicate HasId(s: Json, id: string) {
    s.JObj? && "id" in s.fields && s.fields["id"] == JStr(id)
  }

  /** `s.status === "active"` */
  predicate IsActive(s: Json) {
    s.JObj? && "status" in s.fields && s.fields["status"] == JStr("active")
  }

  /** The result of `stages.find(s => s.id === stageId)`, where reading `id` of null throws. */
  datatype Found = At(index: nat) | Missing | NullBefore

  function FindFrom(stages: seq<Json>, id: string, from: nat): (r: Found)
    requires from <= |stages|
    decreases |stages| - from
    ensures r.At? ==>
      && from <= r.index < |stages| && HasId(stages[r.index], id)
      && forall j :: from <= j < r.index ==> !HasId(stages[j], id) && stages[j] != JNull
    ensures r.Missing? <==> forall j :: from <= j < |stages| ==> !HasId(stages[j], id) && stages[j] != JNull
  {
    if from == |stages| then Missing
    else if stages[from] == JNull then NullBefore
    else if HasId(stages[from], id) then At(from)
    else FindFrom(stages, id, from + 1)
  }

  function Find(stages: seq<Json>, id: string): (r: Found)
    ensures r.At? ==>
      && r.index < |stages| && HasId(stages[r.index], id)
      && forall j :: 0 <= j < r.index ==> !HasId(stages[j], id) && stages[j] != JNull
    ensures r.Missing? <==> forall j :: 0 <= j < |stages| ==> !HasId(stages[j], id) && stages[j] != JNull
  {
    FindFrom(stages, id, 0)
  }

  /** `{ ...s, status }` */
  function WithStatus(s: Json, status: string): Json
    requires s.JObj?
  {
    JObj(s.fields["status" := JStr(status)])
  }

  /** The status remap of one stage: the target becomes active, a previously active stage completed. */
  function Remap(s: Json, id: string): Json {
    if HasId(s, id) then WithStatus(s, "active")
    else if IsActive(s) then WithStatus(s, "completed")
    else s
  }

  function RemapAll(stages: seq<Json>, id: string): (r: seq<Json>)
    ensures |r| == |stages|
  {
    if stages == [] then [] else [Remap(stages[0], id)] + RemapAll(stages[1..], id)
  }

  lemma {:induction false} RemapAllAt(stages: seq<Json>, id: string, i: nat)
    requires i < |stages|
    ensures RemapAll(stages, id)[i] == Remap(stages[i], id)
  {
    if i > 0 {
      RemapAllAt(stages[1..], id, i - 1);
    }
  }

  /** `roadmap.stages` as an array, or None when reading it or calling a method on it throws. */
  function StagesOf(roadmap: Json): Option<seq<Json>> {
    if roadmap.JObj? && "stages" in roadmap.fields && roadmap.fields["stages"].JArr? then Some(roadmap.fields["stages"].items)
    else None
  }

  /** setStage, as a function of the store before it. */
  function SetStageOf(data: map<string, Value>, userId: string, stageId: string, now: string): Outcome {
    match Loaded(data, userId)
    case None => NoRoadmap
    case Some(roadmap) =>
      match StagesOf(roadmap)
      case None => Threw
      case Some(stages) =>
        match Find(stages, stageId)
        case NullBefore => Threw
        case Missing => NoRoadmap
        case At(_) =>
          if JNull in stages then Threw
          else Saved(JObj(roadmap.fields["currentStageId" := JStr(stageId)]
                                         ["stages" := JArr(RemapAll(stages, stageId))]
                                         ["lastUpdated" := JStr(now)]))
  }

  /**
   * setStage: returns null and writes nothing without a roadmap or without a
   * stage of that id; otherwise writes back the roadmap with the stage
   * switched, unless a null stage makes the remap throw.
   */
  method SetStage(store: KeyValueStore, userId: string, stageId: string, now: string) returns (r: Outcome)
    modifies store
    ensures r == SetStageOf(old(store.data), userId, stageId, now)
    ensures r.Saved? ==> store.data == old(store.data)[RoadmapKey(userId) := Doc(r.roadmap)]
    ensures !r.Saved? ==> store.data == old(store.data)
  {
    var roadmap := Memory.GetJson(store, RoadmapKey(userId));
    if roadmap.None? || !JsTruthy(roadmap.value) {
      return NoRoadmap;
    }
    var stages := StagesOf(roadmap.value);
    if stages.None? {
      return Threw;
    }
    var found := Find(stages.value, stageId);
    if found.NullBefore? {
      return Threw;
    }
    if found.Missing? {
      return NoRoadmap;
    }
    var fields := roadmap.value.fields;
    fields := fields["currentStageId" := JStr(stageId)];
    if JNull in stages.value {
      return Threw;
    }
    fields := fields["stages" := JArr(RemapAll(stages.value, stageId))];
    fields := fields["lastUpdated" := JStr(now)];
    Memory.SetJson(store, RoadmapKey(userId), JObj(fields));
    r := Saved(JObj(fields));
  }

  /** setStage returns null exactly when there is no roadmap, or its stages hold neither the id nor a null. */
  lemma SetStageNull(data: map<string, Value>, userId: string, stageId: string, now: string)
    ensures SetStageOf(data, userId, stageId, now).NoRoadmap? <==>
      || Loaded(data, userId).None?
      || (StagesOf(Loaded(data, userId).value).Some?
          && forall j :: 0 <= j < |StagesOf(Loaded(data, userId).value).value| ==>
               var s := StagesOf(Loaded(data, userId).value).value[j];
               !HasId(s, stageId) && s != JNull)
  {
  }

  /**
   * After setStage, stage i keeps its id; the target is active; a previously
   * active other stage is completed with nothing else changed; every other
   * stage is unchanged; and no stage but the target is active.
   */
  lemma SetStageAt(data: map<string, Value>, userId: string, stageId: string, now: string, i: nat)
    requires SetStageOf(data, userId, stageId, now).Saved?
    ensures var before := StagesOf(Loaded(data, userId).value).value;
      var after := SetStageOf(data, userId, stageId, now).roadmap;
      && StagesOf(after).Some? && |StagesOf(after).value| == |before|
      && (i < |before| ==>
           var s := before[i];
           var t := StagesOf(after).value[i];
           && Field(t, "id") == Field(s, "id")
           && (HasId(s, stageId) ==> IsActive(t) && t.fields == s.fields["status" := JStr("active")])
           && (!HasId(s, stageId) && IsActive(s) ==> t.JObj? && t.fields == s.fields["status" := JStr("completed")])
           && (!HasId(s, stageId) && !IsActive(s) ==> t == s)
           && (IsActive(t) ==> HasId(t, stageId)))
  {
    var before := StagesOf(Loaded(data, userId).value).value;
    if i < |before| {
      RemapAllAt(before, stageId, i);
    }
  }

  /** setStage sets currentStageId and lastUpdated, and no other property of the roadmap but stages. */
  lemma SetStageFields(data: map<string, Value>, userId: string, stageId: string, now: string, name: string)
    requires SetStageOf(data, userId, stageId, now).Saved?
    requires name != "currentStageId" && name != "stages" && name != "lastUpdated"
    ensures var after := SetStageOf(data, userId, stageId, now).roadmap;
      && Field(after, "currentStageId") == Some(JStr(stageId))
      && Field(after, "lastUpdated") == Some(JStr(now))
      && Field(after, name) == Field(Loaded(data, userId).value, name)
  {
  }

  // -------------------------------------------------------------------
  // markTaskCompleted (roadmap.ts:29-43)
  // -------------------------------------------------------------------

  /** `tasks.filter(t => t !== task)` */
  function Without(items: seq<Json>, x: Json): (r: seq<Json>)
    ensures |r| <= |items|
  {
    if items == [] then [] else (if items[0] == x then [] else [items[0]]) + Without(items[1..], x)
  }

  /** The filter drops exactly that task, and keeps the rest in their order. */
  lemma {:induction false} WithoutSpec(items: seq<Json>, x: Json)
    ensures x !in Without(items, x)
    ensures forall y :: y != x ==> (y in Without(items, x) <==> y in items)
    ensures x !in items ==> Without(items, x) == items
  {
    if items != [] {
      WithoutSpec(items[1..], x);
      assert items == [items[0]] + items[1..];
    }
  }

  lemma {:induction false} WithoutConcat(a: seq<Json>, b: seq<Json>, x: Json)
    ensures Without(a + b, x) == Without(a, x) + Without(b, x)
  {
    if a != [] {
      assert (a + b)[1..] == a[1..] + b;
      WithoutConcat(a[1..], b, x);
    } else {
      assert a + b == b;
    }
  }

  /** `stage.tasks` as an array, or None when calling filter on it throws. */
  function TasksOf(stage: Json): Option<seq<Json>> {
    if stage.JObj? && "tasks" in stage.fields && stage.fields["tasks"].JArr? then Some(stage.fields["tasks"].items) else None
  }

  /** markTaskCompleted, as a function of the store before it. */
  function MarkTaskOf(data: map<string, Value>, userId: string, stageId: string, task: string, now: string): Outcome {
    match Loaded(data, userId)
    case None => NoRoadmap
    case Some(roadmap) =>
      match StagesOf(roadmap)
      case None => Threw
      case Some(stages) =>
        match Find(stages, stageId)
        case NullBefore => Threw
        case Missing => NoRoadmap
        case At(k) =>
          match TasksOf(stages[k])
          case None => Threw
          case Some(tasks) =>
            var stage := JObj(stages[k].fields["tasks" := JArr(Without(tasks, JStr(task)))]);
            Saved(JObj(roadmap.fields["stages" := JArr(stages[k := stage])]["lastUpdated" := JStr(now)]))
  }

  /** markTaskCompleted: writes back the roadmap with that task filtered out of the first stage of that id. */
  method MarkTaskCompleted(store: KeyValueStore, userId: string, stageId: string, task: string, now: string)
    returns (r: Outcome)
    modifies store
    ensures r == MarkTaskOf(old(store.data), userId, stageId, task, now)
    ensures r.Saved? ==> store.data == old(store.data)[RoadmapKey(userId) := Doc(r.roadmap)]
    ensures !r.Saved? ==> store.data == old(store.data)
  {
    var roadmap := Memory.GetJson(store, RoadmapKey(userId));
    if roadmap.None? || !JsTruthy(roadmap.value) {
      return NoRoadmap;
    }
    var stages := StagesOf(roadmap.value);
    if stages.None? {
      return Threw;
    }
    var found := Find(stages.value, stageId);
    if !found.At? {
      return if found.Missing? then NoRoadmap else Threw;
    }
    var k := found.index;
    var tasks := TasksOf(stages.value[k]);
    if tasks.None? {
      return Threw;
    }
    var stage := JObj(stages.value[k].fields["tasks" := JArr(Without(tasks.value, JStr(task)))]);
    var fields := roadmap.value.fields["stages" := JArr(stages.value[k := stage])];
    fields := fields["lastUpdated" := JStr(now)];
    Memory.SetJson(store, RoadmapKey(userId), JObj(fields));
    r := Saved(JObj(fields));
  }

  /**
   * After markTaskCompleted the first stage with the id holds its tasks
   * without that task, in order, with its other properties kept; every other
   * stage is unchanged.
   */
  lemma MarkTaskAt(data: map<string, Value>, userId: string, stageId: string, task: string, now: string, i: nat)
    requires MarkTaskOf(data, userId, stageId, task, now).Saved?
    ensures var before := StagesOf(Loaded(data, userId).value).value;
      var after := MarkTaskOf(data, userId, stageId, task, now).roadmap;
      var k := Find(before, stageId).index;
      && StagesOf(after).Some? && |StagesOf(after).value| == |before|
      && (i < |before| && i != k ==> StagesOf(after).value[i] == before[i])
      && (forall j :: 0 <= j < k ==> !HasId(before[j], stageId))
      && TasksOf(StagesOf(after).value[k]) == Some(Without(TasksOf(before[k]).value, JStr(task)))
      && JStr(task) !in TasksOf(StagesOf(after).value[k]).value
      && (forall name :: name != "tasks" && name in before[k].fields ==> Field(StagesOf(after).value[k], name) == Some(before[k].fields[name]))
  {
    var before := StagesOf(Loaded(data, userId).value).value;
    var k := Find(before, stageId).index;
    WithoutSpec(TasksOf(before[k]).value, JStr(task));
  }

  /** markTaskCompleted returns null exactly when there is no roadmap, or its stages hold neither the id nor a null. */
  lemma MarkTaskNull(data: map<string, Value>, userId: string, stageId: string, task: string, now: string)
    ensures MarkTaskOf(data, userId, stageId, task, now).NoRoadmap? <==>
      || Loaded(data, userId).None?
      || (StagesOf(Loaded(data, userId).value).Some?
          && Find(StagesOf(Loaded(data, userId).value).value, stageId).Missing?)
  {
  }
}
