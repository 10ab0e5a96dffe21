/**
 * The intake wizard (src/services/coaching/intake.ts) and the /start command
 * that opens it and feeds it answers (src/discord/commands/user/start.ts).
 * The diagnosis and roadmap completions and JSON.parse of the roadmap reply
 * are inputs; a completion that throws is None.
 */
module Intake {
  import opened Wrappers
  import opened Strings
  import opened Json
  import opened Store
  import opened Wizard
  import Memory

  /** INTAKE_QUESTIONS: the keys, in order, and their questions. */
  const INTAKE_KEYS: seq<string> := ["currentRevenue", "offer", "niche", "leadSources", "salesProcess",
                                      "teamSize", "techStack", "bottlenecks", "goals", "faithPreference"]
  const INTAKE_QUESTIONS: seq<string> := [
    "What is your current monthly revenue (roughly)?",
    "Describe your main offer(s) in 1-3 sentences.",
    "Who is your target niche / ideal client?",
    "What are your main lead sources right now?",
    "Describe your sales process (DM -> call, VSL -> call, etc.).",
    "What is your current team size and key roles?",
    "What CRM/tech stack do you use (e.g. GHL)?",
    "What do you feel are your biggest bottlenecks? (e.g. lead gen, offer, sales, fulfillment, retention, mindset, hiring)",
    "What is your target monthly revenue and by when?",
    "How much do you want faith / Christian language integrated? (off, light, strong)"
  ]

  const INTAKE_STATE := "intake_state"
  const BOTTLENECK_MARKER := "[BOTTLENECK_MAP_JSON]"

  function StateKey(userId: string): string {
    UserKey(userId, INTAKE_STATE)
  }

  lemma IntakeKeys()
    ensures |INTAKE_KEYS| == |INTAKE_QUESTIONS| == 10
    ensures forall i, j :: 0 <= i < j < |INTAKE_KEYS| ==> INTAKE_KEYS[i] != INTAKE_KEYS[j]
  {
  }

  /** The intake is done after exactly the tenth answer, with each answer under its own key. */
  lemma IntakeDoneAfterTen(replies: seq<string>)
    requires |replies| <= 10
    ensures var s := Run(INTAKE_KEYS, replies);
      && s.stepIndex == |replies|
      && (CurrentQuestion(INTAKE_KEYS, s).None? <==> |replies| == 10)
      && forall i :: 0 <= i < |replies| ==> INTAKE_KEYS[i] in s.answers && s.answers[INTAKE_KEYS[i]] == Trim(replies[i])
  {
    IntakeKeys();
    RunSpec(INTAKE_KEYS, replies);
  }

  /** handleIntakeAnswer (start.ts): one wizard step over the intake questions. */
  method HandleIntakeAnswer(store: KeyValueStore, userId: string, content: string) returns (r: Option<AnswerReply>)
    modifies store
    ensures var st := GetState(old(store.data), StateKey(userId));
      r.None? <==> st.None? || st.value.stepIndex < 0 || st.value.stepIndex >= 10
    ensures r.None? ==> store.data == old(store.data)
    ensures r.Some? ==>
      var s := GetState(old(store.data), StateKey(userId)).value;
      && GetState(store.data, StateKey(userId)) == Some(WizardState(s.stepIndex + 1, s.answers[INTAKE_KEYS[s.stepIndex] := Trim(content)]))
      && store.data == old(store.data)[StateKey(userId) := Doc(Encode(WizardState(s.stepIndex + 1, s.answers[INTAKE_KEYS[s.stepIndex] := Trim(content)])))]
      && r.value.nextQuestion == (if s.stepIndex + 1 < 10 then Some(s.stepIndex + 1) else None)
      && (r.value.done <==> s.stepIndex + 1 == 10)
  {
    IntakeKeys();
    ghost var s := GetState(store.data, StateKey(userId));
    r := HandleAnswer(store, StateKey(userId), INTAKE_KEYS, content);
    if r.Some? {
      GetStored(old(store.data), StateKey(userId), AnswerStep(s.value, INTAKE_KEYS[s.value.stepIndex], content));
    }
  }

  // -------------------------------------------------------------------
  // The already-onboarded guard of /start (start.ts:23-63)
  // -------------------------------------------------------------------

  datatype StartReply =
    | NotInGuild
    | AlreadyOnboarded
    | IntakeStarted(question: string)    // Q1 is asked

  /** `if (existingProfile)`: a stored profile document that JavaScript counts as true. */
  predicate HasProfile(data: map<string, Value>, userId: string) {
    var key := UserKey(userId, Memory.PROFILE);
    key in data && data[key].Doc? && JsTruthy(data[key].doc)
  }

  /**
   * execute: refused outside a server; a user with a profile is told so and
   * gets no new intake state; anyone else starts at question 1.
   */
  method ExecuteStart(store: KeyValueStore, userId: string, inGuild: bool) returns (r: StartReply)
    modifies store
    ensures !inGuild ==> r == NotInGuild && store.data == old(store.data)
    ensures inGuild && HasProfile(old(store.data), userId) ==> r == AlreadyOnboarded && store.data == old(store.data)
    ensures inGuild && !HasProfile(old(store.data), userId) ==>
      && r == IntakeStarted(INTAKE_QUESTIONS[0])
      && store.data == old(store.data)[StateKey(userId) := Doc(Encode(INITIAL))]
  {
    if !inGuild {
      return NotInGuild;
    }
    var existing := Memory.GetCategory(store, userId, Memory.PROFILE);
    if existing.Some? && JsTruthy(existing.value) {
      return AlreadyOnboarded;
    }
    var state := Start(store, StateKey(userId));
    r := IntakeStarted(INTAKE_QUESTIONS[state.stepIndex]);
  }

  // -------------------------------------------------------------------
  // finalizeIntake (intake.ts:63-144)
  // -------------------------------------------------------------------

  /** The bottleneck list: the answer split at commas with each piece trimmed, empty when unanswered. */
  function BottlenecksOf(answer: Option<string>): (r: seq<string>)
    ensures answer.None? || answer.value == "" ==> r == []
    ensures answer.Some? && answer.value != "" ==>
      |r| == |Split(answer.value, ",")| && forall i :: 0 <= i < |r| ==> r[i] == Trim(Split(answer.value, ",")[i])
  {
    if answer.None? || answer.value == "" then []
    else
      var pieces := Split(answer.value, ",");
      seq(|pieces|, i requires 0 <= i < |pieces| => Trim(pieces[i]))
  }

  /**
   * The pieces the list is trimmed from are exactly the answer cut at its
   * commas, and item i comes from a comma-free piece and has no surrounding
   * whitespace.
   */
  lemma BottleneckClean(answer: string, i: nat)
    requires answer != "" && i < |Split(answer, ",")|
    ensures Join(Split(answer, ","), ",") == answer
    ensures var b := BottlenecksOf(Some(answer));
      && i < |b|
      && !Contains(Split(answer, ",")[i], ",")
      && b[i] == Trim(Split(answer, ",")[i])
      && (b[i] == [] || (!IsSpace(b[i][0]) && !IsSpace(b[i][|b[i]| - 1])))
  {
    JoinSplit(answer, ",");
    TrimSpec(Split(answer, ",")[i]);
  }

  /** Each bottleneck as a JSON string. */
  function JStrs(items: seq<string>): (r: seq<Json>)
    ensures |r| == |items| && forall i :: 0 <= i < |r| ==> r[i] == JStr(items[i])
  {
    if items == [] then [] else [JStr(items[0])] + JStrs(items[1..])
  }

  /** The faith preference: 'strong' or 'light' when answered exactly so, otherwise 'off'. */
  function FaithOf(answer: Option<string>): (r: string)
    ensures r == "off" || r == "light" || r == "strong"
    ensures r != "off" <==> answer == Some("light") || answer == Some("strong")
    ensures r != "off" ==> answer == Some(r)
  {
    if answer == Some("strong") || answer == Some("light") then answer.value else "off"
  }

  function Answer(answers: map<string, string>, key: string): Option<string> {
    if key in answers then Some(answers[key]) else None
  }

  /** The profile properties copied from an answer, when that answer was given. */
  const ANSWERED_FIELDS: set<string> := {"niche", "currentRevenue", "leadSources", "salesProcess",
                                         "teamSize", "techStack", "primaryGoals"}

  /** The profile properties set whatever was answered. */
  const FIXED_FIELDS: set<string> := {"userId", "username", "businessName", "bottlenecks", "faithPreference",
                                      "tonePreference", "communicationStyle", "createdAt", "updatedAt"}

  /** The answer a copied property comes from: its own name, except primaryGoals, which holds the goals answer. */
  function SourceKey(field: string): string {
    if field == "primaryGoals" then "goals" else field
  }

  /** The answered properties, each absent when its answer was not given. */
  function AnsweredFields(answers: map<string, string>): map<string, Json> {
    map field | field in ANSWERED_FIELDS && SourceKey(field) in answers :: JStr(answers[SourceKey(field)])
  }

  /** The profile finalizeIntake stores, as its JSON document. */
  function ProfileOf(userId: string, username: string, answers: map<string, string>, now: string): (r: Json)
    ensures r.JObj?
    ensures "userId" in r.fields && r.fields["userId"] == JStr(userId)
    ensures "tonePreference" in r.fields && r.fields["tonePreference"] == JStr("direct")
    ensures "businessName" in r.fields && r.fields["businessName"] == JStr(username + "'s business")
    ensures "bottlenecks" in r.fields && r.fields["bottlenecks"] == JArr(JStrs(BottlenecksOf(Answer(answers, "bottlenecks"))))
    ensures "faithPreference" in r.fields && r.fields["faithPreference"] == JStr(FaithOf(Answer(answers, "faithPreference")))
  {
    JObj(AnsweredFields(answers)["userId" := JStr(userId)]
                                ["username" := JStr(username)]
                                ["businessName" := JStr(username + "'s business")]
                                ["bottlenecks" := JArr(JStrs(BottlenecksOf(Answer(answers, "bottlenecks"))))]
                                ["faithPreference" := JStr(FaithOf(Answer(answers, "faithPreference")))]
                                ["tonePreference" := JStr("direct")]
                                ["communicationStyle" := JStr("short")]
                                ["createdAt" := JStr(now)]
                                ["updatedAt" := JStr(now)])
  }

  /** Profile field `field` is present exactly when answer `key` was given, and then holds it. */
  predicate Copied(fields: map<string, Json>, field: string, answers: map<string, string>, key: string) {
    && (field in fields <==> key in answers)
    && (key in answers ==> fields[field] == JStr(answers[key]))
  }

  /** No property is both copied from an answer and set regardless. */
  lemma FieldNamesDisjoint()
    ensures ANSWERED_FIELDS !! FIXED_FIELDS
  {
  }

  /** Each answered property of the profile holds its answer, or is absent with it; goals lands in primaryGoals. */
  lemma ProfileCopiesAnswers(userId: string, username: string, answers: map<string, string>, now: string, field: string)
    requires field in ANSWERED_FIELDS
    ensures Copied(ProfileOf(userId, username, answers, now).fields, field, answers, SourceKey(field))
    ensures field == "primaryGoals" ==> SourceKey(field) == "goals"
    ensures field != "primaryGoals" ==> SourceKey(field) == field
  {
    FieldNamesDisjoint();
    assert field !in FIXED_FIELDS;
  }

  /** The property names of a profile are the answered ones and the fixed ones. */
  lemma ProfileKeysOnly(userId: string, username: string, answers: map<string, string>, now: string, name: string)
    requires name in ProfileOf(userId, username, answers, now).fields
    ensures name in FIXED_FIELDS || (name in ANSWERED_FIELDS && SourceKey(name) in answers)
  {
  }

  /**
   * The roadmap built from the parsed reply: reading a property of null
   * throws, which the catch turns into no roadmap; any other value gives its
   * currentStageId and stages (absent when undefined).
   */
  function RoadmapOf(userId: string, parsed: Json, now: string): (r: Option<Json>)
    ensures r.None? <==> parsed == JNull
    ensures r.Some? ==>
      && r.value.JObj?
      && "userId" in r.value.fields && r.value.fields["userId"] == JStr(userId)
      && "lastUpdated" in r.value.fields && r.value.fields["lastUpdated"] == JStr(now)
      && ("stages" in r.value.fields <==> Field(parsed, "stages").Some?)
      && (Field(parsed, "stages").Some? ==> r.value.fields["stages"] == Field(parsed, "stages").value)
  {
    if parsed == JNull then None
    else
      var base := map["userId" := JStr(userId), "lastUpdated" := JStr(now)];
      Some(JObj(Put(Put(base, "currentStageId", Field(parsed, "currentStageId")), "stages", Field(parsed, "stages"))))
  }

  datatype IntakeResult = IntakeResult(profile: Json, roadmap: Option<Json>, diagnosisText: string)

  /** The roadmap step: no roadmap when the completion throws, the reply does not parse, or it parses to null. */
  function RoadmapStep(userId: string, now: string, profile: Json, bottleneckJson: string, goals: string,
                       roadmapReply: (Json, string, string) -> Option<string>, parse: string -> Option<Json>): Option<Json>
  {
    match roadmapReply(profile, bottleneckJson, goals)
    case None => None
    case Some(text) =>
      match parse(text)
      case None => None
      case Some(parsed) => RoadmapOf(userId, parsed, now)
  }

  /**
   * finalizeIntake: throws without an intake state, or when the diagnosis
   * completion throws, changing nothing; otherwise stores the profile, stores
   * the roadmap when one comes out, and always clears the intake state.
   */
  method FinalizeIntake(store: KeyValueStore, userId: string, username: string, now: string,
                        diagnosis: Option<string>,
                        roadmapReply: (Json, string, string) -> Option<string>,
                        parse: string -> Option<Json>)
    returns (r: Result<IntakeResult>)
    modifies store
    ensures GetState(old(store.data), StateKey(userId)).None? ==> r == Failure("No intake state") && store.data == old(store.data)
    ensures diagnosis.None? ==> r.Failure? && store.data == old(store.data)
    ensures GetState(old(store.data), StateKey(userId)).Some? && diagnosis.Some? ==>
      var answers := GetState(old(store.data), StateKey(userId)).value.answers;
      var profile := ProfileOf(userId, username, answers, now);
      var goals := if "goals" in answers then answers["goals"] else "";
      var roadmap := RoadmapStep(userId, now, profile, AfterMarker(diagnosis.value, BOTTLENECK_MARKER), goals, roadmapReply, parse);
      var withProfile := old(store.data)[UserKey(userId, Memory.PROFILE) := Doc(profile)];
      && r == Success(IntakeResult(profile, roadmap, diagnosis.value))
      && store.data == (if roadmap.Some? then withProfile[UserKey(userId, Memory.ROADMAP) := Doc(roadmap.value)] else withProfile) - {StateKey(userId)}
  {
    var state := GetState(store.data, StateKey(userId));
    if state.None? {
      return Failure("No intake state");
    }
    var answers := state.value.answers;
    if diagnosis.None? {
      return Failure("diagnosis completion failed");
    }
    var diagnosisText := diagnosis.value;
    var bottleneckJson := AfterMarker(diagnosisText, BOTTLENECK_MARKER);
    var profile := ProfileOf(userId, username, answers, now);
    Memory.SetJson(store, UserKey(userId, Memory.PROFILE), profile);
    var goals := if "goals" in answers && answers["goals"] != "" then answers["goals"] else "";
    var roadmap := RoadmapStep(userId, now, profile, bottleneckJson, goals, roadmapReply, parse);
    if roadmap.Some? {
      Memory.SetJson(store, UserKey(userId, Memory.ROADMAP), roadmap.value);
    }
    Clear(store, StateKey(userId));
    r := Success(IntakeResult(profile, roadmap, diagnosisText));
  }

  /** A diagnosis without the bottleneck marker hands the roadmap completion the text '{}'. */
  lemma NoMarkerBottleneck(userId: string, now: string, profile: Json, diagnosis: string, goals: string,
                           roadmapReply: (Json, string, string) -> Option<string>, parse: string -> Option<Json>)
    requires !Contains(diagnosis, BOTTLENECK_MARKER)
    ensures RoadmapStep(userId, now, profile, AfterMarker(diagnosis, BOTTLENECK_MARKER), goals, roadmapReply, parse)
         == RoadmapStep(userId, now, profile, "{}", goals, roadmapReply, parse)
  {
  }

  /** Whatever the completions do, a finished intake leaves no intake state behind. */
  lemma FinalizeClearsState(data: map<string, Value>, userId: string, profile: Json, roadmap: Option<Json>)
    ensures var withProfile := data[UserKey(userId, Memory.PROFILE) := Doc(profile)];
      var after := (if roadmap.Some? then withProfile[UserKey(userId, Memory.ROADMAP) := Doc(roadmap.value)] else withProfile) - {StateKey(userId)};
      GetState(after, StateKey(userId)).None?
      && UserKey(userId, Memory.PROFILE) in after && after[UserKey(userId, Memory.PROFILE)] == Doc(profile)
  {
    UserKeyCategories(userId, Memory.PROFILE, INTAKE_STATE);
    UserKeyCategories(userId, Memory.ROADMAP, Memory.PROFILE);
  }
}
