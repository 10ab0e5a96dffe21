/**
 * Prompt policy (src/services/prompts.ts): the faith and push-mode
 * instructions and the coaching system prompt. The records come from JSON,
 * so each parameter is a JSON value with JNull for null, and the template
 * interpolation and the `||` / `??` defaults follow JavaScript.
 */
module Prompts {
  import opened Wrappers
  import opened Strings
  import opened Json

  const NO_FAITH := "Do not mention faith or Christianity."
  const GENTLE_FAITH := "You may gently reference Christian values or faith, but keep it subtle, optional, and respectful."
  const INTEGRATE_FAITH := "You may integrate Christian language, scripture, and faith-based encouragement, but keep it grounded and practical for business."

  const SUPPORTIVE := "Use a supportive, direct, but kind tone."
  const EXTREME := "Use very direct, tough-love coaching. Challenge excuses firmly, but never be abusive or demeaning."
  const STRONG := "Use a direct, tough-love coaching style. Call out inconsistencies and push the user firmly while staying respectful."
  const NORMAL := "Use a slightly more direct tone than usual, reminding the user of their commitments and goals."

  const BASE := "\nYou are Ave Crux AI Coach, a done-with-you business coach for agency owners and coaches.\nYour job is to help them scale from 0 to $100k/month+ using clear strategy, execution guidance,\naccountability, sales training, marketing assets, offer building, hiring systems, and mindset support.\n\nYou must ALWAYS stay in the lane of business, execution, sales, and mindset. Do not give medical or psychological diagnoses.\n"
  const CLOSING := "\nAlways respond with clear, actionable steps, in bullet points where helpful."
  const NO_ROADMAP := "Roadmap not yet defined."
  const NO_OFFER := "Offer not yet fully defined."

  /** faithInstruction: 'off' and 'light' have their own texts; any other value integrates faith. */
  function FaithInstruction(faith: Json): (r: string)
    ensures r == NO_FAITH <==> faith == JStr("off")
    ensures r == GENTLE_FAITH <==> faith == JStr("light")
    ensures r == INTEGRATE_FAITH <==> faith != JStr("off") && faith != JStr("light")
  {
    if faith == JStr("off") then NO_FAITH
    else if faith == JStr("light") then GENTLE_FAITH
    else INTEGRATE_FAITH
  }

  /** Push mode counts as on when the state is truthy and its `enabled` property is truthy. */
  predicate PushOn(pushMode: Json) {
    JsTruthy(pushMode) && Field(pushMode, "enabled").Some? && JsTruthy(Field(pushMode, "enabled").value)
  }

  /** pushModeInstruction: supportive unless push mode is on, then by level, 'normal' or anything else last. */
  function PushModeInstruction(pushMode: Json): (r: string)
    ensures r == SUPPORTIVE <==> !PushOn(pushMode)
    ensures r == EXTREME <==> PushOn(pushMode) && Field(pushMode, "level") == Some(JStr("extreme"))
    ensures r == STRONG <==> PushOn(pushMode) && Field(pushMode, "level") == Some(JStr("strong"))
    ensures r == NORMAL <==> PushOn(pushMode) && Field(pushMode, "level") != Some(JStr("extreme")) && Field(pushMode, "level") != Some(JStr("strong"))
  {
    if !PushOn(pushMode) then SUPPORTIVE
    else if Field(pushMode, "level") == Some(JStr("extreme")) then EXTREME
    else if Field(pushMode, "level") == Some(JStr("strong")) then STRONG
    else NORMAL
  }

  /** `${v}`: JavaScript's string conversion of a property value, "undefined" when absent. */
  function Interp(v: Option<Json>): string {
    match v
    case None => "undefined"
    case Some(j) => Show(j)
  }

  function Show(j: Json): string
    decreases j, 1
  {
    match j
    case JNull => "null"
    case JBool(b) => if b then "true" else "false"
    case JNum(n) => ShowInt(n)
    case JStr(s) => s
    case JArr(items) => ShowItems(items, 0)
    case JObj(_) => "[object Object]"
  }

  /** Array.prototype.toString: the items joined by commas, null as empty. */
  function ShowItems(items: seq<Json>, from: nat): string
    requires from <= |items|
    decreases items, 0, |items| - from
  {
    if from == |items| then ""
    else
      var item := if items[from] == JNull then "" else Show(items[from]);
      if from + 1 == |items| then item else item + "," + ShowItems(items, from + 1)
  }

  /** `record?.name || fallback`: the property's text when it is truthy, the fallback otherwise. */
  function OrDefault(record: Json, name: string, fallback: string): (r: string)
    ensures Field(record, name).None? || !JsTruthy(Field(record, name).value) ==> r == fallback
    ensures Field(record, name).Some? && Field(record, name).value.JStr? && Field(record, name).value.s != "" ==> r == Field(record, name).value.s
  {
    match Field(record, name)
    case Some(v) => if JsTruthy(v) then Show(v) else fallback
    case None => fallback
  }

  /** `record?.name ?? fallback`: only an absent or null property falls back. */
  function OrElse(record: Json, name: string, fallback: Json): (r: Json)
    ensures Field(record, name).None? || Field(record, name) == Some(JNull) ==> r == fallback
    ensures Field(record, name).Some? && Field(record, name).value != JNull ==> r == Field(record, name).value
  {
    match Field(record, name)
    case Some(v) => if v == JNull then fallback else v
    case None => fallback
  }

  /**
   * The faith preference in effect: globally off, or the profile's own with
   * 'light' as default in 'global' mode and 'off' as default otherwise.
   */
  function EffectiveFaith(profile: Json, globalFaithMode: Option<string>): (r: Json)
    ensures globalFaithMode == Some("off") ==> r == JStr("off")
    ensures globalFaithMode == Some("global") ==> r == OrElse(profile, "faithPreference", JStr("light"))
    ensures globalFaithMode != Some("off") && globalFaithMode != Some("global") ==> r == OrElse(profile, "faithPreference", JStr("off"))
  {
    if globalFaithMode == Some("off") then JStr("off")
    else if globalFaithMode == Some("global") then OrElse(profile, "faithPreference", JStr("light"))
    else OrElse(profile, "faithPreference", JStr("off"))
  }

  /** With faith switched off globally, the prompt says not to mention faith whatever the profile holds. */
  lemma GlobalOffSilencesFaith(profile: Json)
    ensures FaithInstruction(EffectiveFaith(profile, Some("off"))) == NO_FAITH
  {
  }

  /** Without a profile preference, 'global' mode is gentle and the other modes are silent. */
  lemma FaithDefaults(mode: Option<string>)
    ensures FaithInstruction(EffectiveFaith(JNull, mode)) == (if mode == Some("global") then GENTLE_FAITH else NO_FAITH)
  {
  }

  function RoadmapInfo(roadmap: Json): (r: string)
    ensures !JsTruthy(roadmap) ==> r == NO_ROADMAP
    ensures JsTruthy(roadmap) ==> r == "Current roadmap stage: " + Interp(Field(roadmap, "currentStageId")) + "."
  {
    if JsTruthy(roadmap) then "Current roadmap stage: " + Interp(Field(roadmap, "currentStageId")) + "." else NO_ROADMAP
  }

  function ProfileSection(profile: Json, roadmap: Json, globalFaithMode: Option<string>): string {
    "\nUser context:\n- Business name: " + OrDefault(profile, "businessName", "their business")
    + "\n- Niche: " + OrDefault(profile, "niche", "not specified")
    + "\n- Current revenue: " + OrDefault(profile, "currentRevenue", "unknown")
    + "\n- Primary goals: " + OrDefault(profile, "primaryGoals", "not specified")
    + "\n- Faith preference: " + Show(EffectiveFaith(profile, globalFaithMode))
    + "\n" + RoadmapInfo(roadmap) + "\n"
  }

  function OfferSection(offer: Json): (r: string)
    ensures !JsTruthy(offer) ==> r == NO_OFFER
  {
    if !JsTruthy(offer) then NO_OFFER
    else "\nOffer context:\n- Offer name: " + Interp(Field(offer, "offerName"))
         + "\n- Avatar: " + Interp(Field(offer, "avatar"))
         + "\n- Promise: " + Interp(Field(offer, "promise"))
         + "\n- Price: " + Interp(Field(offer, "pricePoint"))
         + "\n- Unique mechanism: " + Interp(Field(offer, "uniqueMechanism")) + "\n"
  }

  function ToneOverride(globalTone: Option<string>): (r: string)
    ensures globalTone.None? || globalTone == Some("") ==> r == ""
  {
    if globalTone.Some? && globalTone.value != "" then "Global tone override: " + globalTone.value else ""
  }

  /** Everything between the base text and the closing instruction, in order. */
  function Middle(profile: Json, roadmap: Json, pushMode: Json, offer: Json,
                  globalTone: Option<string>, globalFaithMode: Option<string>): string
  {
    ProfileSection(profile, roadmap, globalFaithMode) + OfferSection(offer)
    + PolicyLines(profile, pushMode, globalTone, globalFaithMode)
  }

  /** The faith, push and tone lines, each after a line break. */
  function PolicyLines(profile: Json, pushMode: Json, globalTone: Option<string>, globalFaithMode: Option<string>): string {
    "\n" + FaithInstruction(EffectiveFaith(profile, globalFaithMode))
    + "\n" + PushModeInstruction(pushMode)
    + "\n" + ToneOverride(globalTone)
  }

  /** coachingSystemPrompt */
  function CoachingSystemPrompt(profile: Json, roadmap: Json, pushMode: Json, offer: Json,
                                globalTone: Option<string>, globalFaithMode: Option<string>): string
  {
    BASE + Middle(profile, roadmap, pushMode, offer, globalTone, globalFaithMode) + CLOSING
  }

  /**
   * The prompt opens with the fixed base text and closes with the
   * bullet-points instruction, with the profile section, the offer section,
   * and the faith, push and tone lines between them.
   */
  lemma PromptLayout(profile: Json, roadmap: Json, pushMode: Json, offer: Json,
                     globalTone: Option<string>, globalFaithMode: Option<string>)
    ensures Framed(CoachingSystemPrompt(profile, roadmap, pushMode, offer, globalTone, globalFaithMode),
                   BASE, Middle(profile, roadmap, pushMode, offer, globalTone, globalFaithMode), CLOSING)
  {
    ThreeParts(BASE, Middle(profile, roadmap, pushMode, offer, globalTone, globalFaithMode), CLOSING);
  }

  /** Text p is a, then m, then c. */
  predicate Framed(p: string, a: string, m: string, c: string) {
    && |p| == |a| + |m| + |c|
    && p[..|a|] == a
    && p[|a|..|p| - |c|] == m
    && p[|p| - |c|..] == c
  }

  lemma ThreeParts(a: string, m: string, c: string)
    ensures Framed(a + m + c, a, m, c)
  {
    var p := a + m + c;
    assert p[..|a|] == a;
    assert p[|a|..|p| - |c|] == m;
    assert p[|p| - |c|..] == c;
  }
}
