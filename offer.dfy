/**
 * The offer-builder wizard (src/services/coaching/offer.ts) and its command
 * (src/discord/commands/user/offer.ts). The offer completion and JSON.parse of
 * its JSON part are inputs; a completion or parse that throws is None.
 */
module Offer {
  import opened Wrappers
  import opened Strings
  import opened Json
  import opened Store
  import opened Wizard
  import Memory

  /** OFFER_QUESTIONS: the keys, in order, and their questions. */
  const OFFER_KEYS: seq<string> := ["avatar", "problem", "promise", "pricePoint", "proof"]
  const OFFER_QUESTIONS: seq<string> := [
    "Who is your target avatar? (be specific)",
    "What painful problem do you solve for them?",
    "What outcome or transformation do you promise?",
    "What is your current or ideal price point?",
    "What proof or case studies do you have (or can we create)?"
  ]

  const OFFER_STATE := "offer_state"
  const OFFER_MARKER := "[OFFER_JSON]"

  function StateKey(userId: string): string {
    UserKey(userId, OFFER_STATE)
  }

  lemma OfferKeys()
    ensures |OFFER_KEYS| == |OFFER_QUESTIONS| == 5
    ensures forall i, j :: 0 <= i < j < |OFFER_KEYS| ==> OFFER_KEYS[i] != OFFER_KEYS[j]
  {
  }

  /** The wizard is done after exactly the fifth answer, with each answer under its own key. */
  lemma OfferDoneAfterFive(replies: seq<string>)
    requires |replies| <= 5
    ensures var s := Run(OFFER_KEYS, replies);
      && s.stepIndex == |replies|
      && (CurrentQuestion(OFFER_KEYS, s).None? <==> |replies| == 5)
      && forall i :: 0 <= i < |replies| ==> OFFER_KEYS[i] in s.answers && s.answers[OFFER_KEYS[i]] == Trim(replies[i])
  {
    OfferKeys();
    RunSpec(OFFER_KEYS, replies);
  }

  /**
   * `/offer start` as the command file has it: `MessageFlags` is used at
   * offer.ts:24 but never imported, so building the reply throws a
   * ReferenceError after the fresh state is stored, and the first question
   * is never sent.
   */
  method StartOfferAsWritten(store: KeyValueStore, userId: string) returns (asked: Option<string>)
    modifies store
    ensures store.data == old(store.data)[StateKey(userId) := Doc(Encode(INITIAL))]
    ensures asked.None?
  {
    var _ := Start(store, StateKey(userId));
    asked := None;
  }

  /** `/offer start` with MessageFlags imported: a fresh wizard state, whatever was stored before, and the first question. */
  method StartOffer(store: KeyValueStore, userId: string) returns (question: string)
    modifies store
    ensures store.data == old(store.data)[StateKey(userId) := Doc(Encode(INITIAL))]
    ensures question == OFFER_QUESTIONS[0]
  {
    var s := Start(store, StateKey(userId));
    question := OFFER_QUESTIONS[s.stepIndex];
  }

  /** handleOfferAnswer: one wizard step over the offer questions. */
  method HandleOfferAnswer(store: KeyValueStore, userId: string, content: string) returns (r: Option<AnswerReply>)
    modifies store
    ensures var st := GetState(old(store.data), StateKey(userId));
      r.None? <==> st.None? || st.value.stepIndex < 0 || st.value.stepIndex >= 5
    ensures r.None? ==> store.data == old(store.data)
    ensures r.Some? ==>
      var s := GetState(old(store.data), StateKey(userId)).value;
      && GetState(store.data, StateKey(userId)) == Some(WizardState(s.stepIndex + 1, s.answers[OFFER_KEYS[s.stepIndex] := Trim(content)]))
      && store.data == old(store.data)[StateKey(userId) := Doc(Encode(WizardState(s.stepIndex + 1, s.answers[OFFER_KEYS[s.stepIndex] := Trim(content)])))]
      && r.value.nextQuestion == (if s.stepIndex + 1 < 5 then Some(s.stepIndex + 1) else None)
      && (r.value.done <==> s.stepIndex + 1 == 5)
  {
    OfferKeys();
    ghost var s := GetState(store.data, StateKey(userId));
    r := HandleAnswer(store, StateKey(userId), OFFER_KEYS, content);
    if r.Some? {
      GetStored(old(store.data), StateKey(userId), AnswerStep(s.value, OFFER_KEYS[s.value.stepIndex], content));
    }
  }

  // -------------------------------------------------------------------
  // finalizeOffer (offer.ts:56-88)
  // -------------------------------------------------------------------

  /** The properties of the parsed reply that finalizeOffer copies. */
  const OFFER_FIELDS: set<string> := {"offerName", "avatar", "problem", "promise", "pricePoint",
                                      "uniqueMechanism", "programStructure", "guarantees", "backendSystems"}

  /** The copied properties, each absent when undefined on the parsed reply. */
  function ParsedFields(parsed: Json): map<string, Json> {
    map name | name in OFFER_FIELDS && Field(parsed, name).Some? :: Field(parsed, name).value
  }

  /** The offer document: the copied properties plus the user id and the time. */
  function OfferOf(userId: string, parsed: Json, now: string): (r: Json)
    ensures r.JObj?
    ensures "userId" in r.fields && r.fields["userId"] == JStr(userId)
    ensures "lastUpdated" in r.fields && r.fields["lastUpdated"] == JStr(now)
  {
    JObj(ParsedFields(parsed)["userId" := JStr(userId)]["lastUpdated" := JStr(now)])
  }

  /** Offer field `name` is present exactly when the parsed reply has it, and then equals it. */
  predicate CopiedFrom(fields: map<string, Json>, name: string, parsed: Json) {
    && (name in fields <==> Field(parsed, name).Some?)
    && (Field(parsed, name).Some? ==> fields[name] == Field(parsed, name).value)
  }

  /** Each of the nine offer properties is the parsed reply's own, or absent with it. */
  lemma OfferCopiesParsed(userId: string, parsed: Json, now: string, name: string)
    requires name in OFFER_FIELDS
    ensures CopiedFrom(OfferOf(userId, parsed, now).fields, name, parsed)
  {
    assert name != "userId" && name != "lastUpdated";
  }

  /** The property names of an offer document are the copied ones plus userId and lastUpdated. */
  lemma OfferKeysOnly(userId: string, parsed: Json, now: string, name: string)
    requires name in OfferOf(userId, parsed, now).fields
    ensures name == "userId" || name == "lastUpdated" || (name in OFFER_FIELDS && parsed.JObj? && name in parsed.fields)
  {
  }

  /**
   * A reply without the marker falls back to the text '{}'; when that parses
   * to the empty object, the stored offer holds only the user id and the time.
   */
  lemma NoMarkerOffer(userId: string, now: string, reply: string, parse: string -> Option<Json>)
    requires !Contains(reply, OFFER_MARKER)
    requires parse("{}") == Some(JObj(map[]))
    ensures parse(AfterMarker(reply, OFFER_MARKER)) == Some(JObj(map[]))
    ensures OfferOf(userId, parse(AfterMarker(reply, OFFER_MARKER)).value, now)
         == JObj(map["userId" := JStr(userId), "lastUpdated" := JStr(now)])
  {
    assert ParsedFields(JObj(map[])) == map[];
  }

  datatype Finalized = Finalized(offer: Json, raw: string)

  /**
   * finalizeOffer: throws, changing nothing, without a wizard state, when the
   * completion throws, when the JSON part does not parse, or when it parses
   * to null (reading a property of null); otherwise stores the offer, clears
   * the wizard state and returns the offer with the raw reply.
   */
  method FinalizeOffer(store: KeyValueStore, userId: string, now: string,
                       response: Option<string>, parse: string -> Option<Json>)
    returns (r: Result<Finalized>)
    modifies store
    ensures GetState(old(store.data), StateKey(userId)).None? ==> r == Failure("no offer state") && store.data == old(store.data)
    ensures r.Failure? ==> store.data == old(store.data)
    ensures r.Failure? <==>
      || GetState(old(store.data), StateKey(userId)).None?
      || response.None?
      || parse(AfterMarker(response.value, OFFER_MARKER)) in {None, Some(JNull)}
    ensures r.Success? ==>
      var offer := OfferOf(userId, parse(AfterMarker(response.value, OFFER_MARKER)).value, now);
      && r.value == Finalized(offer, response.value)
      && store.data == old(store.data)[UserKey(userId, Memory.OFFER) := Doc(offer)] - {StateKey(userId)}
  {
    var state := GetState(store.data, StateKey(userId));
    if state.None? {
      return Failure("no offer state");
    }
    if response.None? {
      return Failure("offer completion failed");
    }
    var jsonText := AfterMarker(response.value, OFFER_MARKER);
    var parsed := parse(jsonText);
    if parsed.None? {
      return Failure("offer JSON does not parse");
    }
    if parsed.value == JNull {
      return Failure("cannot read properties of null");
    }
    var offer := OfferOf(userId, parsed.value, now);
    Memory.SetJson(store, UserKey(userId, Memory.OFFER), offer);
    Clear(store, StateKey(userId));
    r := Success(Finalized(offer, response.value));
  }

  // -------------------------------------------------------------------
  // /offer status (offer.ts command, lines 29-52)
  // -------------------------------------------------------------------

  /** The reply: no offer, the offer with its two sliced fields, or a throw. */
  datatype StatusReply = NoOfferYet | ShowOffer(offer: Json, programStructure: Json, guarantees: Json) | StatusRaised

  /**
   * `v.slice(0, 1024)`: the first 1024 characters of a string or items of an
   * array; on undefined, null or any other value, reading or calling slice throws.
   */
  function Slice1024(v: Option<Json>): (r: Option<Json>)
    ensures r.Some? <==> v.Some? && (v.value.JStr? || v.value.JArr?)
    ensures v.Some? && v.value.JStr? ==> r == Some(JStr(Take(v.value.s, 1024)))
    ensures v.Some? && v.value.JArr? ==> r.value.JArr? && r.value.items <= v.value.items && |r.value.items| == Min(|v.value.items|, 1024)
  {
    match v
    case Some(JStr(s)) => Some(JStr(Take(s, 1024)))
    case Some(JArr(items)) => Some(JArr(if |items| <= 1024 then items else items[..1024]))
    case _ => None
  }

  function Min(a: int, b: int): int {
    if a <= b then a else b
  }

  /** The stored offer /offer status reads: GET of the offer key, or None. */
  function StoredOffer(store: KeyValueStore, userId: string): Option<Json>
    reads store
  {
    Memory.GetCategory(store, userId, Memory.OFFER)
  }

  /**
   * `/offer status` with MessageFlags imported: without a truthy stored offer
   * the user is told to run /offer start; otherwise the embed slices
   * programStructure and guarantees, which throws unless each is a string or an array.
   */
  function OfferStatus(store: KeyValueStore, userId: string): (r: StatusReply)
    reads store
    ensures r.NoOfferYet? <==> StoredOffer(store, userId).None? || !JsTruthy(StoredOffer(store, userId).value)
    ensures r.ShowOffer? ==>
      && store.data[UserKey(userId, Memory.OFFER)] == Doc(r.offer)
      && Slice1024(Field(r.offer, "programStructure")) == Some(r.programStructure)
      && Slice1024(Field(r.offer, "guarantees")) == Some(r.guarantees)
    ensures r.StatusRaised? <==>
      && StoredOffer(store, userId).Some? && JsTruthy(StoredOffer(store, userId).value)
      && (Slice1024(Field(StoredOffer(store, userId).value, "programStructure")).None?
          || Slice1024(Field(StoredOffer(store, userId).value, "guarantees")).None?)
  {
    match StoredOffer(store, userId)
    case Some(offer) =>
      if !JsTruthy(offer) then NoOfferYet
      else
        var program := Slice1024(Field(offer, "programStructure"));
        var guarantees := Slice1024(Field(offer, "guarantees"));
        if program.None? || guarantees.None? then StatusRaised
        else ShowOffer(offer, program.value, guarantees.value)
    case None => NoOfferYet
  }

  /**
   * `/offer status` as the command file has it: the reply at offer.ts:51 uses the
   * unimported MessageFlags, so every truthy stored offer ends in a throw.
   */
  function OfferStatusAsWritten(store: KeyValueStore, userId: string): (r: StatusReply)
    reads store
    ensures r != NoOfferYet <==> r == StatusRaised
    ensures r == StatusRaised <==> StoredOffer(store, userId).Some? && JsTruthy(StoredOffer(store, userId).value)
  {
    match StoredOffer(store, userId)
    case Some(offer) => if JsTruthy(offer) then StatusRaised else NoOfferYet
    case None => NoOfferYet
  }

  /** A complete stored offer: as written it throws; with the import it is shown, its long texts cut to 1024 characters. */
  lemma StatusDiscrepancy(store: KeyValueStore, userId: string, program: string, guarantees: string)
    requires var key := UserKey(userId, Memory.OFFER);
      && key in store.data && store.data[key].Doc? && store.data[key].doc.JObj?
      && Field(store.data[key].doc, "programStructure") == Some(JStr(program))
      && Field(store.data[key].doc, "guarantees") == Some(JStr(guarantees))
    ensures OfferStatusAsWritten(store, userId) == StatusRaised
    ensures OfferStatus(store, userId) == ShowOffer(store.data[UserKey(userId, Memory.OFFER)].doc,
                                                    JStr(Take(program, 1024)), JStr(Take(guarantees, 1024)))
  {
  }
}
