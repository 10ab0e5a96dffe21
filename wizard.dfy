/**
 * The question-by-question wizards of the TypeScript bot (the intake wizard
 * in src/services/coaching/intake.ts with src/discord/commands/user/start.ts,
 * and the offer wizard in src/services/coaching/offer.ts with
 * src/discord/commands/user/offer.ts). Both keep `{stepIndex, answers}` as a
 * JSON document under one key of the user and walk a fixed list of question
 * keys; only the key name and the question list differ.
 */
module Wizard {
  import opened Wrappers
  import opened Strings
  import opened Json
  import opened Store

  datatype WizardState = WizardState(stepIndex: int, answers: map<string, string>)

  const INITIAL := WizardState(0, map[])

  /** The stored document: JSON.stringify of the state. */
  function Encode(s: WizardState): Json {
    JObj(map["stepIndex" := JNum(s.stepIndex),
             "answers" := JObj(map k | k in s.answers :: JStr(s.answers[k]))])
  }

  predicate AllStrings(fields: map<string, Json>) {
    forall k :: k in fields ==> fields[k].JStr?
  }

  /** Reading a document back; a document of any other shape reads as no state. */
  function Decode(j: Json): Option<WizardState> {
    if j.JObj? && "stepIndex" in j.fields && j.fields["stepIndex"].JNum?
       && "answers" in j.fields && j.fields["answers"].JObj? && AllStrings(j.fields["answers"].fields)
    then
      var a := j.fields["answers"].fields;
      Some(WizardState(j.fields["stepIndex"].n, map k | k in a :: a[k].s))
    else None
  }

  /** What is written is what is read. */
  lemma DecodeEncode(s: WizardState)
    ensures Decode(Encode(s)) == Some(s)
  {
    var a := map k | k in s.answers :: JStr(s.answers[k]);
    assert (map k | k in a :: a[k].s) == s.answers;
  }

  /**
   * getIntakeState / getOfferWizardState: null when the key is absent, holds
   * text that is not a state document, or holds a document of another shape.
   */
  function GetState(data: map<string, Value>, key: string): (r: Option<WizardState>)
    ensures key !in data || !data[key].Doc? ==> r.None?
    ensures r.Some? ==> key in data && data[key].Doc? && data[key].doc.JObj?
  {
    if key in data && data[key].Doc? then Decode(data[key].doc) else None
  }

  /** A stored state reads back as itself. */
  lemma GetStored(data: map<string, Value>, key: string, s: WizardState)
    ensures GetState(data[key := Doc(Encode(s))], key) == Some(s)
  {
    DecodeEncode(s);
  }

  /** startIntake / startOfferWizard: step 0, no answers, written under the key. */
  method Start(store: KeyValueStore, key: string) returns (s: WizardState)
    modifies store
    ensures s == INITIAL && GetState(store.data, key) == Some(INITIAL)
    ensures store.data == old(store.data)[key := Doc(Encode(INITIAL))]
  {
    s := INITIAL;
    store.Set(key, Doc(Encode(s)));
    GetStored(old(store.data), key, s);
  }

  /**
   * updateIntakeState / updateOfferWizardState: the updater is applied to the
   * stored state, or to step 0 with no answers when there is none, and exactly
   * its result is written back and returned.
   */
  method Update(store: KeyValueStore, key: string, updater: WizardState -> WizardState) returns (next: WizardState)
    modifies store
    ensures next == updater(GetState(old(store.data), key).GetOr(INITIAL))
    ensures store.data == old(store.data)[key := Doc(Encode(next))]
    ensures GetState(store.data, key) == Some(next)
  {
    var current := GetState(store.data, key).GetOr(INITIAL);
    next := updater(current);
    store.Set(key, Doc(Encode(next)));
    GetStored(old(store.data), key, next);
  }

  /** clearIntakeState / clearOfferWizardState. */
  method Clear(store: KeyValueStore, key: string)
    modifies store
    ensures store.data == old(store.data) - {key}
    ensures GetState(store.data, key).None?
  {
    var _ := store.Delete(key);
  }

  /** The question at stepIndex, None when the index is outside the list. */
  function CurrentQuestion(questions: seq<string>, s: WizardState): (r: Option<nat>)
    ensures r.Some? <==> 0 <= s.stepIndex < |questions|
    ensures r.Some? ==> r.value == s.stepIndex
  {
    if 0 <= s.stepIndex < |questions| then Some(s.stepIndex as nat) else None
  }

  /** The updater of an answer: the trimmed reply under the current key, and one step on. */
  function AnswerStep(s: WizardState, key: string, content: string): (r: WizardState)
    ensures r.stepIndex == s.stepIndex + 1
    ensures key in r.answers && r.answers[key] == Trim(content)
    ensures forall k :: k != key ==> (k in r.answers <==> k in s.answers)
    ensures forall k :: k != key && k in s.answers ==> r.answers[k] == s.answers[k]
  {
    WizardState(s.stepIndex + 1, s.answers[key := Trim(content)])
  }

  datatype AnswerReply = AnswerReply(done: bool, nextQuestion: Option<nat>)

  /**
   * handleIntakeAnswer / handleOfferAnswer: null without a state or past the
   * last question; otherwise the answer is recorded, the state written back,
   * and `done` says whether any question remains at the new index.
   */
  method HandleAnswer(store: KeyValueStore, key: string, questions: seq<string>, content: string)
    returns (r: Option<AnswerReply>)
    modifies store
    ensures var st := GetState(old(store.data), key);
      r.None? <==> st.None? || CurrentQuestion(questions, st.value).None?
    ensures r.None? ==> store.data == old(store.data)
    ensures r.Some? ==>
      var s := GetState(old(store.data), key).value;
      var next := AnswerStep(s, questions[s.stepIndex], content);
      && store.data == old(store.data)[key := Doc(Encode(next))]
      && r.value.nextQuestion == CurrentQuestion(questions, next)
      && (r.value.done <==> next.stepIndex >= |questions|)
  {
    var state := GetState(store.data, key);
    if state.None? {
      return None;
    }
    var q := CurrentQuestion(questions, state.value);
    if q.None? {
      return None;
    }
    var qkey := questions[q.value];
    var next := Update(store, key, s => AnswerStep(s, qkey, content));
    var nextQ := CurrentQuestion(questions, next);
    r := Some(AnswerReply(nextQ.None?, nextQ));
  }

  /** The state after answering from step 0, one reply per question, while questions remain. */
  function Run(questions: seq<string>, replies: seq<string>): WizardState
    requires |replies| <= |questions|
  {
    if replies == [] then INITIAL
    else AnswerStep(Run(questions, replies[..|replies| - 1]), questions[|replies| - 1], replies[|replies| - 1])
  }

  /**
   * After n replies the wizard is at step n with every reply stored trimmed
   * under its question's key, and it is done exactly when n is the number of
   * questions.
   */
  lemma {:induction false} RunSpec(questions: seq<string>, replies: seq<string>)
    requires |replies| <= |questions|
    requires forall i, j :: 0 <= i < j < |questions| ==> questions[i] != questions[j]
    ensures Run(questions, replies).stepIndex == |replies|
    ensures forall i :: 0 <= i < |replies| ==>
      questions[i] in Run(questions, replies).answers && Run(questions, replies).answers[questions[i]] == Trim(replies[i])
    ensures forall k :: k in Run(questions, replies).answers ==> exists i :: 0 <= i < |replies| && questions[i] == k
    ensures CurrentQuestion(questions, Run(questions, replies)).None? <==> |replies| == |questions|
  {
    if replies != [] {
      var init := replies[..|replies| - 1];
      RunSpec(questions, init);
      var prev := Run(questions, init);
      var r := Run(questions, replies);
      forall k | k in r.answers
        ensures exists i :: 0 <= i < |replies| && questions[i] == k
      {
        if k != questions[|replies| - 1] {
          var i :| 0 <= i < |init| && questions[i] == k;
        }
      }
      forall i | 0 <= i < |replies|
        ensures questions[i] in r.answers && r.answers[questions[i]] == Trim(replies[i])
      {
        if i < |init| {
          assert init[i] == replies[i];
        }
      }
    }
  }

  // -------------------------------------------------------------------
  // Finalisation helpers shared by both wizards
  // -------------------------------------------------------------------

  /**
   * `text.match(/<marker>\s*([\s\S]+)/)` followed by `.trim()`, or '{}' when
   * there is no match: the regex matches at the first occurrence of the marker
   * exactly when at least one character follows it.
   */
  function AfterMarker(text: string, marker: string): (r: string)
    ensures !Contains(text, marker) ==> r == "{}"
  {
    match IndexOf(text, marker)
    case None => "{}"
    case Some(i) => if i + |marker| < |text| then Trim(text[i + |marker|..]) else "{}"
  }

  /**
   * A reply made of a preamble without the marker's first character, the
   * marker, and some text gives back that text, trimmed.
   */
  lemma AfterMarkerOf(pre: string, marker: string, body: string)
    requires |marker| > 0 && |body| > 0
    requires forall i :: 0 <= i < |pre| ==> pre[i] != marker[0]
    ensures AfterMarker(pre + marker + body, marker) == Trim(body)
  {
    var text := pre + marker + body;
    assert text[|pre|..|pre| + |marker|] == marker;
    assert OccursAt(text, marker, |pre|);
    forall j | 0 <= j < |pre|
      ensures !OccursAt(text, marker, j)
    {
      assert text[j..j + |marker|][0] == pre[j];
    }
    assert IndexOf(text, marker) == Some(|pre|);
    assert text[|pre| + |marker|..] == body;
  }

  /** An object property that JSON.stringify keeps only when it is defined. */
  function Put(fields: map<string, Json>, name: string, v: Option<Json>): (r: map<string, Json>)
    ensures v.Some? ==> r == fields[name := v.value]
    ensures v.None? ==> r == fields
  {
    if v.Some? then fields[name := v.value] else fields
  }
}
