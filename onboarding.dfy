/**
 * Strict onboarding in the user's private thread (bot.py, run_onboarding,
 * get_or_create_private_thread and start_command). The user's replies are a
 * sequence of events, one per question asked; a `Timeout` event, or running out
 * of events, is the 900-second wait expiring. What the bot posts to the thread
 * is returned as a trace of notices.
 */
module Onboarding {
  import opened Wrappers
  import opened Strings
  import opened Json
  import opened Store
  import opened BotKeys
  import opened TemplateScheduler
  import Memory

  /** ONBOARDING_QUESTIONS: six metadata keys and their questions, asked in this order. */
  const KEYS: seq<string> := ["niche", "offer", "revenue", "goal", "bottleneck", "email"]
  const QUESTIONS: seq<string> := [
    "1\U{FE0F}\U{20E3} Who do you serve?",
    "2\U{FE0F}\U{20E3} What is your core offer?",
    "3\U{FE0F}\U{20E3} What's your current monthly revenue + profit?",
    "4\U{FE0F}\U{20E3} Your 5\U{2013}6 month target?",
    "5\U{FE0F}\U{20E3} Your biggest bottleneck?",
    "6\U{FE0F}\U{20E3} Best email for your Asana program board?"
  ]
  const COUNT := 6
  const EMAIL_INDEX := 5

  const COMPLETE_FLAG := "onboarding_complete"

  datatype Event = Answer(text: string) | Timeout

  /** The messages the bot posts to the thread. */
  datatype Notice =
    | Greeting(mention: string)
    | Ask(index: nat)            // question `index` of QUESTIONS
    | TimeoutNotice
    | BoardReady(url: string)
    | BoardFailed
    | Complete
    | Starting
    | WelcomeBack

  function NoticeText(n: Notice): string {
    match n
    case Greeting(m) => "Hey " + m + "! \U{1F44B}\nSTRICT ONBOARDING MODE.\nI will ask 6 questions only. No coaching yet.\n"
    case Ask(i) => if i < |QUESTIONS| then QUESTIONS[i] else ""
    case TimeoutNotice => "\U{23F3} Timeout. Use `!start` to resume later."
    case BoardReady(url) => "\U{2705} Your Asana board is ready:\n" + url
    case BoardFailed => "\U{26A0}\U{FE0F} Failed to auto-create Asana board. Derek will handle it."
    case Complete => "\U{1F389} Onboarding complete! You may now talk to me normally."
    case Starting => "Starting onboarding\U{2026}"
    case WelcomeBack => "Welcome back \U{2014} you're already onboarded."
  }

  /** A question notice posts that question; the board notice ends with the board's link. */
  lemma NoticeTexts(i: nat, url: string)
    requires i < COUNT
    ensures NoticeText(Ask(i)) == QUESTIONS[i]
    ensures var t := NoticeText(BoardReady(url)); |url| <= |t| && t[|t| - |url|..] == url
  {
    var t := NoticeText(BoardReady(url));
    assert t == "\U{2705} Your Asana board is ready:\n" + url;
  }

  lemma QuestionKeysDistinct()
    ensures |KEYS| == |QUESTIONS| == COUNT && KEYS[EMAIL_INDEX] == "email"
    ensures forall i, j :: 0 <= i < j < COUNT ==> KEYS[i] != KEYS[j]
    ensures forall i :: 0 <= i < COUNT ==> KEYS[i] != COMPLETE_FLAG
  {
  }

  /** The reply to question i; past the end of the events the wait times out. */
  function EventAt(events: seq<Event>, i: nat): Event {
    if i < |events| then events[i] else Timeout
  }

  function AnswerText(e: Event): string {
    match e
    case Answer(t) => t
    case Timeout => ""
  }

  /** How many questions from i on are answered before the first timeout, counted up to the sixth. */
  function AnsweredFrom(events: seq<Event>, i: nat): (k: nat)
    requires i <= COUNT
    ensures i <= k <= COUNT
    ensures forall j :: i <= j < k ==> EventAt(events, j).Answer?
    ensures k < COUNT ==> EventAt(events, k).Timeout?
    decreases COUNT - i
  {
    if i == COUNT then i
    else if EventAt(events, i).Answer? then AnsweredFrom(events, i + 1)
    else i
  }

  /** The number of questions answered before the first timeout (6 when the user answers all). */
  function Answered(events: seq<Event>): nat {
    AnsweredFrom(events, 0)
  }

  /** Below the count of answered questions, the wait at question i times out exactly at that count. */
  lemma AnsweredStops(events: seq<Event>, i: nat)
    requires i <= Answered(events) && i < COUNT
    ensures EventAt(events, i).Timeout? <==> i == Answered(events)
  {
  }

  /** The metadata built before the first question. */
  function InitialMeta(uid: int, name: string, now: string): map<string, Json> {
    map["discord_id" := JNum(uid), "discord_name" := JStr(name),
        "created_at_utc" := JStr(now), COMPLETE_FLAG := JBool(false)]
  }

  /** The metadata after the first k answers are recorded. */
  function Recorded(meta0: map<string, Json>, replies: seq<string>, k: nat): map<string, Json>
    requires k <= COUNT <= |replies|
  {
    if k == 0 then meta0
    else Recorded(meta0, replies, k - 1)[KEYS[k - 1] := JStr(replies[k - 1])]
  }

  /** The six replies, stripped; a question not answered reads as empty. */
  function Replies(events: seq<Event>): (r: seq<string>)
    ensures |r| == COUNT
  {
    seq(COUNT, i requires 0 <= i < COUNT => Trim(AnswerText(EventAt(events, i))))
  }

  /** Each of the first k answers is stored stripped under its own key. */
  lemma {:induction false} RecordedAnswer(meta0: map<string, Json>, replies: seq<string>, k: nat, j: nat)
    requires j < k <= COUNT <= |replies|
    ensures KEYS[j] in Recorded(meta0, replies, k)
    ensures Recorded(meta0, replies, k)[KEYS[j]] == JStr(replies[j])
  {
    if j < k - 1 {
      RecordedAnswer(meta0, replies, k - 1, j);
      QuestionKeysDistinct();
      assert KEYS[k - 1] != KEYS[j];
    }
  }

  /** A key none of the first k questions uses keeps its value. */
  lemma {:induction false} RecordedOther(meta0: map<string, Json>, replies: seq<string>, k: nat, key: string)
    requires k <= COUNT <= |replies|
    requires forall j :: 0 <= j < k ==> KEYS[j] != key
    ensures key in Recorded(meta0, replies, k) <==> key in meta0
    ensures key in meta0 ==> Recorded(meta0, replies, k)[key] == meta0[key]
  {
    if k > 0 {
      RecordedOther(meta0, replies, k - 1, key);
    }
  }

  /** The questions posted, in order, when the first n are asked. */
  function Asks(n: nat): (r: seq<Notice>)
    requires n <= COUNT
    ensures |r| == n && forall i :: 0 <= i < n ==> r[i] == Ask(i)
  {
    seq(n, i requires 0 <= i < n => Ask(i))
  }

  lemma AsksSnoc(n: nat)
    requires n < COUNT
    ensures Asks(n + 1) == Asks(n) + [Ask(n)]
  {
  }

  /** The store once question i has been reached: its stage key holds i (nothing before the first). */
  function Staged(data: map<string, Value>, uid: int, i: nat): map<string, Value> {
    if i == 0 then data else data[StageKey(uid) := Text(ShowInt(i))]
  }

  lemma StagedNext(data: map<string, Value>, uid: int, i: nat)
    ensures Staged(data, uid, i)[StageKey(uid) := Text(ShowInt(i + 1))] == Staged(data, uid, i + 1)
  {
    var m := Staged(data, uid, i)[StageKey(uid) := Text(ShowInt(i + 1))];
    assert m.Keys == Staged(data, uid, i + 1).Keys;
  }

  /** Deleting the stage key forgets what it held. */
  lemma StageDropped(data: map<string, Value>, uid: int, stage: Value, saved: Value)
    ensures data[StageKey(uid) := stage][MetaKey(uid) := saved] - {StageKey(uid)}
         == data[MetaKey(uid) := saved] - {StageKey(uid)}
  {
    var l := data[StageKey(uid) := stage][MetaKey(uid) := saved] - {StageKey(uid)};
    var r := data[MetaKey(uid) := saved] - {StageKey(uid)};
    assert l.Keys == r.Keys;
  }

  /** The store after the board step: only a created board writes the project key. */
  function AfterBoard(data: map<string, Value>, uid: int, asana: AsanaWorld, board: Option<DupResult>): map<string, Value> {
    if board.Some? && board.value.Board? && asana.duplicate.newGid.Some?
    then data[AsanaProjectKey(uid) := Text(asana.duplicate.newGid.value)]
    else data
  }

  /** The notices the board step posts. */
  function BoardNotices(board: Option<DupResult>): seq<Notice> {
    match board
    case None => []
    case Some(Board(url, _)) => [BoardReady(url)]
    case Some(NoBoard) => [BoardFailed]
    case Some(DupRaised(_)) => []
  }

  predicate Raised(board: Option<DupResult>) {
    board.Some? && board.value.DupRaised?
  }

  /**
   * run_onboarding's effect, from store `before` to store `after`: before
   * question i the stage key holds i + 1; each answer is recorded stripped; a
   * timeout posts the timeout notice and returns the metadata unsaved, leaving
   * the stage key behind; after the sixth answer the metadata is saved with
   * onboarding_complete set and the stage key deleted, and a board is
   * requested exactly when the email answer is non-empty.
   */
  predicate OnboardingRun(before: map<string, Value>, after: map<string, Value>, uid: int, name: string,
                          mention: string, now: string, events: seq<Event>, asana: AsanaWorld,
                          meta: map<string, Json>, trace: seq<Notice>, board: Option<DupResult>)
  {
    var k := Answered(events);
    && (k < COUNT ==>
          && meta == Recorded(InitialMeta(uid, name, now), Replies(events), k)
          && after == before[StageKey(uid) := Text(ShowInt(k + 1))]
          && board.None?
          && trace == [Greeting(mention)] + Asks(k + 1) + [TimeoutNotice])
    && (k == COUNT ==>
          && meta == Recorded(InitialMeta(uid, name, now), Replies(events), COUNT)[COMPLETE_FLAG := JBool(true)]
          && (board.None? <==> Replies(events)[EMAIL_INDEX] == "")
          && (board.Some? ==> DupOutcome(asana, board.value))
          && after == AfterBoard(before[MetaKey(uid) := Doc(JObj(meta))] - {StageKey(uid)}, uid, asana, board)
          && trace == [Greeting(mention)] + Asks(COUNT) + BoardNotices(board) + (if Raised(board) then [] else [Complete]))
  }

  /** run_onboarding, over the store as it is when onboarding starts. */
  method RunOnboarding(store: KeyValueStore, uid: int, name: string, mention: string, now: string,
                       events: seq<Event>, asana: AsanaWorld)
    returns (meta: map<string, Json>, trace: seq<Notice>, board: Option<DupResult>)
    modifies store
    ensures OnboardingRun(old(store.data), store.data, uid, name, mention, now, events, asana, meta, trace, board)
  {
    var asked;
    meta, asked := AskQuestions(store, uid, InitialMeta(uid, name, now), events);
    trace := [Greeting(mention)] + asked;
    board := None;
    if Answered(events) < COUNT {
      return;
    }
    meta := meta[COMPLETE_FLAG := JBool(true)];
    var tail;
    tail, board := FinishOnboarding(store, uid, meta, asana);
    StageDropped(old(store.data), uid, Text(ShowInt(COUNT)), Doc(JObj(meta)));
    QuestionKeysDistinct();
    RecordedAnswer(InitialMeta(uid, name, now), Replies(events), COUNT, EMAIL_INDEX);
    trace := trace + tail;
  }

  /** The question loop: ask, set the stage, wait, record; stop at the first timeout. */
  method AskQuestions(store: KeyValueStore, uid: int, meta0: map<string, Json>, events: seq<Event>)
    returns (meta: map<string, Json>, asked: seq<Notice>)
    modifies store
    ensures var k := Answered(events);
      && meta == Recorded(meta0, Replies(events), k)
      && (k < COUNT ==> store.data == Staged(old(store.data), uid, k + 1) && asked == Asks(k + 1) + [TimeoutNotice])
      && (k == COUNT ==> store.data == Staged(old(store.data), uid, COUNT) && asked == Asks(COUNT))
  {
    ghost var k := Answered(events);
    ghost var replies := Replies(events);
    ghost var data0 := store.data;
    meta := meta0;
    asked := [];
    var i := 0;
    while i < COUNT
      invariant 0 <= i <= k
      invariant meta == Recorded(meta0, replies, i)
      invariant asked == Asks(i)
      invariant store.data == Staged(data0, uid, i)
    {
      store.Set(StageKey(uid), Text(ShowInt(i + 1)));
      StagedNext(data0, uid, i);
      AsksSnoc(i);
      asked := asked + [Ask(i)];
      var e := EventAt(events, i);
      AnsweredStops(events, i);
      if e.Timeout? {
        asked := asked + [TimeoutNotice];
        return;
      }
      assert i < k;
      assert replies[i] == Trim(e.text);
      meta := meta[KEYS[i] := JStr(Trim(e.text))];
      i := i + 1;
    }
  }

  /** Completion: save the metadata, drop the stage key, then request a board when the email is non-empty. */
  method FinishOnboarding(store: KeyValueStore, uid: int, meta: map<string, Json>, asana: AsanaWorld)
    returns (tail: seq<Notice>, board: Option<DupResult>)
    modifies store
    ensures board.None? <==> !("email" in meta && PyTruthy(meta["email"]))
    ensures board.Some? ==> DupOutcome(asana, board.value)
    ensures store.data == AfterBoard(old(store.data)[MetaKey(uid) := Doc(JObj(meta))] - {StageKey(uid)}, uid, asana, board)
    ensures tail == BoardNotices(board) + (if Raised(board) then [] else [Complete])
  {
    Memory.SetJson(store, MetaKey(uid), JObj(meta));
    var _ := store.Delete(StageKey(uid));
    tail := [];
    board := None;
    if "email" in meta && PyTruthy(meta["email"]) {
      var r := DuplicateProjectForUser(store, uid, asana);
      board := Some(r);
      match r {
        case Board(url, _) =>
          tail := [BoardReady(url)];
        case NoBoard =>
          tail := [BoardFailed];
        case DupRaised(_) =>
          return;
      }
    }
    tail := tail + [Complete];
  }

  // -------------------------------------------------------------------
  // The private thread (bot.py:212-226)
  // -------------------------------------------------------------------

  datatype ThreadLookup =
    | Reused(id: int)       // the stored thread still exists
    | Created(id: int)      // a new private thread, now bound to the user
    | BadStoredId           // the stored id is not an integer: int() raises

  /**
   * The thread the user gets: the stored one while it exists, otherwise the
   * newly created `newId`. `live` is the set of thread ids the guild can see.
   */
  function LookupThread(data: map<string, Value>, uid: int, live: set<int>, newId: int): ThreadLookup {
    if TextTruthy(data, ThreadKey(uid)) then
      match ParsePyInt(StoredText(data, ThreadKey(uid)).value)
      case None => BadStoredId
      case Some(t) => if t in live then Reused(t) else Created(newId)
    else Created(newId)
  }

  /** get_or_create_private_thread: a new thread replaces the binding; a reused one changes nothing. */
  method GetOrCreatePrivateThread(store: KeyValueStore, uid: int, live: set<int>, newId: int) returns (r: ThreadLookup)
    modifies store
    ensures r == LookupThread(old(store.data), uid, live, newId)
    ensures r.Created? ==> store.data == old(store.data)[ThreadKey(uid) := Text(ShowInt(newId))]
    ensures !r.Created? ==> store.data == old(store.data)
  {
    var existing := StoredText(store.data, ThreadKey(uid));
    if existing.Some? && existing.value != "" {
      var t := ParsePyInt(existing.value);
      if t.None? {
        return BadStoredId;
      }
      if t.value in live {
        return Reused(t.value);
      }
    }
    store.Set(ThreadKey(uid), Text(ShowInt(newId)));
    r := Created(newId);
  }

  /** A binding of `id` makes the next lookup reuse it while the thread exists. */
  lemma BoundThreadReused(data: map<string, Value>, uid: int, id: int, live: set<int>, newId: int)
    requires ThreadKey(uid) in data && data[ThreadKey(uid)] == Text(ShowInt(id))
    requires id in live
    ensures LookupThread(data, uid, live, newId) == Reused(id)
  {
    ParseShowInt(id);
    assert StoredText(data, ThreadKey(uid)) == Some(ShowInt(id));
  }

  /** One binding per user: after a lookup, the next lookup finds the same thread while it exists. */
  lemma BindingIsReused(data: map<string, Value>, uid: int, live: set<int>, newId: int, live2: set<int>, newId2: int)
    requires LookupThread(data, uid, live, newId) != BadStoredId
    requires LookupThread(data, uid, live, newId).id in live2
    ensures var r := LookupThread(data, uid, live, newId);
      LookupThread(if r.Created? then data[ThreadKey(uid) := Text(ShowInt(newId))] else data, uid, live2, newId2) == Reused(r.id)
  {
    var r := LookupThread(data, uid, live, newId);
    if r.Created? {
      BoundThreadReused(data[ThreadKey(uid) := Text(ShowInt(newId))], uid, newId, live2, newId2);
    } else {
      var t := ParsePyInt(StoredText(data, ThreadKey(uid)).value);
      assert t == Some(r.id);
    }
  }

  // -------------------------------------------------------------------
  // !start (bot.py:237-252)
  // -------------------------------------------------------------------

  datatype StartOutcome =
    | ThreadError                                             // the thread lookup raised
    | Onboarded(thread: int, meta: map<string, Json>, trace: seq<Notice>, board: Option<DupResult>)
    | Welcomed(thread: int)

  /** The store after the thread lookup: a created thread is bound to the user. */
  function ThreadBound(data: map<string, Value>, uid: int, t: ThreadLookup): map<string, Value> {
    if t.Created? then data[ThreadKey(uid) := Text(ShowInt(t.id))] else data
  }

  /** Whether the stored metadata says onboarding is complete. */
  predicate OnboardingComplete(data: map<string, Value>, uid: int) {
    COMPLETE_FLAG in MetaOf(data, uid) && PyTruthy(MetaOf(data, uid)[COMPLETE_FLAG])
  }

  /**
   * start_command: a user whose metadata says complete is welcomed back and
   * the store changes in the thread binding at most; anyone else is onboarded.
   */
  method StartCommand(store: KeyValueStore, uid: int, name: string, mention: string, now: string,
                      events: seq<Event>, live: set<int>, newId: int, asana: AsanaWorld)
    returns (r: StartOutcome)
    modifies store
    ensures var t := LookupThread(old(store.data), uid, live, newId);
      t == BadStoredId <==> r == ThreadError
    ensures r.ThreadError? ==> store.data == old(store.data)
    ensures var t := LookupThread(old(store.data), uid, live, newId);
      t != BadStoredId && OnboardingComplete(old(store.data), uid) ==>
        && r == Welcomed(t.id)
        && store.data == ThreadBound(old(store.data), uid, t)
    ensures var t := LookupThread(old(store.data), uid, live, newId);
      t != BadStoredId && !OnboardingComplete(old(store.data), uid) ==>
        && r.Onboarded? && r.thread == t.id && |r.trace| > 0 && r.trace[0] == Starting
        && OnboardingRun(ThreadBound(old(store.data), uid, t), store.data, uid, name, mention, now, events, asana,
                         r.meta, r.trace[1..], r.board)
  {
    var t := GetOrCreatePrivateThread(store, uid, live, newId);
    if t.BadStoredId? {
      return ThreadError;
    }
    assert store.data == ThreadBound(old(store.data), uid, t);
    BotKeysDistinct(uid);
    assert MetaOf(store.data, uid) == MetaOf(old(store.data), uid);
    var meta := MetaOf(store.data, uid);
    if !(COMPLETE_FLAG in meta && PyTruthy(meta[COMPLETE_FLAG])) {
      var m, trace, board := RunOnboarding(store, uid, name, mention, now, events, asana);
      r := Onboarded(t.id, m, [Starting] + trace, board);
      assert r.trace[1..] == trace;
    } else {
      r := Welcomed(t.id);
    }
  }
}
