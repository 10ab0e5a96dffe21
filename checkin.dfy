/**
 * The daily check-in task of the Python bot (bot.py, daily_checkins): every
 * ten minutes, and only in the hour that is 8 in UTC-6, every user with
 * metadata who has not been checked in today and has a live private thread
 * gets one check-in message, after which today's date is stored as their
 * last check-in. One run is one sequential pass over the keys KEYS returned.
 * Which ids are threads and whether a send goes through are inputs.
 */
module DailyCheckin {
  import opened Wrappers
  import opened Strings
  import opened Json
  import opened Store
  import opened BotKeys

  const META_PATTERN := Pattern("user:", ":meta")
  const CHECKIN_HOUR := 8
  const DEFAULT_GOAL := JStr("Grow")

  /** `(hour - 6) % 24 == 8` with Python's modulo, which for divisor 24 never goes negative. */
  predicate IsCheckinHour(utcHour: int) {
    (utcHour - 6) % 24 == CHECKIN_HOUR
  }

  /** For a clock hour the gate opens at 14:00 UTC and at no other hour. */
  lemma CheckinHourIs14(utcHour: int)
    requires 0 <= utcHour < 24
    ensures IsCheckinHour(utcHour) <==> utcHour == 14
  {
  }

  /** The user id of a metadata key: the second ':'-separated piece, read by int(). */
  function KeyUid(key: string): Option<int> {
    var parts := Split(key, ":");
    if |parts| < 2 then None else ParsePyInt(parts[1])
  }

  /** A metadata key gives back the user id it was built from. */
  lemma MetaKeyUid(uid: int)
    ensures KeyUid(MetaKey(uid)) == Some(uid)
  {
    var u := ShowInt(uid);
    ShowIntNoColon(uid);
    var key := MetaKey(uid);
    var rest := u + ":" + META;
    assert key == "user" + ":" + rest;
    FirstColon("user", rest);
    FirstColon(u, META);
    assert key[..4] == "user" && key[5..] == rest;
    assert rest[..|u|] == u && rest[|u| + 1..] == META;
    SplitHead(rest, ":");
    assert Split(key, ":") == ["user"] + Split(rest, ":");
    ParseShowInt(uid);
  }

  /** In `a + ":" + b` with no colon in a, the first colon is the one after a. */
  lemma FirstColon(a: string, b: string)
    requires NoColon(a)
    ensures IndexOf(a + ":" + b, ":") == Some(|a|)
  {
    var s := a + ":" + b;
    assert OccursAt(s, ":", |a|);
    forall j | 0 <= j < |a|
      ensures !OccursAt(s, ":", j)
    {
      assert s[j..j + 1][0] == a[j];
    }
  }

  /** The message posted: it names the stored goal. */
  const CHECKIN_HEADER := "\U{1F4C6} **Daily Check-In**\nGoal: **"

  function CheckinText(goal: string): string {
    CHECKIN_HEADER + goal + "**" + "\n\n1) What you did yesterday\n2) Top 1\U{2013}3 actions today\n3) Any blockers?"
  }

  /** The check-in message shows the goal in bold right after its header line. */
  lemma CheckinNamesGoal(goal: string)
    ensures var t := CheckinText(goal);
      var at := |CHECKIN_HEADER|;
      && at + |goal| + 2 <= |t|
      && t[..at] == CHECKIN_HEADER && t[at..at + |goal|] == goal && t[at + |goal|..at + |goal| + 2] == "**"
  {
    var rest := "\n\n1) What you did yesterday\n2) Top 1\U{2013}3 actions today\n3) Any blockers?";
    var t := CheckinText(goal);
    assert t == CHECKIN_HEADER + goal + "**" + rest;
    assert t[..|CHECKIN_HEADER|] == CHECKIN_HEADER;
    assert t[|CHECKIN_HEADER|..|CHECKIN_HEADER| + |goal|] == goal;
    assert t[|CHECKIN_HEADER| + |goal|..|CHECKIN_HEADER| + |goal| + 2] == "**";
  }

  datatype Delivery = Delivery(uid: int, thread: int, goal: Json)

  datatype Step =
    | Skip            // `continue`
    | Abort           // an exception leaves the loop: the run ends here
    | Send(d: Delivery)

  /** The goal shown: the metadata's "goal", "Grow" when there is none. */
  function GoalOf(data: map<string, Value>, uid: int): Json {
    var meta := MetaOf(data, uid);
    if "goal" in meta then meta["goal"] else DEFAULT_GOAL
  }

  /** A user still to be served today: not checked in today, and a thread id is stored. */
  predicate Due(data: map<string, Value>, uid: int, today: string) {
    StoredText(data, LastCheckinKey(uid)) != Some(today) && TextTruthy(data, ThreadKey(uid))
  }

  /** The stored thread id as int() reads it; None when it is absent or int() raises. */
  function ThreadId(data: map<string, Value>, uid: int): Option<int> {
    match StoredText(data, ThreadKey(uid))
    case None => None
    case Some(s) => ParsePyInt(s)
  }

  /**
   * One key of the loop, in the source's order of checks: an id int() rejects
   * is skipped; so is a user checked in today or without a stored thread; a
   * thread id int() rejects raises; a channel that is not a thread is
   * skipped; a failed send raises.
   */
  function StepOf(data: map<string, Value>, key: string, today: string,
                  isThread: int -> bool, sendOk: int -> bool): (r: Step)
    ensures r.Send? ==>
      && KeyUid(key) == Some(r.d.uid) && StoredText(data, LastCheckinKey(r.d.uid)) != Some(today)
      && TextTruthy(data, ThreadKey(r.d.uid)) && ParsePyInt(StoredText(data, ThreadKey(r.d.uid)).value) == Some(r.d.thread)
      && isThread(r.d.thread) && sendOk(r.d.thread) && r.d.goal == GoalOf(data, r.d.uid)
    ensures KeyUid(key).None? ==> r == Skip
    ensures KeyUid(key).Some? && !Due(data, KeyUid(key).value, today) ==> r == Skip
    ensures KeyUid(key).Some? && Due(data, KeyUid(key).value, today) ==>
      var u := KeyUid(key).value;
      var t := ThreadId(data, u);
      && (t.None? ==> r == Abort)
      && (t.Some? && !isThread(t.value) ==> r == Skip)
      && (t.Some? && isThread(t.value) && !sendOk(t.value) ==> r == Abort)
      && (t.Some? && isThread(t.value) && sendOk(t.value) ==> r == Send(Delivery(u, t.value, GoalOf(data, u))))
  {
    match KeyUid(key)
    case None => Skip
    case Some(uid) =>
      if StoredText(data, LastCheckinKey(uid)) == Some(today) then Skip
      else if !TextTruthy(data, ThreadKey(uid)) then Skip
      else
        match ParsePyInt(StoredText(data, ThreadKey(uid)).value)
        case None => Abort
        case Some(t) =>
          if !isThread(t) then Skip
          else if !sendOk(t) then Abort
          else Send(Delivery(uid, t, GoalOf(data, uid)))
  }

  datatype Pass = Pass(data: map<string, Value>, sent: seq<Delivery>, aborted: bool)

  /** The run after one more step: an aborted run stays as it is, a send marks the user served today. */
  function Advance(p: Pass, step: Step, today: string): Pass {
    if p.aborted then p
    else match step
      case Skip => p
      case Abort => Pass(p.data, p.sent, true)
      case Send(d) => Pass(p.data[LastCheckinKey(d.uid) := Text(today)], p.sent + [d], false)
  }

  /** The run over the first |keys| keys from the snapshot `data`. */
  function PassOf(data: map<string, Value>, keys: seq<string>, today: string,
                  isThread: int -> bool, sendOk: int -> bool): Pass
  {
    if keys == [] then Pass(data, [], false)
    else
      var p := PassOf(data, keys[..|keys| - 1], today, isThread, sendOk);
      Advance(p, StepOf(p.data, keys[|keys| - 1], today, isThread, sendOk), today)
  }

  /** The run over one more key is that key's step after the run so far. */
  lemma PassSnoc(data: map<string, Value>, keys: seq<string>, today: string,
                 isThread: int -> bool, sendOk: int -> bool, i: nat)
    requires i < |keys|
    ensures var p := PassOf(data, keys[..i], today, isThread, sendOk);
      PassOf(data, keys[..i + 1], today, isThread, sendOk) == Advance(p, StepOf(p.data, keys[i], today, isThread, sendOk), today)
  {
    assert keys[..i + 1][..i] == keys[..i];
  }

  /** A run writes nothing but today's date, and only under last-check-in keys of users it sent to. */
  lemma {:induction false} PassWrites(data: map<string, Value>, keys: seq<string>, today: string,
                                      isThread: int -> bool, sendOk: int -> bool, key: string)
    ensures var p := PassOf(data, keys, today, isThread, sendOk);
      (key in data ==> key in p.data)
      && (key in p.data ==>
            (key in data && p.data[key] == data[key])
            || (p.data[key] == Text(today) && exists j :: 0 <= j < |p.sent| && key == LastCheckinKey(p.sent[j].uid)))
  {
    if keys != [] {
      var init := keys[..|keys| - 1];
      var p := PassOf(data, init, today, isThread, sendOk);
      PassWrites(data, init, today, isThread, sendOk, key);
      var q := PassOf(data, keys, today, isThread, sendOk);
      if !p.aborted && StepOf(p.data, keys[|keys| - 1], today, isThread, sendOk).Send? {
        var d := StepOf(p.data, keys[|keys| - 1], today, isThread, sendOk).d;
        assert q.sent == p.sent + [d];
        if key in p.data && key != LastCheckinKey(d.uid) && !(key in data && p.data[key] == data[key]) {
          var j :| 0 <= j < |p.sent| && key == LastCheckinKey(p.sent[j].uid);
          assert q.sent[j] == p.sent[j];
        }
        if key == LastCheckinKey(d.uid) {
          assert q.sent[|p.sent|] == d;
        }
      }
    }
  }

  /** A run changes neither a user's metadata nor their stored thread id. */
  lemma PassKeepsUser(data: map<string, Value>, keys: seq<string>, today: string,
                      isThread: int -> bool, sendOk: int -> bool, uid: int)
    ensures var p := PassOf(data, keys, today, isThread, sendOk);
      MetaOf(p.data, uid) == MetaOf(data, uid) && StoredText(p.data, ThreadKey(uid)) == StoredText(data, ThreadKey(uid))
  {
    var p := PassOf(data, keys, today, isThread, sendOk);
    PassWrites(data, keys, today, isThread, sendOk, MetaKey(uid));
    PassWrites(data, keys, today, isThread, sendOk, ThreadKey(uid));
    forall j | 0 <= j < |p.sent|
      ensures MetaKey(uid) != LastCheckinKey(p.sent[j].uid) && ThreadKey(uid) != LastCheckinKey(p.sent[j].uid)
    {
      if MetaKey(uid) == LastCheckinKey(p.sent[j].uid) {
        BotKeyInjective(uid, META, p.sent[j].uid, LAST_CHECKIN);
      }
      if ThreadKey(uid) == LastCheckinKey(p.sent[j].uid) {
        BotKeyInjective(uid, THREAD, p.sent[j].uid, LAST_CHECKIN);
      }
    }
  }

  /**
   * In a run not yet ended by a raise, a key whose user is due at that point,
   * whose stored thread id reads as a thread and whose send goes through
   * appends exactly that user's check-in, with the goal of the metadata.
   */
  lemma PassDelivers(data: map<string, Value>, keys: seq<string>, today: string,
                     isThread: int -> bool, sendOk: int -> bool, i: nat, uid: int, thread: int)
    requires i < |keys| && KeyUid(keys[i]) == Some(uid)
    requires var p := PassOf(data, keys[..i], today, isThread, sendOk);
      !p.aborted && StoredText(p.data, LastCheckinKey(uid)) != Some(today)
    requires TextTruthy(data, ThreadKey(uid)) && ThreadId(data, uid) == Some(thread) && isThread(thread) && sendOk(thread)
    ensures var p := PassOf(data, keys[..i], today, isThread, sendOk);
      var q := PassOf(data, keys[..i + 1], today, isThread, sendOk);
      q.sent == p.sent + [Delivery(uid, thread, GoalOf(data, uid))] && !q.aborted
  {
    var p := PassOf(data, keys[..i], today, isThread, sendOk);
    PassSnoc(data, keys, today, isThread, sendOk, i);
    PassKeepsUser(data, keys[..i], today, isThread, sendOk, uid);
    assert Due(p.data, uid, today) && ThreadId(p.data, uid) == Some(thread);
    assert GoalOf(p.data, uid) == GoalOf(data, uid);
  }

  /** Once a user's last check-in is today, a run leaves it so and sends them nothing. */
  lemma {:induction false} ServedStayServed(data: map<string, Value>, keys: seq<string>, today: string,
                                            isThread: int -> bool, sendOk: int -> bool, uid: int)
    requires StoredText(data, LastCheckinKey(uid)) == Some(today)
    ensures var p := PassOf(data, keys, today, isThread, sendOk);
      StoredText(p.data, LastCheckinKey(uid)) == Some(today)
      && forall j :: 0 <= j < |p.sent| ==> p.sent[j].uid != uid
  {
    if keys != [] {
      var init := keys[..|keys| - 1];
      ServedStayServed(data, init, today, isThread, sendOk, uid);
    }
  }

  /** Everyone a run sent to has today's date as last check-in afterwards. */
  lemma {:induction false} SentIsMarked(data: map<string, Value>, keys: seq<string>, today: string,
                                        isThread: int -> bool, sendOk: int -> bool, j: nat)
    requires j < |PassOf(data, keys, today, isThread, sendOk).sent|
    ensures var p := PassOf(data, keys, today, isThread, sendOk);
      StoredText(p.data, LastCheckinKey(p.sent[j].uid)) == Some(today)
  {
    PassMarksSent(data, keys, today, isThread, sendOk);
  }

  /** Every user a run has sent to holds today's date as last check-in. */
  predicate AllMarked(p: Pass, today: string) {
    forall j :: 0 <= j < |p.sent| ==> StoredText(p.data, LastCheckinKey(p.sent[j].uid)) == Some(today)
  }

  lemma {:induction false} PassMarksSent(data: map<string, Value>, keys: seq<string>, today: string,
                                         isThread: int -> bool, sendOk: int -> bool)
    ensures AllMarked(PassOf(data, keys, today, isThread, sendOk), today)
  {
    if keys != [] {
      var init := keys[..|keys| - 1];
      var p := PassOf(data, init, today, isThread, sendOk);
      PassMarksSent(data, init, today, isThread, sendOk);
      AdvanceMarks(p, StepOf(p.data, keys[|keys| - 1], today, isThread, sendOk), today);
    }
  }

  lemma AdvanceMarks(p: Pass, step: Step, today: string)
    requires AllMarked(p, today)
    ensures AllMarked(Advance(p, step, today), today)
  {
    if !p.aborted && step.Send? {
      var q := Advance(p, step, today);
      forall j | 0 <= j < |q.sent|
        ensures StoredText(q.data, LastCheckinKey(q.sent[j].uid)) == Some(today)
      {
        if j < |p.sent| {
          assert q.sent[j] == p.sent[j];
        }
      }
    }
  }

  predicate UniqueUids(ds: seq<Delivery>) {
    forall i, j :: 0 <= i < j < |ds| ==> ds[i].uid != ds[j].uid
  }

  lemma UniqueSnoc(ds: seq<Delivery>, d: Delivery)
    requires UniqueUids(ds) && forall i :: 0 <= i < |ds| ==> ds[i].uid != d.uid
    ensures UniqueUids(ds + [d])
  {
  }

  /** Within one run nobody gets two check-ins, even when two metadata keys read as the same id. */
  lemma {:induction false} AtMostOncePerRun(data: map<string, Value>, keys: seq<string>, today: string,
                                            isThread: int -> bool, sendOk: int -> bool)
    ensures UniqueUids(PassOf(data, keys, today, isThread, sendOk).sent)
  {
    if keys != [] {
      var init := keys[..|keys| - 1];
      var pre := PassOf(data, init, today, isThread, sendOk);
      AtMostOncePerRun(data, init, today, isThread, sendOk);
      var step := StepOf(pre.data, keys[|keys| - 1], today, isThread, sendOk);
      if !pre.aborted && step.Send? {
        forall i | 0 <= i < |pre.sent|
          ensures pre.sent[i].uid != step.d.uid
        {
          SentIsMarked(data, init, today, isThread, sendOk, i);
        }
        UniqueSnoc(pre.sent, step.d);
      }
    }
  }

  /** A second run on the same date sends nothing to anyone the first run served. */
  lemma SecondRunSkipsServed(data: map<string, Value>, keys1: seq<string>, keys2: seq<string>, today: string,
                             isThread: int -> bool, sendOk: int -> bool,
                             isThread2: int -> bool, sendOk2: int -> bool)
    ensures var p1 := PassOf(data, keys1, today, isThread, sendOk);
      var p2 := PassOf(p1.data, keys2, today, isThread2, sendOk2);
      forall i, j :: 0 <= i < |p1.sent| && 0 <= j < |p2.sent| ==> p1.sent[i].uid != p2.sent[j].uid
  {
    var p1 := PassOf(data, keys1, today, isThread, sendOk);
    forall i | 0 <= i < |p1.sent|
      ensures var p2 := PassOf(p1.data, keys2, today, isThread2, sendOk2);
        forall j :: 0 <= j < |p2.sent| ==> p1.sent[i].uid != p2.sent[j].uid
    {
      SentIsMarked(data, keys1, today, isThread, sendOk, i);
      ServedStayServed(p1.data, keys2, today, isThread2, sendOk2, p1.sent[i].uid);
    }
  }

  /** The loop of one run, key by key, reading and writing the store. */
  method RunPass(store: KeyValueStore, keys: seq<string>, today: string,
                 isThread: int -> bool, sendOk: int -> bool) returns (sent: seq<Delivery>, aborted: bool)
    modifies store
    ensures var p := PassOf(old(store.data), keys, today, isThread, sendOk);
      store.data == p.data && sent == p.sent && aborted == p.aborted
  {
    sent := [];
    aborted := false;
    var i := 0;
    while i < |keys|
      invariant 0 <= i <= |keys|
      invariant PassOf(old(store.data), keys[..i], today, isThread, sendOk) == Pass(store.data, sent, aborted)
    {
      PassSnoc(old(store.data), keys, today, isThread, sendOk, i);
      var step := StepOf(store.data, keys[i], today, isThread, sendOk);
      match step {
        case Skip =>
        case Abort =>
          aborted := true;
          AbortedPassStays(old(store.data), keys, today, isThread, sendOk, i + 1);
          return;
        case Send(d) =>
          store.Set(LastCheckinKey(d.uid), Text(today));
          sent := sent + [d];
      }
      i := i + 1;
    }
    assert keys[..i] == keys;
  }

  lemma {:induction false} AbortedPassStays(data: map<string, Value>, keys: seq<string>, today: string,
                                            isThread: int -> bool, sendOk: int -> bool, i: nat)
    requires i <= |keys| && PassOf(data, keys[..i], today, isThread, sendOk).aborted
    ensures PassOf(data, keys, today, isThread, sendOk) == PassOf(data, keys[..i], today, isThread, sendOk)
    decreases |keys| - i
  {
    if i < |keys| {
      assert keys[..i + 1][..i] == keys[..i];
      AbortedPassStays(data, keys, today, isThread, sendOk, i + 1);
    } else {
      assert keys[..i] == keys;
    }
  }

  /**
   * daily_checkins: outside the check-in hour nothing happens; inside it,
   * the metadata keys are listed and one run goes over them.
   */
  method DailyCheckins(store: KeyValueStore, utcHour: int, today: string,
                       isThread: int -> bool, sendOk: int -> bool)
    returns (keys: seq<string>, sent: seq<Delivery>, aborted: bool)
    modifies store
    ensures !IsCheckinHour(utcHour) ==> keys == [] && sent == [] && !aborted && store.data == old(store.data)
    ensures IsCheckinHour(utcHour) ==>
      && Distinct(keys) && (forall k :: k in keys <==> k in old(store.data) && Matches(k, META_PATTERN))
      && var p := PassOf(old(store.data), keys, today, isThread, sendOk);
         store.data == p.data && sent == p.sent && aborted == p.aborted
  {
    if !IsCheckinHour(utcHour) {
      return [], [], false;
    }
    keys := store.Keys(META_PATTERN);
    sent, aborted := RunPass(store, keys, today, isThread, sendOk);
  }
}
