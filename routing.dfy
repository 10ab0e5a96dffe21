/**
 * The free-text handler of the Python bot (bot.py, on_message): which
 * messages get an answer, and how a long answer is cut into Discord-sized
 * messages. The coaching answer and the transcription are inputs.
 */
module Routing {
  import opened Wrappers
  import opened Strings
  import opened Store
  import opened BotKeys

  datatype Attachment = Attachment(contentType: Option<string>)

  datatype Message = Message(
    authorId: int,
    authorIsBot: bool,
    channelId: int,
    content: string,
    attachments: seq<Attachment>)

  datatype Route =
    | Ignore     // no reply at all
    | Voice      // the first attachment is audio: transcribe, then answer in one message
    | Coach      // answer the text, split into chunks when long

  /** The channel is the thread stored for the author. */
  predicate InBoundThread(data: map<string, Value>, m: Message) {
    TextTruthy(data, ThreadKey(m.authorId)) && StoredText(data, ThreadKey(m.authorId)).value == ShowInt(m.channelId)
  }

  /** The author is in the middle of onboarding. */
  predicate StillOnboarding(data: map<string, Value>, m: Message) {
    TextTruthy(data, StageKey(m.authorId))
  }

  predicate IsCommand(m: Message) {
    "!" <= m.content
  }

  predicate HasAudio(m: Message) {
    |m.attachments| > 0 && m.attachments[0].contentType.Some?
    && m.attachments[0].contentType.value != "" && "audio" <= m.attachments[0].contentType.value
  }

  /**
   * The ordered filter chain: bots, other channels, users still onboarding and
   * commands get nothing; an audio note goes to transcription; the rest to coaching.
   */
  function RouteOf(data: map<string, Value>, m: Message): (r: Route)
    ensures r == Ignore <==> m.authorIsBot || !InBoundThread(data, m) || StillOnboarding(data, m) || IsCommand(m)
    ensures r == Voice <==> r != Ignore && HasAudio(m)
  {
    if m.authorIsBot then Ignore
    else if !InBoundThread(data, m) then Ignore
    else if StillOnboarding(data, m) then Ignore
    else if IsCommand(m) then Ignore
    else if HasAudio(m) then Voice
    else Coach
  }

  /** While the question loop waits, the stage key it wrote silences the coach. */
  lemma OnboardingSilencesCoach(data: map<string, Value>, m: Message, question: nat)
    requires StageKey(m.authorId) in data && data[StageKey(m.authorId)] == Text(ShowInt(question + 1))
    ensures RouteOf(data, m) == Ignore
  {
  }

  /** A message from the user in the thread just bound to them is answered once onboarding is over. */
  lemma BoundThreadIsAnswered(data: map<string, Value>, m: Message)
    requires ThreadKey(m.authorId) in data && data[ThreadKey(m.authorId)] == Text(ShowInt(m.channelId))
    requires !m.authorIsBot && StageKey(m.authorId) !in data && !IsCommand(m)
    ensures RouteOf(data, m) != Ignore
  {
  }

  // -------------------------------------------------------------------
  // Chunking (bot.py:303-307)
  // -------------------------------------------------------------------

  const SINGLE_LIMIT := 2000
  const CHUNK := 1900

  function Concat(parts: seq<string>): string {
    if parts == [] then [] else Concat(parts[..|parts| - 1]) + parts[|parts| - 1]
  }

  /** Ceiling of n / CHUNK: the number of slices a long reply is sent in. */
  function SliceCount(n: nat): nat {
    (n + CHUNK - 1) / CHUNK
  }

  /**
   * The messages a reply is sent as: itself when it fits in 2000 characters,
   * otherwise the slices reply[i:i+1900] for i = 0, 1900, ...
   */
  predicate Chunked(reply: string, chunks: seq<string>) {
    && (|reply| <= SINGLE_LIMIT ==> chunks == [reply])
    && (|reply| > SINGLE_LIMIT ==>
          && Concat(chunks) == reply
          && |chunks| == SliceCount(|reply|)
          && |chunks| > 0
          && (forall j :: 0 <= j < |chunks| - 1 ==> |chunks[j]| == CHUNK)
          && 0 < |chunks[|chunks| - 1]| <= CHUNK)
  }

  method ChunkReply(reply: string) returns (chunks: seq<string>)
    ensures Chunked(reply, chunks)
  {
    if |reply| <= SINGLE_LIMIT {
      return [reply];
    }
    chunks := [];
    var i := 0;
    while i < |reply|
      invariant i == CHUNK * |chunks|
      invariant i < |reply| + CHUNK
      invariant Concat(chunks) == reply[..if i <= |reply| then i else |reply|]
      invariant forall j :: 0 <= j < |chunks| ==> 0 < |chunks[j]| && (|chunks[j]| == CHUNK || (j == |chunks| - 1 && i >= |reply|))
      invariant forall j :: 0 <= j < |chunks| ==> |chunks[j]| <= CHUNK
      decreases |reply| - i
    {
      var stop := if i + CHUNK <= |reply| then i + CHUNK else |reply|;
      assert reply[..stop] == reply[..i] + reply[i..stop];
      chunks := chunks + [reply[i..stop]];
      i := i + CHUNK;
    }
    SliceCountOf(|reply|, |chunks|);
  }

  /** c slices of CHUNK cover n characters exactly when the last one starts before n. */
  lemma SliceCountOf(n: nat, c: nat)
    requires CHUNK * c >= n && CHUNK * c < n + CHUNK
    ensures SliceCount(n) == c
  {
  }

  /**
   * on_message after the chain: an audio note is transcribed and its answer
   * sent whole; an empty transcription gets the failure notice; text is
   * answered and chunked. `transcription` and `answer` stand in for the
   * speech and coaching models.
   */
  method OnMessage(data: map<string, Value>, m: Message, transcription: string, answer: string -> string)
    returns (sent: seq<string>)
    ensures RouteOf(data, m) == Ignore ==> sent == []
    ensures RouteOf(data, m) == Voice && transcription == "" ==> sent == ["\U{274C} Couldn't transcribe."]
    ensures RouteOf(data, m) == Voice && transcription != "" ==> sent == [answer(transcription)]
    ensures RouteOf(data, m) == Coach ==> Chunked(answer(m.content), sent)
  {
    var route := RouteOf(data, m);
    if route == Ignore {
      return [];
    }
    if route == Voice {
      if transcription == "" {
        return ["\U{274C} Couldn't transcribe."];
      }
      return [answer(transcription)];
    }
    var reply := answer(m.content);
    sent := ChunkReply(reply);
  }
}
