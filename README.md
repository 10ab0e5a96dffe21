# Discord coaching bot: per-user state machines over a key-value store

This project models the deterministic core of a Discord business-coaching bot
in Dafny, and proves properties about that model. The bot exists in two forms:

- a Python bot (`bot.py`) that onboards a user with six questions in a private
  thread, creates an Asana program board from a template and posts daily
  check-ins;
- a TypeScript bot whose slash commands run an intake wizard and an offer
  wizard, move a roadmap between stages, build the coaching system prompt, and
  keep bounded logs (history, sales reviews, mindset notes) and admin
  overrides.

Both keep all their state in Redis under keys of the form
`user:<id>:<category>`. Here Redis is one abstract map from keys to values,
held in the class `Store.KeyValueStore`. A value is a plain string, a JSON
document, a list of JSON documents or a set of strings. Every external
answer the code waits for is an input of the operation that waits for it:

- Discord events and sends;
- OpenAI completions;
- Asana HTTP responses;
- the clock.

An external call that throws is modelled as `None`.

Modules:

- `Store`: the key-value store, key construction and key patterns.
- `Memory`: the memory service (`getJson`/`setJson`, per-category
  records, bounded history, habit logs).
- `BotKeys`, `TemplateScheduler`, `Onboarding`, `Routing` and
  `DailyCheckin`: the Python bot.
- `Wizard`: the `{stepIndex, answers}` automaton. `Intake` and `Offer`
  instantiate it.
- `RoadmapStages`, `Prompts`, `SalesReview` and `Mindset`: the coaching
  services.
- `Env` and `Admin`: configuration, admin state operations and admin
  authorisation.
- `Strings`, `Json` and `Wrappers`: shared value types. `Strings` covers
  Python/JavaScript trimming, splitting, lowercasing and integer rendering
  and parsing.

## Model

| member | source | states |
|---|---|---|
| Store.UserKeyMatches | src/services/admin/adminStateService.ts:4 | every key `user:<id>:<c>` matches the pattern `user:<id>:*` |
| Store.UserKeyCategories | src/services/memory.ts:27-76 | two different categories of one user have different keys |
| Store.UserKeyInjective | src/services/memory.ts:27-76 | for colon-free ids, equal keys mean the same user and the same category |
| Store.UserKey | src/services/memory.ts:27-76 | the key user:<id>:<category>; Store.UserKeyMatches, UserKeyCategories and UserKeyInjective state its properties |
| Store.TrimList | src/services/memory.ts:83 | LTRIM 0 stop keeps a prefix of at most stop+1 elements, and the whole list when it is short enough |
| Store.KeyValueStore.Get | src/services/memory.ts:87-89 | GET finds a value exactly when the key is present, and returns the stored value |
| Store.KeyValueStore.Set | src/services/memory.ts:90-92 | SET replaces the one key and changes nothing else |
| Store.KeyValueStore.Delete | src/services/memory.ts:93-95 | DEL removes the key and reports 1 when it was present, else 0 |
| Store.KeyValueStore.DeleteAll | src/services/admin/adminStateService.ts:6-8 | DEL of several keys removes exactly those keys and reports how many were present |
| Store.KeyValueStore.Keys | src/services/admin/adminStateService.ts:4 | KEYS returns each stored key that matches the pattern, once each, and no other key |
| Store.KeyValueStore.LPush | src/services/memory.ts:82 | LPUSH puts the item at the head of the list, treating an absent key as an empty list; any other kind of value is a type error and changes nothing |
| Store.KeyValueStore.LTrim | src/services/memory.ts:83 | LTRIM keeps indices start..stop of a list; it leaves an absent key absent and fails on another kind of value |
| Store.KeyValueStore.SAdd | src/services/memory.ts:51 | SADD adds the member to the set, treating an absent key as empty; any other kind of value is a type error |
| Strings.TrimSpec | bot.py:183 | strip/trim returns a contiguous slice of the input that has no whitespace at either end, and removes only whitespace |
| Strings.Lower | bot.py:26 | lower() keeps the length and lowercases each character |
| Strings.IndexOf | bot.py:29-31 | the found index is the first place the substring occurs; no index means it occurs nowhere |
| Strings.Split | bot.py:33 | split yields at least one piece, and no piece contains the separator |
| Strings.JoinSplit | src/services/coaching/intake.ts:101 | joining the pieces of a split by the separator gives back the original text |
| Strings.SplitHead | bot.py:33 | the first piece of a split is the text before the first separator, or the whole text when there is none |
| Strings.Take | src/services/coaching/sales.ts:27 | slice(0, n) is a prefix of length min(n, length) |
| Strings.ShowInt | bot.py:171 | str() of an integer is a non-empty digit string, with a leading '-' for negatives |
| Strings.ParseShowInt | bot.py:325 | int() reads back whatever str() wrote |
| Strings.ParsePyInt | bot.py:325 | Python int() on text: surrounding whitespace stripped, then an optional sign and ASCII digits; Strings.ParseShowInt reads back str() |
| Strings.ShowIntInjective | bot.py:171 | different integers render as different strings |
| BotKeys.BotKeyInjective | bot.py:321-325 | a Python-side key names exactly one user id and one category |
| BotKeys.BotKeysDistinct | bot.py:329-333 | a user's metadata, thread, stage, check-in and board keys are pairwise distinct |
| BotKeys.StoredText | bot.py:329 | redis.get on the Python side sees a string exactly when a string value is stored |
| TemplateScheduler.DaysAfterReadsPrefix | bot.py:31-36 | for a "days after" name, the offset is the trimmed text before the first "days after", read as an integer (0 if unparseable) |
| TemplateScheduler.OffsetNonNegativeOutsideDaysAfter | bot.py:29-44 | only the "days after" rule can produce a negative offset; the "day N" rule is clamped at 0 |
| TemplateScheduler.OffsetIgnoresCase | bot.py:26 | the offset rule reads the lowercased name, so case never matters |
| TemplateScheduler.ExampleStartDate | bot.py:29-30 | "On Project Start Date" gives offset 0 |
| TemplateScheduler.ExampleDaysAfter | bot.py:31-34 | "2 days after" gives offset 2 |
| TemplateScheduler.ExampleDayN | bot.py:37-40 | "Day 3" gives offset 2 (N - 1) |
| TemplateScheduler.ExampleOther | bot.py:43-44 | a name that matches no rule gives offset 0 |
| TemplateScheduler.SectionOffset | bot.py:26-44 | the offset rules for one section name; their properties are TemplateScheduler.DaysAfterReadsPrefix, OffsetNonNegativeOutsideDaysAfter, OffsetIgnoresCase and the four examples |
| TemplateScheduler.OffsetsOfKeys | bot.py:24-44 | the offsets dictionary has an entry for a gid exactly when some listed section has that gid |
| TemplateScheduler.OffsetsOfLastWins | bot.py:25-44 | a section's entry is its own offset unless a later section repeats the gid |
| TemplateScheduler.BuildOffsets | bot.py:24-44 | the section loop builds exactly the offsets dictionary of the listed sections |
| TemplateScheduler.PlannedTasksResolve | bot.py:53-62 | every due date written belongs to a task whose first membership's section has an offset, and equals start + that offset |
| TemplateScheduler.UnresolvedNeverPlanned | bot.py:55-58 | a task whose section has no offset is never given a due date |
| TemplateScheduler.PlanStep | bot.py:55-62 | one task of the pass; its properties are TemplateScheduler.PlannedTasksResolve, UnresolvedNeverPlanned and CrashedPlanStays |
| TemplateScheduler.PlanOf | bot.py:53-62 | the due dates the task loop plans, in task order; WriteDueDates is proved against it |
| TemplateScheduler.ResolvingTasksPlanned | bot.py:53-68 | unless the pass raises, every resolving task gets its due date, whatever the other task writes answered |
| TemplateScheduler.Attempts | bot.py:60-64 | one PUT per planned date, in order, each with the status Asana answered |
| TemplateScheduler.UnwrittenKeepsDueDate | bot.py:57-58 | a task that is not written keeps its due date |
| TemplateScheduler.ApplyRelativeDueDates | bot.py:5-68 | no token: nothing is done; a sections or tasks fetch that answers >= 300 stops before any write; otherwise the writes are exactly the plan, and a task with an empty membership list stops the pass |
| TemplateScheduler.WriteDueDates | bot.py:53-68 | the loop over tasks issues one PUT per planned due date, in plan order, and reports whether it stopped on an empty membership list |
| TemplateScheduler.CrashedPlanStays | bot.py:55 | once a task has raised, later tasks add nothing |
| TemplateScheduler.DuplicateProjectForUser | bot.py:71-119 | a missing token or template, a failed duplicate, or no new gid returns None and stores nothing; otherwise the due-date pass over the new board is the plan of its sections and tasks, and the result is the board URL with the gid stored under the user's board key, or a raise, storing nothing, exactly when that pass raised |
| Onboarding.QuestionKeysDistinct | bot.py:141-148 | six distinct question keys, the sixth being "email", none of them the completion flag |
| Onboarding.AnsweredFrom | bot.py:177-181 | the number of questions answered is the count of answers before the first timeout |
| Onboarding.Replies | bot.py:183 | there is one stripped reply per question |
| Onboarding.RecordedAnswer | bot.py:183 | each of the first k answers is stored, stripped, under its own key |
| Onboarding.RecordedOther | bot.py:169-184 | the question loop leaves every other metadata key as it was |
| Onboarding.Asks | bot.py:170-175 | the questions are posted in list order |
| Onboarding.NoticeTexts | bot.py:170-200 | a question notice posts that question's text, and the board notice ends with the board's URL |
| Onboarding.AskQuestions | bot.py:169-184 | before question i the stage key holds i+1; the loop stops at the first timeout with the answers so far recorded |
| Onboarding.FinishOnboarding | bot.py:186-206 | completion saves the metadata and deletes the stage key; a board is requested exactly when the email answer is non-empty, with the outcome DuplicateProjectForUser promises |
| Onboarding.RunOnboarding | bot.py:150-206 | a timeout returns without saving and leaves the stage key set; after six answers onboarding_complete is set, the metadata is saved, the stage key deleted, and a requested board has the outcome DuplicateProjectForUser promises |
| Onboarding.GetOrCreatePrivateThread | bot.py:212-226 | a stored thread that still exists is reused with no write; otherwise a new thread is created and bound to the user |
| Onboarding.BoundThreadReused | bot.py:213-217 | a bound thread that exists is always the one returned |
| Onboarding.BindingIsReused | bot.py:212-226 | after a lookup, the next lookup returns the same thread while it exists: one binding per user |
| Onboarding.StartCommand | bot.py:237-252 | the thread lookup binds a new thread first; a user whose metadata says complete is then welcomed back and not onboarded again; anyone else gets the store, metadata, messages and board outcome of a full onboarding run on the store with the thread bound |
| Routing.RouteOf | bot.py:270-297 | ignored exactly when the author is a bot, the channel is not the author's bound thread, a stage key is set, or the text starts with "!"; otherwise voice when there is an audio attachment, else text coaching |
| Routing.OnboardingSilencesCoach | bot.py:280-281 | while the question loop waits, the stage key it wrote silences the coach |
| Routing.BoundThreadIsAnswered | bot.py:275-285 | a non-command message from the user in their bound thread, outside onboarding, is answered |
| Routing.ChunkReply | bot.py:303-307 | a reply of at most 2000 characters is one message; a longer one becomes full 1900-character slices and a non-empty last slice, which concatenate to the reply |
| Routing.SliceCountOf | bot.py:306 | the number of slices is the ceiling of length / 1900 |
| Routing.OnMessage | bot.py:268-307 | an ignored message sends nothing; an empty transcription sends the failure notice; otherwise the coach's answer is sent, chunked exactly as ChunkReply states |
| DailyCheckin.CheckinHourIs14 | bot.py:315-318 | the gate (hour - 6) mod 24 == 8 opens at 14:00 UTC and at no other hour |
| DailyCheckin.IsCheckinHour | bot.py:315-318 | the hour gate; DailyCheckin.CheckinHourIs14 states which hour opens it |
| DailyCheckin.CheckinNamesGoal | bot.py:341-350 | the check-in message shows the goal in bold right after its header |
| DailyCheckin.MetaKeyUid | bot.py:321-327 | the id read from a metadata key is the id the key was built from |
| DailyCheckin.StepOf | bot.py:323-354 | every outcome of one key: an id int() rejects, a user checked in today or one without a stored thread is skipped; a thread id int() rejects raises; a channel that is not a thread is skipped; a failed send raises; otherwise the user is sent a check-in with the stored goal ("Grow" by default), and a send happens only then |
| DailyCheckin.Advance | bot.py:329-354 | one key of the run applied to the run so far; DailyCheckin.AbortedPassStays and SentIsMarked state its effect |
| DailyCheckin.PassOf | bot.py:323-354 | the whole run over the keys; DailyCheckin.PassDelivers, PassWrites, AtMostOncePerRun and SecondRunSkipsServed are about it and RunPass is proved against it |
| DailyCheckin.PassKeepsUser | bot.py:346-354 | a run changes neither a user's metadata nor their stored thread id: it writes last-check-in keys only |
| DailyCheckin.PassDelivers | bot.py:329-354 | in a run that has not raised, a key whose user is not checked in today, whose stored thread id reads as a thread and whose send goes through appends exactly that user's check-in, with the goal from the metadata |
| DailyCheckin.PassWrites | bot.py:354 | a run writes only today's date, and only under the check-in keys of users it sent to; all other keys stay |
| DailyCheckin.ServedStayServed | bot.py:329-331 | a user already checked in today gets nothing, and their mark stays |
| DailyCheckin.SentIsMarked | bot.py:346-354 | everyone sent a check-in has today's date as last check-in afterwards |
| DailyCheckin.AtMostOncePerRun | bot.py:323-354 | within one run nobody gets two check-ins, even if two keys read as the same id |
| DailyCheckin.SecondRunSkipsServed | bot.py:329-354 | a second run on the same date sends nothing to anyone the first run served |
| DailyCheckin.AbortedPassStays | bot.py:323-354 | a raise (bad thread id, failed send) ends the run; later keys change nothing |
| DailyCheckin.RunPass | bot.py:323-354 | the loop over the keys produces exactly the run's writes and deliveries |
| DailyCheckin.DailyCheckins | bot.py:313-354 | outside the hour nothing happens; inside it, the metadata keys are listed once each and one run goes over them |
| Wizard.DecodeEncode | src/services/coaching/intake.ts:39-47 | a stored wizard state reads back as itself |
| Wizard.Encode | src/services/coaching/intake.ts:33-57 | the stored form {stepIndex, answers} of a wizard state; Wizard.DecodeEncode reads it back |
| Wizard.Decode | src/services/coaching/intake.ts:39-47 | reading a stored document as a wizard state; Wizard.DecodeEncode inverts Encode |
| Wizard.GetState | src/services/coaching/intake.ts:39-47 | an absent key, or a value that is not a JSON document, reads as no state |
| Wizard.GetStored | src/services/coaching/intake.ts:33-47 | after a state is written, reading the key returns that state |
| Wizard.Start | src/services/coaching/intake.ts:33-37 | start writes stepIndex 0 with no answers and returns it |
| Wizard.Update | src/services/coaching/intake.ts:49-57 | the updater is applied to the stored state, or to {0, {}} when there is none, and exactly its result is written and returned |
| Wizard.Clear | src/services/coaching/intake.ts:59-61 | clearing deletes the state key only, after which no state is read |
| Wizard.CurrentQuestion | src/services/coaching/offer.ts:50-54 | there is a current question exactly when stepIndex is inside the list, and it is the one at stepIndex |
| Wizard.AnswerStep | src/discord/commands/user/start.ts:94-98 | an answer advances stepIndex by exactly 1, stores the trimmed text under the current key, and keeps the other answers |
| Wizard.HandleAnswer | src/discord/commands/user/start.ts:84-102 | null, with no write, when there is no state or it is past the last question; otherwise the step is written and done says that no question remains |
| Wizard.RunSpec | src/discord/commands/user/start.ts:84-102 | after n answers from step 0 the index is n, answer i sits, trimmed, under key i, there are no other keys, and the wizard is finished exactly when every question is answered |
| Wizard.AfterMarker | src/services/coaching/intake.ts:83-84 | text without the marker gives "{}" |
| Wizard.AfterMarkerOf | src/services/coaching/intake.ts:83-84 | text with the marker and then a body gives the trimmed body |
| Wizard.Put | src/services/coaching/intake.ts:93-99 | a defined value sets the property, and an undefined value leaves the record as it was (JSON.stringify drops it) |
| Intake.IntakeKeys | src/services/coaching/intake.ts:7-26 | the intake has exactly 10 distinct keys, one per question |
| Intake.IntakeDoneAfterTen | src/discord/commands/user/start.ts:100-101 | after n answers the intake is at step n, with answer i under key i; it is done exactly after the 10th |
| Intake.HandleIntakeAnswer | src/discord/commands/user/start.ts:84-102 | null, with no write, when there is no state or the step is outside 0..9; otherwise the store changes only in the state key, which then holds step+1 with the trimmed answer added; the next question is step+1 while it is below 10, and done holds exactly when none remains |
| Intake.ExecuteStart | src/discord/commands/user/start.ts:23-78 | refused outside a server; a user with a profile gets no new intake state; anyone else starts at step 0 and is asked Q1 |
| Intake.BottlenecksOf | src/services/coaching/intake.ts:100-102 | a missing or empty answer gives []; otherwise one trimmed entry per comma-separated piece |
| Intake.BottleneckClean | src/services/coaching/intake.ts:100-102 | each bottleneck is a trimmed comma-free piece, and the pieces rejoin to the answer |
| Intake.FaithOf | src/services/coaching/intake.ts:103-107 | the faith preference is one of off/light/strong; it is not off exactly when the answer was light or strong, and then it is the answer |
| Intake.ProfileOf | src/services/coaching/intake.ts:88-112 | the profile has the user id, businessName = username + "'s business", the normalised bottlenecks and faith preference, and tone "direct" |
| Intake.ProfileCopiesAnswers | src/services/coaching/intake.ts:93-99 | each answered field is copied as given (goals goes to primaryGoals), and an unanswered one is left out |
| Intake.ProfileKeysOnly | src/services/coaching/intake.ts:88-112 | a profile holds only the nine fixed properties and the answered ones whose answer was given (timezone stays undefined) |
| Intake.NoMarkerBottleneck | src/services/coaching/intake.ts:83-84 | a diagnosis without [BOTTLENECK_MAP_JSON] hands the roadmap completion the text "{}" |
| Intake.RoadmapOf | src/services/coaching/intake.ts:129-135 | a parsed null gives no roadmap (the throw is caught); otherwise the roadmap carries the user id, the time, and the parsed stages when present |
| Intake.FinalizeIntake | src/services/coaching/intake.ts:63-144 | no state throws "No intake state" and a failed diagnosis throws, changing nothing; otherwise the profile is stored, the roadmap is stored when one comes out, and the intake state is cleared either way |
| Intake.FinalizeClearsState | src/services/coaching/intake.ts:116-141 | whatever the completions do, finalisation leaves the profile stored and no intake state behind |
| Offer.OfferKeys | src/services/coaching/offer.ts:12-18 | the offer wizard has exactly 5 distinct keys, one per question |
| Offer.OfferDoneAfterFive | src/discord/commands/user/offer.ts:68-69 | after n answers the wizard is at step n with the trimmed answers; it is done exactly after the 5th |
| Offer.StartOffer | src/discord/commands/user/offer.ts:21-28 | corrected: starting stores step 0 with no answers and asks the first question |
| Offer.StartOfferAsWritten | src/discord/commands/user/offer.ts:21-24 | as written: the state is stored, then the reply raises on the unimported MessageFlags, so no question is asked |
| Offer.HandleOfferAnswer | src/discord/commands/user/offer.ts:56-70 | null, with no write, when there is no state or the step is outside 0..4; otherwise the store changes only in the state key, which then holds step+1 with the trimmed answer added; the next question is step+1 while it is below 5, and done holds exactly when none remains |
| Offer.OfferOf | src/services/coaching/offer.ts:71-83 | the offer record carries the user id and the time |
| Offer.OfferCopiesParsed | src/services/coaching/offer.ts:71-83 | each of the nine offer fields is copied from the parsed JSON when defined, and absent when undefined |
| Offer.OfferKeysOnly | src/services/coaching/offer.ts:71-83 | the offer has no properties beyond userId, lastUpdated and the defined offer fields |
| Offer.FinalizeOffer | src/services/coaching/offer.ts:56-88 | it throws, changing nothing, exactly when there is no state, the completion fails, or the text after [OFFER_JSON] (or "{}") does not parse or is null; otherwise the offer is stored and the wizard state cleared |
| Offer.OfferStatus | src/discord/commands/user/offer.ts:29-52 | corrected: "no offer yet" exactly when no truthy offer is stored; otherwise the offer is shown with its program structure and guarantees sliced to 1024, or the command raises exactly when either field cannot be sliced |
| Offer.Slice1024 | src/discord/commands/user/offer.ts:46-47 | slice(0, 1024) gives the first 1024 characters of a string or items of an array, and raises on anything else |
| Offer.OfferStatusAsWritten | src/discord/commands/user/offer.ts:29-52 | as written: the command raises exactly when a truthy offer is stored, on the unimported MessageFlags at line 51 |
| Offer.StatusDiscrepancy | src/discord/commands/user/offer.ts:46-51 | for a stored offer with string fields, the code as written raises where the corrected command shows the sliced offer |
| Offer.NoMarkerOffer | src/services/coaching/offer.ts:71-83 | a reply without [OFFER_JSON] is read as "{}", and when that parses to the empty object the offer holds only userId and lastUpdated |
| RoadmapStages.Loaded | src/services/coaching/roadmap.ts:6-7 | a roadmap is loaded exactly when a truthy document is stored under the roadmap key |
| RoadmapStages.Find | src/services/coaching/roadmap.ts:9-10 | find returns the first stage with the id; missing means no stage has it (reading the id of a null stage throws) |
| RoadmapStages.RemapAll | src/services/coaching/roadmap.ts:14-20 | the status map keeps the number of stages |
| RoadmapStages.RemapAllAt | src/services/coaching/roadmap.ts:14-20 | stage i after the map is stage i remapped |
| RoadmapStages.SetStage | src/services/coaching/roadmap.ts:5-26 | the store is written exactly when a roadmap is saved, and the saved roadmap is what the method returns |
| RoadmapStages.SetStageNull | src/services/coaching/roadmap.ts:6-10 | null exactly when there is no roadmap or no stage with the id |
| RoadmapStages.SetStageAt | src/services/coaching/roadmap.ts:12-20 | stage count and ids are kept; the target is active; a previously active other stage becomes completed; other stages are unchanged; only the target is active |
| RoadmapStages.SetStageFields | src/services/coaching/roadmap.ts:12-22 | currentStageId is the target and lastUpdated the time; every other roadmap property is kept |
| RoadmapStages.SetStageOf | src/services/coaching/roadmap.ts:5-26 | the outcome of setStage; RoadmapStages.SetStageNull, SetStageAt and SetStageFields state it and SetStage is proved against it |
| RoadmapStages.Without | src/services/coaching/roadmap.ts:39 | filtering never lengthens the list |
| RoadmapStages.WithoutSpec | src/services/coaching/roadmap.ts:39 | the filtered list has no occurrence of that task and every other task it had |
| RoadmapStages.WithoutConcat | src/services/coaching/roadmap.ts:39 | the filter works element by element, so the order of the remaining tasks is kept |
| RoadmapStages.MarkTaskCompleted | src/services/coaching/roadmap.ts:29-43 | the store is written exactly when a roadmap is saved, and the saved roadmap is what the method returns |
| RoadmapStages.MarkTaskAt | src/services/coaching/roadmap.ts:36-40 | only the first stage with the id changes: its tasks lose every occurrence of that task, in order, and its other properties are kept |
| RoadmapStages.MarkTaskNull | src/services/coaching/roadmap.ts:34-37 | null exactly when there is no roadmap or no stage with the id |
| RoadmapStages.MarkTaskOf | src/services/coaching/roadmap.ts:29-43 | the outcome of markTaskCompleted; RoadmapStages.MarkTaskAt and MarkTaskNull state it and MarkTaskCompleted is proved against it |
| Prompts.FaithInstruction | src/services/prompts.ts:9-14 | 'off' gives the no-faith text, 'light' the gentle text, and any other value the integrate text, each in both directions |
| Prompts.PushModeInstruction | src/services/prompts.ts:16-27 | null or disabled push mode gives the supportive tone whatever the level; otherwise extreme, strong and any other level give their three texts |
| Prompts.OrDefault | src/services/prompts.ts:45-48 | a missing or falsy field gives the default; a non-empty string field is used as it is |
| Prompts.OrElse | src/services/prompts.ts:58-59 | `??` falls back for undefined and null only |
| Prompts.EffectiveFaith | src/services/prompts.ts:54-59 | global 'off' forces 'off'; 'global' uses the profile value or 'light'; anything else uses the profile value or 'off' |
| Prompts.GlobalOffSilencesFaith | src/services/prompts.ts:54-59 | with the global mode 'off' the prompt never mentions faith, whatever the profile says |
| Prompts.FaithDefaults | src/services/prompts.ts:54-59 | without a profile, the 'global' mode gives the gentle text and every other mode the no-faith text |
| Prompts.RoadmapInfo | src/services/prompts.ts:50-52 | no roadmap gives the fixed placeholder; otherwise the current stage id is named |
| Prompts.OfferSection | src/services/prompts.ts:71-80 | no offer gives the fixed placeholder |
| Prompts.ToneOverride | src/services/prompts.ts:82-84 | an absent or empty global tone adds nothing |
| Prompts.PromptLayout | src/services/prompts.ts:86-97 | the prompt is the base text, then the profile, offer, faith, push and tone parts, and always ends with the bullet-points instruction |
| Prompts.CoachingSystemPrompt | src/services/prompts.ts:29-98 | the coaching system prompt; Prompts.PromptLayout, GlobalOffSilencesFaith and FaithDefaults state its content |
| Memory.GetJson | src/services/memory.ts:11-19 | null when the key is absent, holds no JSON document, or holds null; otherwise the stored document |
| Memory.SetJson | src/services/memory.ts:21-23 | the document is stored under the key, and nothing else changes |
| Memory.GetCategory | src/services/memory.ts:27-76 | a category getter reads exactly the user's key for that category |
| Memory.SetCategory | src/services/memory.ts:27-76 | a category setter writes the user's key for that category and leaves every other category's key as it was |
| Memory.PushTrimNewestFirst | src/services/memory.ts:82-83 | push then trim puts the new entry at the head, the older entries after it newest first, and keeps at most stop+1 |
| Memory.AsWrittenKeeps51 | src/services/memory.ts:83 | as written, a full 50-entry history holds 51 entries after the next append |
| Memory.HistoryAtMost50 | src/services/memory.ts:79-84 | the corrected append keeps at most 50 entries, newest first, and drops nothing while there is room |
| Memory.AppendHistoryAsWritten | src/services/memory.ts:79-84 | LPUSH then LTRIM 0 50, exactly as issued; a history key that is not a list writes nothing |
| Memory.AppendHistory | src/services/memory.ts:79-84 | the append with the trim its comment states (LTRIM 0 49); a history key that is not a list writes nothing |
| Memory.HabitLogIdempotent | src/services/memory.ts:49-52 | logging the same date twice is the same as logging it once, and the date is then in the log |
| Memory.LogHabitCompletion | src/services/memory.ts:49-52 | the date is added to the habit's set, and a key of another kind is a type error that changes nothing |
| Memory.GetRaw | src/services/memory.ts:87-89 | the raw value is present exactly when the key is |
| SalesReview.ReviewEntry | src/services/coaching/sales.ts:24-29 | the entry has exactly ts, transcriptSnippet (the first 500 characters) and feedback (the completion) |
| SalesReview.SnippetIsPrefix | src/services/coaching/sales.ts:27 | the snippet is a prefix of the transcript: all of it when short, exactly 500 characters otherwise |
| SalesReview.ReviewsBounded | src/services/coaching/sales.ts:32-33 | after push and trim the new review is first, the older ones follow newest first, and at most 21 remain |
| SalesReview.AnalyzeSalesCall | src/services/coaching/sales.ts:7-36 | the completion text comes back unchanged and the entry is pushed to the review list; a failed completion or a key that is not a list writes nothing |
| Mindset.Updated | src/services/coaching/mindset.ts:30-32 | the update throws unless the state is an object whose themes is an array |
| Mindset.UpdatedSpec | src/services/coaching/mindset.ts:30-32 | one message appends exactly one theme (its first 100 characters); the old notes stay a prefix and the new notes end with the first 200 characters; all other properties are kept |
| Mindset.FreshStart | src/services/coaching/mindset.ts:9-15 | an absent state starts with no themes and empty notes |
| Mindset.HandleMindsetMessage | src/services/coaching/mindset.ts:6-37 | the completion is asked with the profile's faith preference, 'off' without one; the updated state is stored and the completion returned; a failure writes nothing |
| Mindset.MindsetResponse | src/services/coaching/mindset.ts:39-41 | the response is the fixed header followed by the text unchanged |
| Env.Setting | src/config/env.ts:4-21 | `process.env.X` or a default: a missing or empty variable gives the default, otherwise its value |
| Env.NonEmpty | src/config/env.ts:18 | filter(Boolean) keeps exactly the non-empty entries |
| Env.NonEmptyConcat | src/config/env.ts:18 | the filter keeps the original order |
| Env.TrimAll | src/config/env.ts:17 | each entry is trimmed in place |
| Env.AdminIdsSpec | src/config/env.ts:15-18 | an id is an admin id exactly when it is a non-empty trimmed comma-separated piece of ADMIN_IDS |
| Env.NoAdminIds | src/config/env.ts:15 | an unset ADMIN_IDS gives no admin ids |
| Env.ConfigOf | src/config/env.ts:3-22 | the defaults are 'development', 'gpt-4.1-mini' and 'America/Chicago'; the admin ids are parsed from ADMIN_IDS |
| Env.LoadEnv | src/config/env.ts:24-32 | loading fails on a missing bot token, then OpenAI key, then Redis URL, in that order; otherwise it returns the configuration |
| Env.LoadedHasCredentials | src/config/env.ts:24-32 | a loaded configuration holds the three credentials exactly as given |
| Admin.WithoutUser | src/services/admin/adminStateService.ts:4-8 | the store without the user's keys keeps every other key with its value |
| Admin.DistinctCount | src/services/admin/adminStateService.ts:10 | a list of distinct keys has as many keys as its set |
| Admin.ResetAllUserData | src/services/admin/adminStateService.ts:3-11 | the user's keys are deleted, nothing else is, and cleared is their number |
| Admin.ResetAllUserDataOk | src/discord/commands/admin/adminStateService.ts:3-7 | the user's keys are deleted, nothing else is, and the result is true |
| Admin.ResetUserMemory | src/services/admin/adminActionsService.ts:3-9 | each matched key is deleted in turn; ok is true and deleted is the number of matched keys |
| Admin.OtherUsersKept | src/services/admin/adminActionsService.ts:4 | a key not matching the user's prefix keeps its value |
| Admin.ResetLeavesNothing | src/services/admin/adminActionsService.ts:5-7 | afterwards no key matching the user's prefix remains |
| Admin.Base | src/services/admin/adminStateService.ts:19 | `get() || {}` succeeds exactly on an absent key, a falsy document, an object or an array; an object or array is used as it is, and the other successes start from {}; any other stored value fails |
| Admin.ArrayIndex | src/services/admin/adminStateService.ts:21 | a property name is an array index only when it is a non-empty digit string whose value is below 2^32 - 1 |
| Admin.SetAt | src/services/admin/adminStateService.ts:21 | assigning index i sets element i, keeps the others, and pads with null up to i when i is past the end |
| Admin.ArrayProfileSpec | src/services/admin/adminStateService.ts:13-26 | on an array profile, an index field sets that element via SetAt, the name "length" fails, and any other name leaves the array unchanged |
| Admin.ProfileFieldSpec | src/services/admin/adminStateService.ts:13-26 | on a non-array profile, the field gets the value, every other field is kept, and an absent or falsy profile starts as {} |
| Admin.UpdateUserProfileField | src/services/admin/adminStateService.ts:13-26 | the call returns the base profile with the one property assigned (object, array or {}) and the store then holds it; a failure writes nothing |
| Admin.UpdateUserProfileFieldOk | src/discord/commands/admin/adminStateService.ts:22-28 | the variant returns true exactly when the profile with the field set was written |
| Admin.RoadmapStageSpec | src/services/admin/adminStateService.ts:37-47 | on a non-array roadmap, current_stage and updatedAt are set and every other roadmap field is kept |
| Admin.ArrayRoadmapKept | src/services/admin/adminStateService.ts:39-44 | an array roadmap is written back unchanged, because neither name is an array index |
| Admin.SetUserStage | src/services/admin/adminStateService.ts:37-47 | the call returns the base roadmap with both properties assigned (object, array or {}) and the store then holds it; a failure writes nothing |
| Admin.SetUserStagePath | src/discord/commands/admin/adminStateService.ts:9-12 | only the current_stage path is written; it fails on a missing key or a non-document value, and a non-object document is left as it is |
| Admin.ToggleUserPushMode | src/services/admin/adminStateService.ts:28-35 | a stored "true" becomes "false" and the call returns false; any other value, absent included, becomes "true" and the call returns true |
| Admin.ToggleTwice | src/services/admin/adminStateService.ts:28-35 | toggling twice restores a stored "true" or "false" |
| Admin.SetUserPushMode | src/discord/commands/admin/adminStateService.ts:14-20 | {enabled, updated} overwrites the key without reading it |
| Admin.IsAdmin | src/services/admin/adminAuth.ts:4-15 | a listed id is always an admin; an unlisted one is an admin only in a server with a role configured, exactly when they hold that role |

## Left out

- Discord, OpenAI, Asana HTTP and Redis I/O: these are inputs and oracles (events, completion results, status codes, a `parse` function for JSON text). Typing indicators, sleeps and `wait_for` timeouts become events.
- JSON text: `JSON.stringify`/`JSON.parse` are collapsed. A stored document is a JSON value, and parsing model text is the `parse` oracle. The model cannot capture an unparsable stored string, or a parse that succeeds with a wrongly-shaped wizard state. A document that does not have the wizard's shape reads as no state (`Wizard.GetState`), where JavaScript would carry on with it.
- Strings versus RedisJSON: the TypeScript side mixes `redis.get`/`set` on strings with `redis.json.*` on the same keys. Here both are one document value. A plain GET of a document reads as not "true" in `Admin.ToggleUserPushMode`, and `json.get` of a string value is a WRONGTYPE failure.
- RedisJSON client: the model assumes a client with RedisJSON commands. `src/memory/redisClient.ts:1-5` builds a plain ioredis client, which has no `.json` property; on that client the `redis.json.get`/`redis.json.set` calls of both admin state services would throw a TypeError before touching the store. That failure is not modelled.
- Clock: every timestamp is an input. In `Mindset.HandleMindsetMessage` one reading serves the note line and lastUpdated, where the source reads the clock twice. Dates in the scheduler are day numbers; `isoformat` is left out.
- Python `int()`: ASCII digits with an optional sign and surrounding whitespace are modelled. Digit-group underscores and non-ASCII digits are not.
- Whitespace and case: `strip`/`trim` treat ASCII space, tab, newline, carriage return, vertical tab and form feed as whitespace, and `lower` folds A-Z only. Other Unicode whitespace and case rules are left out.
- String length: JavaScript counts UTF-16 code units and Python counts code points. The model counts characters, so a slice boundary can differ for characters outside the Basic Multilingual Plane.
- Key patterns: `keys user:<id>:*` is a prefix match. Ids containing glob metacharacters are not modelled.
- JSON numbers are integers (`JNum(int)`), and object key order is not modelled.
- Concurrency: each handler, command and scheduler run is one sequential transaction; the `tasks.loop` scheduler interleaving is left out.
- `get_user_meta`/`set_user_meta` and the `k_*` key helpers are not part of this model. Their key names (`user:<id>:meta` and so on) and their meta-as-document shape are stated assumptions in `BotKeys`.
- The Asana duplicate payload, the member-add request and its role are left out. Only "its failure changes nothing" is kept. Log lines are left out.
- The daily image cap (`generate_image`), `summarize_and_update_memory`, `coach_answer` and `transcribe_audio` are oracles or are left out: their code is not part of this model.
- The embeds and reply texts of the slash commands are not modelled beyond which reply is chosen; for `/offer status` only the two sliced fields are, because slicing can raise.
- Admin.SetProperty: assigning `length` on an array profile or roadmap is modelled as a failure; JavaScript truncates or extends the array, or throws RangeError for a bad length. Holes left by assigning past the end read as null, as RedisJSON stores them.
- Admin.ArrayIndex: canonical array indices only; a name such as `01` or `1.0` is an ordinary property, which an array drops when it is serialized, so the stored document is unchanged.
- The prompt templates that only interpolate JSON (diagnosis, roadmap generation, offer builder, sales review, mindset, marketing, hiring) are left out. The completions they feed are oracles.
- Stub services (hiring, sandbox, reports, marketing) and `src/discord/commands/admin/adminActionsService.ts` are left out. Its `resetUserMemory` behaves as `Admin.ResetAllUserDataOk`; the rest of it is constant strings.
- Resuming onboarding: after a timeout, `!start` runs the loop again from question 1, because the stored stage is never read back. The model follows the code, not a resume-at-the-same-question reading.
- Prompts.CoachingSystemPrompt: the default texts inside the profile section are stated per field (`Prompts.OrDefault`), not as one lemma about the whole prompt text.
- Prompts.OfferSection: only the placeholder case is stated; the present-offer text interpolates fields as `Prompts.Interp` shows.

## Findings

| source | as written | input that shows it | evidently intended | confidence | as-written member | corrected member |
|---|---|---|---|---|---|---|
| src/services/memory.ts:83 | `ltrim(key, 0, 50)` keeps indices 0..50, i.e. 51 entries | a history of 50 entries, then one more `appendHistory` call: 51 entries remain | keep the last 50 entries, as the comment says (`ltrim(key, 0, 49)`) | not executed | Memory.AsWrittenKeeps51 | Memory.HistoryAtMost50 |
| src/discord/commands/user/offer.ts:24 | `flags: MessageFlags.Ephemeral` with no import of MessageFlags | `/offer start`: the wizard state is stored, then the reply throws a ReferenceError and Q1 is never sent | the ephemeral reply, then the DM with Q1 | not executed | Offer.StartOfferAsWritten | Offer.StartOffer |
| src/discord/commands/user/offer.ts:51 | `flags: MessageFlags.Ephemeral` with no import of MessageFlags | `/offer status` with any stored offer: the command throws instead of showing it | the offer embed, with program structure and guarantees sliced | not executed | Offer.OfferStatusAsWritten | Offer.OfferStatus |
