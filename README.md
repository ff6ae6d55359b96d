# tgbot — a Dafny model of the bot's handlers

The bot (`index.ts`) is a Telegram bot built on Telegraf. It keeps, for
every user it has seen, a record `{ clicks, score }` in a process-wide map,
creates that record on first use (`getUserData`), and answers `/start`, a
shared contact, one text entry that opens an inline menu, and sixteen
inline-button callbacks. Almost every handler ends with `incrementScore`,
which adds 25 points and reports the new score. Some handlers draw at random:
`selectRandom` picks an element, and `shuffle` permutes a copy of an array
by Fisher–Yates. The `guess`, `quiz` and `riddle` handlers build rows of
answer buttons tagged "correct" or "wrong".

The model is split into seven modules:

- `Basics` (`basics.dfy`) holds `Option` and `Map`, which the others share.
- `RandomSelection` (`random.dfy`) covers `Math.random()` as an exact
  fraction in [0, 1), and the index `floor(u * n)` the code derives from it
  (`Pick`).
  - `selectRandom` is modelled as `SelectRandom`.
  - `shuffle` is the array method `Shuffle`. It is proved against the
    functional specification `Shuffled`, which is proved a permutation
    that commutes with per-element projections. `ShuffledReaches` shows
    that any element can be placed at any position.
- `UserStore` (`store.dfy`) holds the per-user record and the
  get-or-create lookup (`Touch`).
- `Handlers` (`handlers.dfy`) holds the routing table (`Route`) and the
  state steps each handler body takes, in source order (`Ops`, run over the
  store by `Effect`).
  - `EffectTable` proves that these steps realise the per-handler table
    `NetEffect`: points (`Award`) and click counters (`ClicksAfter`).
  - It also holds the greeting finding below.
- `AnswerOptions` (`options.dfy`) builds the answer buttons of `guess`,
  `quiz` and `riddle`, and states their tags.
- `Catalog` (`catalog.dfy`) holds the fixed texts, quizzes, riddles and
  image URLs the handlers choose from. `Content` bundles the seven lists;
  `Stock` is the content whose lists are all non-empty, and `BotContent` is
  the bot's own.
- `BotCore` (`bot.dfy`) is the class `Bot`. Its fields are the user map,
  the log of shared contacts and the content the handlers draw from.
  - It has one method per handler body, plus `Dispatch`.
  - Each handler method is proved to change the store as `Effect` or
    `NetEffect` says.
  - Each handler method is proved to send exactly the trace `Replies`
    describes.
  - The reply functions take the content as a parameter, so that every
    statement about them holds for any non-empty lists, not only the
    bot's own.

A handler's random draws come from an oracle `rand: nat -> Random`: its k-th
call of `Math.random()` returns `rand(k)`. The clock's text is a parameter
(`Env.now`).

Three points about how the code awards points:

- `/start` awards no points, because it never calls `incrementScore`.
- A click on "Click me" awards 50 points, not 25: the handler adds 25
  itself and then calls `incrementScore`.
- The menu text entry awards 25 points.

## Model

| member | source | states |
|---|---|---|
| RandomSelection.Pick | index.ts:22 | the index `(Math.random() * n) \| 0` is a valid index, below n, for every draw |
| RandomSelection.PickIsFloor | index.ts:29 | the index drawn is k exactly when k/n <= u < (k+1)/n, i.e. `Math.floor(u * n)` |
| RandomSelection.PickReaches | index.ts:29 | every index k < n is drawn by some value of `Math.random()` |
| RandomSelection.SelectRandom | index.ts:28-30 | `selectRandom` returns an element of the array |
| RandomSelection.SelectRandomReaches | index.ts:28-30 | every element of the array can be the one `selectRandom` returns |
| RandomSelection.Swap | index.ts:23 | exchanging two positions keeps the length |
| RandomSelection.SwapPermutes | index.ts:23 | exchanging two positions keeps the multiset of elements |
| RandomSelection.ShuffleSteps | index.ts:21-24 | the swap loop from position i down to 1, step i exchanging i with the drawn j = Pick(u, i + 1); it keeps the length |
| RandomSelection.Shuffled | index.ts:19-26 | `shuffle(arr)` as a function of its draws: the swap loop from the last position; it keeps the length |
| RandomSelection.ShuffleStepsPermutes | index.ts:21-24 | the swap loop from position i down to 1 keeps length and multiset |
| RandomSelection.ShuffledPermutes | index.ts:19-26 | `shuffle` returns a permutation of its input, of the same length, whatever the draws |
| RandomSelection.ShuffleStepsMap | index.ts:21-24 | the swap loop commutes with mapping a function over the elements |
| RandomSelection.ShuffledMap | index.ts:19-26 | shuffling then projecting equals projecting then shuffling with the same draws |
| RandomSelection.SteerKeeps | index.ts:21-24 | draws that pick j = i at every step keep every element in place |
| RandomSelection.SteerSwaps | index.ts:21-24 | draws that pick lo at step m and j = i at every other step exchange exactly positions m and lo |
| RandomSelection.ShuffledReaches | index.ts:19-26 | for every position p and element s[q] there are draws under which `shuffle` puts s[q] at p |
| RandomSelection.Copy | index.ts:20 | `arr.slice()` is a fresh array with the same elements |
| RandomSelection.Exchange | index.ts:23 | the destructuring swap exchanges positions i and j in place, as `Swap` says |
| RandomSelection.Shuffle | index.ts:19-26 | the array method returns a fresh array equal to `Shuffled` of the input, a permutation of it, and leaves the input array unmodified |
| UserStore.Lookup | index.ts:14-17 | the record `getUserData` hands back: the stored one, else a fresh {0, 0} |
| UserStore.Touch | index.ts:14-17 | `getUserData` adds an unseen id with record {0, 0}, keeps a seen id's record, and changes no other entry |
| Handlers.TagOf | index.ts:99-306 | the callback data each `bot.action` handler is registered under; none is empty |
| Handlers.ActionFor | index.ts:99-306 | the `bot.action` registrations looked up by callback data, first registration first |
| Handlers.Route | index.ts:40-306 | a handler is reached by a button press exactly when it is a callback handler; any shared contact reaches the contact handler |
| Handlers.RouteTag | index.ts:99-306 | each callback tag reaches exactly the handler registered under it |
| Handlers.TagOfRoutes | index.ts:99-306 | no earlier registration captures a handler's own tag: the tag reaches that handler |
| Handlers.RoutedTagIsTagOf | index.ts:99-306 | a tag that reaches a handler is that callback handler's own tag |
| Handlers.Apply | index.ts:32-300 | the record after one step: `getUserData` leaves it, `score += n` adds n points, `clicks += 1` adds a click, `clicks = 0` clears the clicks |
| Handlers.Exec | index.ts:14-36 | the store after one step for the caller: `getUserData` inserts an unseen user, any other step replaces only the caller's record |
| Handlers.Run | index.ts:32-300 | the store after a handler body's steps, taken one after another in source order |
| Handlers.Fold | index.ts:32-300 | the caller's record after a list of steps, applied in order |
| Handlers.BeforeAckOps | index.ts:281-300 | the steps a callback handler takes before `answerCbQuery`: the bonus of `thanks` and `correct`, none for the others |
| Handlers.AfterAckOps | index.ts:121-127 | the steps a callback handler takes after `answerCbQuery` and before its reply: the clearing of `reset`, none for the others |
| Handlers.OwnOps | index.ts:56-300 | the steps each handler body takes on the caller's record before `incrementScore`, in source order |
| Handlers.Ops | index.ts:40-306 | every handler but `/start` takes its own steps and then those of `incrementScore` |
| Handlers.Effect | index.ts:40-306 | the store after a handler runs its steps for the caller |
| Handlers.Award | index.ts:32-306 | the points a handler awards in all: 0 exactly for `/start`, never more than 50 |
| Handlers.ClicksAfter | index.ts:99-127 | the click count after a handler: one more after `clicked`, zero after `reset`, unchanged otherwise |
| Handlers.NetEffect | index.ts:40-306 | the per-handler table: `/start` changes nothing; any other handler replaces only the caller's record, with `ClicksAfter` clicks and `Award` more points |
| Handlers.IncrementScoreFold | index.ts:32-36 | `incrementScore` adds exactly 25 points to the record and leaves the click count alone |
| Handlers.IncrementScoreRun | index.ts:32-36 | `incrementScore` on the store inserts an unseen user and replaces only that user's record, with 25 more points |
| Handlers.RunAppend | index.ts:40-306 | running two step lists in turn is running their concatenation |
| Handlers.RunIsFold | index.ts:32-300 | any non-empty step list replaces only the caller's record, by the steps applied in order |
| Handlers.FoldAppend | index.ts:40-306 | folding two step lists in turn is folding their concatenation |
| Handlers.FoldShort | index.ts:40-306 | a list of up to three steps applies them to the record in order |
| Handlers.OwnFold | index.ts:56-300 | a handler's own steps, before `incrementScore`, give its table click count and its award less 25 |
| Handlers.CallbackOwnOps | index.ts:121-306 | a callback handler's own steps are those before its acknowledgement (the bonus of `thanks` and `correct`) followed by those after it (the reset of `reset`) |
| Handlers.EffectSplit | index.ts:56-306 | every handler but `/start` is its own steps followed by `incrementScore` |
| Handlers.EffectTable | index.ts:40-306 | every handler's steps replace only the caller's record: clicks +1 for `clicked`, 0 for `reset`, unchanged otherwise; score +50 for contact, `clicked`, `correct` and `thanks`, +0 for `/start`, +25 for all others |
| Handlers.EffectMonotone | index.ts:32-36 | no handler removes a user or lowers a score, and every handler keeps counters non-negative |
| Handlers.NetEffectNonNegative | index.ts:32-300 | the table keeps every counter non-negative: no handler subtracts points or clicks |
| Handlers.EffectsCommute | index.ts:12 | handlers run for two different users commute: each user's record is independent |
| Handlers.NetEffectsCommute | index.ts:12 | the per-handler table updates for two different users commute |
| Handlers.ThreeClicks | index.ts:99-119 | three clicks by a new user leave 3 clicks and 150 points |
| Handlers.GreetsAsWritten | index.ts:102-105 | the greeting guard as written: the click count after the increment is 0 |
| Handlers.FirstClick | index.ts:102-105 | the corrected guard: the click count before the increment is 0 |
| Handlers.GreetingUnreachableAsWritten | index.ts:102-105 | as written, the greeting guard never holds while counters are non-negative |
| Handlers.FirstClickNotGreetedAsWritten | index.ts:102-105 | as written, a new user's first click is not greeted |
| Handlers.FirstClickGreeting | index.ts:102-105 | with the guard tested before the increment, a new user's first click is greeted, the next click is not, and the first click after a reset is |
| AnswerOptions.Tagged | index.ts:151-154 | each answer becomes a button captioned with it and carrying the given tag, in order |
| AnswerOptions.AnswerButtons | index.ts:151-154 | the options of a quiz or riddle before shuffling: the correct answers, then the wrong ones, as many as both lists hold |
| AnswerOptions.Repeat | index.ts:131-136 | n copies of a tag form a list of length n |
| AnswerOptions.RepeatCount | index.ts:131-136 | n copies of a tag hold that tag n times and no other |
| AnswerOptions.RepeatAt | index.ts:131-136 | every position of n copies of a tag holds that tag |
| AnswerOptions.AnswerButtonsShape | index.ts:151-154 | before shuffling, the options are the correct answers tagged "correct" followed by the wrong ones tagged "wrong", captions in catalog order |
| AnswerOptions.ShuffledAnswers | index.ts:151-154 | the shown options are a permutation of the answer buttons, as many "correct" tags as correct answers and as many "wrong" tags as wrong answers |
| AnswerOptions.AnswerPositionOpen | index.ts:151-154 | no answer position is fixed: at every position some draws show a correct answer, and some show a wrong one when there is one |
| AnswerOptions.GuessChoices | index.ts:131-137 | the four guess buttons, labelled by draws 0 to 3, with the one drawn by draw 4 tagged "correct" |
| AnswerOptions.GuessChoicesTags | index.ts:131-137 | of the four guess buttons, a button is tagged "correct" exactly when it is the drawn one, and "wrong" exactly when it is not |
| AnswerOptions.GuessTagCounts | index.ts:131-137 | the guess tags are four "wrong" with the drawn one overwritten: one "correct" and three "wrong" |
| AnswerOptions.GuessOptions | index.ts:131-137 | four "wrong" buttons with the one `selectRandom` picks overwritten to "correct" equal `GuessChoices` |
| BotCore.QuestionReply | index.ts:142-157 | a quiz or riddle asks the question of an entry of its catalog, over a keyboard |
| BotCore.CallbackReply | index.ts:121-306 | each callback handler's own reply is a message, never an acknowledgement or score report; only `image` sends an animation |
| BotCore.ClickReplies | index.ts:99-119 | the trace of `clicked`: the acknowledgement, the greeting on a first click, a drawn message, the new click count with its keyboard, then the new score |
| BotCore.Replies | index.ts:40-306 | the trace each handler sends, given the store before the update: `/start` its greeting; contact and the menu entry their reply then the new score; `clicked` its click trace; every other callback the acknowledgement, its own reply, then the new score |
| BotCore.CallbackReplies | index.ts:121-306 | a callback handler other than `clicked` sends the acknowledgement, its own reply, then the new score |
| BotCore.ClickedReplies | index.ts:99-119 | the `clicked` tag yields the click handler's trace |
| BotCore.ClickRepliesAcknowledged | index.ts:99-119 | the click trace starts with the acknowledgement and holds no other |
| BotCore.CallbackAcknowledged | index.ts:99-306 | a button press is acknowledged exactly once, before anything else is sent |
| BotCore.OthersNotAcknowledged | index.ts:40-97 | `/start`, a shared contact and the menu entry are never acknowledged |
| BotCore.RepliesReportScore | index.ts:32-36 | every handler but `/start` ends by reporting the old score plus that handler's award |
| BotCore.StartKeyboardRouted | index.ts:43-52 | the text entry of the `/start` keyboard opens the inline menu |
| BotCore.MenuKeyboardRouted | index.ts:73-96 | every callback button of the inline menu reaches a registered handler |
| BotCore.ReplyKeyboardsRouted | index.ts:110-243 | the click and rating keyboards lead only to registered handlers; the emotion buttons reach none |
| BotCore.AnotherOneLoops | index.ts:159-279 | the "another one" button of lifehack, fact, quote and image is the only button and leads back to the same handler |
| BotCore.VerdictTagsRouted | index.ts:294-306 | the tags "correct" and "wrong" reach the `correct` and `wrong` handlers |
| BotCore.AnswerButtonTags | index.ts:151-154 | every quiz or riddle answer button is tagged "correct" or "wrong" |
| BotCore.QuestionAnswersRouted | index.ts:142-157 | every answer a quiz or riddle shows leads to the `correct` or `wrong` handler |
| BotCore.GuessAnswersRouted | index.ts:129-140 | every guess button leads to the `correct` or `wrong` handler |
| BotCore.AskQuestion | index.ts:149-155 | the quiz/riddle reply is the drawn entry's question over the shuffle of its answer buttons |
| BotCore.ComposeReply | index.ts:121-306 | each callback handler's own reply equals `CallbackReply` |
| BotCore.Bot.constructor | index.ts:11-12 | the bot starts with no users, an empty contact log and its own content |
| BotCore.Bot.GetUserData | index.ts:14-17 | returns the stored record, or a fresh {0, 0} one, and leaves the store as `Touch` says |
| BotCore.Bot.IncrementScore | index.ts:32-36 | the caller's record gains 25 points, its clicks unchanged; the reply shows the new score |
| BotCore.Bot.OnStart | index.ts:40-54 | `/start` sends the greeting with the contact-request keyboard and changes nothing |
| BotCore.Bot.OnContact | index.ts:56-71 | a shared contact appends one record to the log, changes the store as the table says (+50), and sends the thank-you then the score; counters stay non-negative |
| BotCore.Bot.OnInlineMenu | index.ts:73-97 | the menu entry sends the inline menu and changes the store as the table says (+25); counters stay non-negative |
| BotCore.Bot.OnClicked | index.ts:99-119 | a click changes the store as the table says (one click, +50) and sends the click trace of `ClickReplies`; counters stay non-negative |
| BotCore.Bot.BeforeAck | index.ts:281-300 | before acknowledging, `thanks` and `correct` run their bonus step and the other handlers none |
| BotCore.Bot.AfterAck | index.ts:121-127 | after acknowledging, `reset` runs its clearing step and the other handlers none |
| BotCore.Bot.OwnSteps | index.ts:121-306 | a callback handler up to its reply runs exactly its own steps and sends the acknowledgement |
| BotCore.Bot.OnCallback | index.ts:121-306 | every other callback changes the store as `Effect` says and sends ack, reply, score; counters stay non-negative |
| BotCore.Bot.Dispatch | index.ts:40-306 | an unrouted update changes nothing and sends nothing; otherwise the store becomes both `Effect` and `NetEffect` and the replies are `Replies`; the log grows by one record per shared contact; counters stay non-negative |

## Left out

- Telegraf transport is not modelled: the connection, `bot.launch`, signal handling, and the token read from `config.json`. An update arrives as an `Event`, and what is sent is the `Reply` trace.
- Writing the contact log to `phone-numbers.txt` is left out: the file handle, the JSON encoding of the record and a failing write. The log is a sequence of `ContactRecord` values, and only the sender id and first name are kept of the profile.
- The clock is a parameter: `new Date().toUTCString()` is the `now` text of `Env`.
- Floating point is left out. `Math.random()` is an exact fraction, and `| 0` and `Math.floor` both become floor. `x | 0` is a conversion to a 32-bit integer, so the two agree only on [0, 2^31), which covers every index the bot draws (arrays of at most six elements).
- `RandomSelection.Pick`: the wrap-around of `| 0` at 2^31 and above is not modelled, so for arrays longer than 2^31 the model and `shuffle` would differ.
- The guess labels `${Math.random() * 10}` are kept as the draw itself (`Decimal`), not as their decimal text.
- Reply texts that interpolate values (the thank-you, the greeting, the click count and the score) are kept as their values, not as formatted strings.
- JavaScript numbers are unbounded integers in the model. The loss of precision beyond 2^53 points is not modelled.
- `Handlers.EffectTable` and `BotCore.Bot.Dispatch` assume that every send succeeds. In the code, a rejected `ctx.reply`, `answerCbQuery` or `sendAnimation` rejects the handler and skips its remaining steps. For example, a failed reply in `clicked` (index.ts:105-115) leaves the click counted but no points added. The emotion buttons' empty callback data (index.ts:221-223) may be such a case.
- `RandomSelection.Shuffle`: that every outcome of `shuffle` is equally likely is not stated. The model proves a permutation, and `ShuffledReaches` shows any element can reach any position, but draws are an oracle, not a probability distribution.
- `BotCore.Bot.OnCallback`: order is not modelled for `reset`, which does not await its acknowledgement, or for `wrong`, which does not await its reply. The trace lists both in program order.
- Each handler is modelled as one atomic step. Interleaving of async handlers for the same user is not modelled: the code keeps `userData` across its `await`s (index.ts:102-117), so another update for that user may change the record meanwhile.
- Records are stored by value. The code mutates the object `getUserData` returned, and within one atomic handler no other code changes that object, so the two agree.
- The `resize` and `oneTime` flags of the start keyboard are not modelled.
- `RandomSelection.SelectRandom` requires a non-empty array. Every caller passes a constant non-empty list. On an empty array the code would return `undefined`: the `!` is a compile-time annotation only.
- `BotCore.Bot.OnClicked`, `BotCore.ClickReplies`, `BotCore.Replies` and `BotCore.Bot.Dispatch` use the corrected greeting guard from Findings, not the guard as written.
- `BotCore.Replies` and `BotCore.ClickReplies` have no contract of their own: they are the reply traces the handler methods are proved against.

## Findings

| source | as written | input that shows it | evidently intended | confidence | as-written member | corrected member |
|---|---|---|---|---|---|---|
| index.ts:103-105 | the guard `userData.clicks == 0` is tested after `clicks += 1`, so with non-negative counters it never holds and the greeting is never sent | a new user's first click: clicks becomes 1, the guard is false, no greeting | greet when the click is the first one, i.e. test `clicks == 0` before the increment | high, not executed | Handlers.FirstClickNotGreetedAsWritten | Handlers.FirstClickGreeting |
