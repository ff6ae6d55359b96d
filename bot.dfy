/**
 * The bot: the user store and the contact log as the fields of one object,
 * one method per handler body, and `Dispatch`, which routes an update to its
 * handler. What a handler sends is recorded as a trace of `Reply` values;
 * `Replies` states that trace as a function of the store before the update.
 */
module BotCore {
  import opened Basics
  import opened RandomSelection
  import opened UserStore
  import opened AnswerOptions
  import opened Handlers
  import opened Catalog

  /** A keyboard button. */
  datatype Button =
    | Callback(choice: Choice)          // inline: sends its tag back
    | Link(text: string, url: string)   // inline: opens a URL
    | RequestContact(text: string)      // reply keyboard: shares the phone number
    | Plain(text: string)               // reply keyboard: sends its text

  datatype Keyboard = ReplyKeyboard(rows: seq<seq<Button>>) | InlineKeyboard(rows: seq<seq<Button>>)

  /** One thing a handler sends, in the order it sends them. */
  datatype Reply =
    | Ack                                        // `ctx.answerCbQuery()`
    | Say(text: string)
    | SayWith(text: string, keyboard: Keyboard)
    | Animation(url: string, keyboard: Keyboard)
    | ContactThanks(phone: string)               // the thank-you quoting the shared number
    | Greeting(name: string)                     // the first-click greeting
    | ClickReport(clicks: int, keyboard: Keyboard)
    | ScoreReport(score: int)                    // the reply of `incrementScore`

  /** The sender's profile, as far as the model keeps it. */
  datatype Sender = Sender(id: int, firstName: string)

  /** One line of the phone-number file: the sender's profile and the shared number. */
  datatype ContactRecord = ContactRecord(from: Sender, number: string)

  /** What one update sees of the outside world: its random draws and the clock's UTC text. */
  datatype Env = Env(rand: Oracle, now: string)

  function CallbackButton(text: string, tag: string): Button
  {
    Callback(Choice(Text(text), tag))
  }

  /** A row of inline buttons, one per choice, in order. */
  function Row(cs: seq<Choice>): seq<Button>
  {
    Map((c: Choice) => Callback(c), cs)
  }

  /** The single "show another" button that leads back to the same handler. */
  function AnotherOne(text: string, tag: string): Keyboard
  {
    InlineKeyboard([[CallbackButton(text, tag)]])
  }

  const StartText: string := "Вітаю! Обери опцію нижче ⬇ / Hello! Choose an option below ⬇"
  const StartKeyboard: Keyboard := ReplyKeyboard([
    [RequestContact("📞 Надіслати номер телефону / Send phone number")],
    [Plain(InlineButtonsText)]
  ])

  const MenuText: string := "Це інлайн-кнопки / These are inline buttons:"
  const MenuKeyboard: Keyboard := InlineKeyboard([
    [Link("🌐 Відвідати сайт / Visit website", "https://duikt.edu.ua/en/")],
    [CallbackButton("Вгадай число", "guess")],
    [CallbackButton("Quiz", "quiz")],
    [CallbackButton("Лайфхаки", "lifehack")],
    [CallbackButton("Факти", "fact")],
    [CallbackButton("Цитати", "quote")],
    [CallbackButton("Нинішній час", "datetime")],
    [CallbackButton("Емоція", "emotes")],
    [CallbackButton("Питання", "rate")],
    [CallbackButton("Загадка", "riddle")],
    [CallbackButton("Випадкова картинка", "image")],
    [CallbackButton("✅ Натисни мене / Click me", "clicked")]
  ])

  const ClickKeyboard: Keyboard := InlineKeyboard([
    [CallbackButton("✅ Натисни мене / Click me", "clicked")],
    [CallbackButton("Перезапустити", "reset")]
  ])

  const EmotesKeyboard: Keyboard := InlineKeyboard([
    [CallbackButton("😭", ""), CallbackButton("🤨", ""), CallbackButton("😂", "")]
  ])

  const RateText: string := "Тобі подобається бот? Так / Ні"
  const RateKeyboard: Keyboard := InlineKeyboard([
    [CallbackButton("Так", "thanks"), CallbackButton("Ні", "not-thanks")]
  ])

  /** A quiz or riddle: the drawn entry's question over its shuffled answer buttons. */
  function QuestionReply(catalog: seq<QuizEntry>, rand: Oracle): (r: Reply)
    requires |catalog| > 0
    ensures r.SayWith? && r.text in (set e | e in catalog :: e.question)
  {
    var entry := SelectRandom(catalog, rand(0));
    SayWith(entry.question, InlineKeyboard([Row(Shuffled(AnswerButtons(entry), rand, 1))]))
  }

  /** The reply a callback handler other than `clicked` sends between the acknowledgement and the score. */
  function CallbackReply(h: Handler, env: Env, c: Stock): (r: Reply)
    requires IsCallback(h) && h != Clicked
    ensures r.Say? || r.SayWith? || r.Animation?
    ensures r.Animation? <==> h == Image
  {
    match h
    case Reset => Say("Натискання стерті.")
    case Guess => SayWith("Guess the number", InlineKeyboard([Row(GuessChoices(env.rand, 0))]))
    case Quiz => QuestionReply(c.quizzes, env.rand)
    case Lifehack => SayWith(SelectRandom(c.lifehacks, env.rand(0)), AnotherOne("Інший", "lifehack"))
    case Fact => SayWith(SelectRandom(c.facts, env.rand(0)), AnotherOne("Another one", "fact"))
    case Quote => SayWith(SelectRandom(c.quotes, env.rand(0)), AnotherOne("Another one", "quote"))
    case DateTime => Say(env.now)
    case Emotes => SayWith("Select emotion", EmotesKeyboard)
    case Rate => SayWith(RateText, RateKeyboard)
    case Riddle => QuestionReply(c.riddles, env.rand)
    case Image => Animation(SelectRandom(c.images, env.rand(0)), AnotherOne("Another one", "image"))
    case Thanks => Say("Thank you for your fair answer!")
    case NotThanks => Say("Why did you select that?")
    case Correct => Say("CORRECT!!!")
    case Wrong => Say("RONG!")
  }

  /**
   * The replies to a click on "Click me": the acknowledgement, the greeting on
   * a first click (with the intended guard), a drawn message, the new click
   * count with the click keyboard, and the score report.
   */
  function ClickReplies(users: map<int, UserData>, from: Sender, env: Env, c: Stock): seq<Reply>
  {
    var after := Lookup(NetEffect(users, from.id, Clicked), from.id);
    [Ack] + (if FirstClick(users, from.id) then [Greeting(from.firstName)] else []) +
    [Say(SelectRandom(c.clickMessages, env.rand(0))), ClickReport(after.clicks, ClickKeyboard), ScoreReport(after.score)]
  }

  /**
   * The replies to update e from `from`, given the store before it. The
   * `clicked` greeting uses the intended first-click guard.
   */
  function Replies(users: map<int, UserData>, from: Sender, e: Event, env: Env, c: Stock): seq<Reply>
    requires Route(e).Some?
  {
    var h := Route(e).value;
    var after := Lookup(NetEffect(users, from.id, h), from.id);
    var report := ScoreReport(after.score);
    match h
    case Start => [SayWith(StartText, StartKeyboard)]
    case Contact => [ContactThanks(e.phone), report]
    case InlineMenu => [SayWith(MenuText, MenuKeyboard), report]
    case Clicked => ClickReplies(users, from, env, c)
    case _ => [Ack, CallbackReply(h, env, c), report]
  }

  /** The replies of a callback handler other than `clicked`: acknowledgement, own reply, score. */
  lemma CallbackReplies(users: map<int, UserData>, from: Sender, tag: string, env: Env, c: Stock)
    requires Route(Action(tag)).Some? && Route(Action(tag)).value != Clicked
    ensures Replies(users, from, Action(tag), env, c) ==
            [Ack, CallbackReply(Route(Action(tag)).value, env, c),
             ScoreReport(Lookup(NetEffect(users, from.id, Route(Action(tag)).value), from.id).score)]
  {
  }

  /** The replies of the `clicked` handler, reached by its tag. */
  lemma ClickedReplies(users: map<int, UserData>, from: Sender, tag: string, env: Env, c: Stock)
    requires Route(Action(tag)) == Some(Clicked)
    ensures Replies(users, from, Action(tag), env, c) == ClickReplies(users, from, env, c)
  {
  }

  /** The click replies start with the acknowledgement and hold no other. */
  lemma ClickRepliesAcknowledged(users: map<int, UserData>, from: Sender, env: Env, c: Stock)
    ensures |ClickReplies(users, from, env, c)| > 0 && ClickReplies(users, from, env, c)[0] == Ack
    ensures Ack !in ClickReplies(users, from, env, c)[1..]
  {
    var after := Lookup(NetEffect(users, from.id, Clicked), from.id);
    var greeting := if FirstClick(users, from.id) then [Greeting(from.firstName)] else [];
    var rest := [Say(SelectRandom(c.clickMessages, env.rand(0))),
                 ClickReport(after.clicks, ClickKeyboard), ScoreReport(after.score)];
    assert ClickReplies(users, from, env, c)[1..] == greeting + rest;
  }

  /** A button press is acknowledged exactly once, before anything else is sent. */
  lemma CallbackAcknowledged(users: map<int, UserData>, from: Sender, tag: string, env: Env, c: Stock)
    requires Route(Action(tag)).Some?
    ensures |Replies(users, from, Action(tag), env, c)| > 0 && Replies(users, from, Action(tag), env, c)[0] == Ack
    ensures Ack !in Replies(users, from, Action(tag), env, c)[1..]
  {
    var h := Route(Action(tag)).value;
    if h == Clicked {
      ClickedReplies(users, from, tag, env, c);
      ClickRepliesAcknowledged(users, from, env, c);
    } else {
      CallbackReplies(users, from, tag, env, c);
    }
  }

  /** `/start`, the menu entry and a shared contact are never acknowledged. */
  lemma OthersNotAcknowledged(users: map<int, UserData>, from: Sender, e: Event, env: Env, c: Stock)
    requires Route(e).Some? && !e.Action?
    ensures Ack !in Replies(users, from, e, env, c)
  {
    var h := Route(e).value;
    assert !IsCallback(h);
  }

  /**
   * Every update that reaches a handler other than `/start` ends with the
   * score report, which shows the old score plus exactly the handler's award.
   */
  lemma {:induction false} RepliesReportScore(users: map<int, UserData>, from: Sender, e: Event, env: Env, c: Stock)
    requires Route(e).Some? && Route(e).value != Start
    ensures |Replies(users, from, e, env, c)| >= 2
    ensures Replies(users, from, e, env, c)[|Replies(users, from, e, env, c)| - 1] ==
            ScoreReport(Lookup(users, from.id).score + Award(Route(e).value))
  {
  }

  /** Every callback button of the keyboard leads to a registered handler. */
  ghost predicate Routed(kb: Keyboard)
  {
    forall i, j :: 0 <= i < |kb.rows| && 0 <= j < |kb.rows[i]| && kb.rows[i][j].Callback? ==>
      Route(Action(kb.rows[i][j].choice.tag)).Some?
  }

  /** The text entry of the `/start` keyboard opens the inline menu. */
  lemma StartKeyboardRouted()
    ensures StartKeyboard.rows[1][0].Plain? && Route(Hears(StartKeyboard.rows[1][0].text)) == Some(InlineMenu)
  {
  }

  /** Every callback button of the inline menu reaches a registered handler. */
  lemma MenuKeyboardRouted()
    ensures Routed(MenuKeyboard)
  {
    var kb := MenuKeyboard;
    forall i, j | 0 <= i < |kb.rows| && 0 <= j < |kb.rows[i]| && kb.rows[i][j].Callback?
      ensures Route(Action(kb.rows[i][j].choice.tag)).Some?
    {
      // row 0 holds the website link, not a callback button
      var h := [Guess, Guess, Quiz, Lifehack, Fact, Quote, DateTime, Emotes, Rate, Riddle, Image, Clicked][i];
      assert kb.rows[i][j].choice.tag == TagOf(h);
      TagOfRoutes(h);
    }
  }

  /**
   * The click keyboard and the rating question lead only to registered
   * handlers; the three emotion buttons carry an empty tag and reach none.
   */
  lemma ReplyKeyboardsRouted()
    ensures Routed(ClickKeyboard) && Routed(RateKeyboard)
    ensures forall j :: 0 <= j < |EmotesKeyboard.rows[0]| ==> Route(Action(EmotesKeyboard.rows[0][j].choice.tag)) == None
  {
  }

  /** A "show another" button leads back to the handler that showed it. */
  lemma AnotherOneLoops(h: Handler, env: Env, c: Stock)
    requires h in {Lifehack, Fact, Quote, Image}
    ensures var kb := CallbackReply(h, env, c).keyboard;
      |kb.rows| == 1 && |kb.rows[0]| == 1 && kb.rows[0][0].Callback? &&
      Route(Action(kb.rows[0][0].choice.tag)) == Some(h)
  {
  }

  /** Every answer button leads to the `correct` or the `wrong` handler. */
  ghost predicate AnswersRouted(row: seq<Button>)
  {
    forall j :: 0 <= j < |row| ==>
      row[j].Callback? && (Route(Action(row[j].choice.tag)) == Some(Correct) || Route(Action(row[j].choice.tag)) == Some(Wrong))
  }

  /** A button tagged "correct" or "wrong" leads to the handler of that name. */
  lemma VerdictTagsRouted()
    ensures Route(Action(CorrectTag)) == Some(Correct)
    ensures Route(Action(WrongTag)) == Some(Wrong)
  {
    RouteTag(Correct, CorrectTag);
    RouteTag(Wrong, WrongTag);
  }

  /** Every answer button of a quiz or riddle entry is tagged "correct" or "wrong". */
  lemma AnswerButtonTags(e: QuizEntry)
    ensures forall c :: c in AnswerButtons(e) ==> c.tag == CorrectTag || c.tag == WrongTag
  {
    forall c | c in AnswerButtons(e)
      ensures c.tag == CorrectTag || c.tag == WrongTag
    {
      var p :| 0 <= p < |AnswerButtons(e)| && AnswerButtons(e)[p] == c;
      if p < |e.correct| {
        assert c == Tagged(e.correct, CorrectTag)[p];
      } else {
        assert c == Tagged(e.wrong, WrongTag)[p - |e.correct|];
      }
    }
  }

  /** Each answer a quiz or riddle shows leads to the `correct` or `wrong` handler. */
  lemma QuestionAnswersRouted(catalog: seq<QuizEntry>, rand: Oracle)
    requires |catalog| > 0
    ensures QuestionReply(catalog, rand).keyboard.rows != []
    ensures AnswersRouted(QuestionReply(catalog, rand).keyboard.rows[0])
  {
    var entry := SelectRandom(catalog, rand(0));
    var shown := Shuffled(AnswerButtons(entry), rand, 1);
    var row := Row(shown);
    assert QuestionReply(catalog, rand).keyboard.rows == [row];
    ShuffledPermutes(AnswerButtons(entry), rand, 1);
    AnswerButtonTags(entry);
    VerdictTagsRouted();
    forall j | 0 <= j < |row|
      ensures row[j].Callback? && (Route(Action(row[j].choice.tag)) == Some(Correct) || Route(Action(row[j].choice.tag)) == Some(Wrong))
    {
      assert row[j] == Callback(shown[j]);
      assert shown[j] in multiset(AnswerButtons(entry));
    }
  }

  /** Each of the four guess buttons leads to the `correct` or `wrong` handler. */
  lemma GuessAnswersRouted(env: Env, c: Stock)
    ensures CallbackReply(Guess, env, c).keyboard.rows != []
    ensures AnswersRouted(CallbackReply(Guess, env, c).keyboard.rows[0])
  {
    GuessChoicesTags(env.rand, 0);
    VerdictTagsRouted();
    var row := Row(GuessChoices(env.rand, 0));
    assert CallbackReply(Guess, env, c).keyboard.rows == [row];
    forall j | 0 <= j < |row|
      ensures row[j].Callback? && (Route(Action(row[j].choice.tag)) == Some(Correct) || Route(Action(row[j].choice.tag)) == Some(Wrong))
    {
      assert row[j] == Callback(GuessChoices(env.rand, 0)[j]);
    }
  }

  /** The reply of a quiz or riddle, built as the handler builds it. */
  method AskQuestion(catalog: seq<QuizEntry>, rand: Oracle) returns (reply: Reply)
    requires |catalog| > 0
    ensures reply == QuestionReply(catalog, rand)
  {
    var entry := SelectRandom(catalog, rand(0));
    var buttons := AnswerButtons(entry);
    var options := new Choice[|buttons|](i requires 0 <= i < |buttons| => buttons[i]);
    assert options[..] == buttons;
    var answers := Shuffle(options, rand, 1);
    reply := SayWith(entry.question, InlineKeyboard([Row(answers[..])]));
  }

  /** The middle reply of a callback handler other than `clicked`, built as the handler builds it. */
  method ComposeReply(h: Handler, env: Env, c: Stock) returns (reply: Reply)
    requires IsCallback(h) && h != Clicked
    ensures reply == CallbackReply(h, env, c)
  {
    if h == Guess {
      var answers := GuessOptions(env.rand, 0);
      reply := SayWith("Guess the number", InlineKeyboard([Row(answers)]));
    } else if h == Quiz {
      reply := AskQuestion(c.quizzes, env.rand);
    } else if h == Riddle {
      reply := AskQuestion(c.riddles, env.rand);
    } else {
      reply := CallbackReply(h, env, c);
    }
  }

  class Bot {
    /** `userDataMap`: the record of every user seen so far. */
    var users: map<int, UserData>
    /** The records appended to the phone-number file, oldest first. */
    var contactLog: seq<ContactRecord>
    /** The lists the handlers draw from. */
    const content: Stock

    ghost predicate Valid()
      reads this
    {
      NonNegative(users)
    }

    constructor ()
      ensures users == map[] && contactLog == [] && content == BotContent && Valid()
    {
      users := map[];
      contactLog := [];
      content := BotContent;
    }

    /** `getUserData(id)`: the user's record, created on first use. */
    method GetUserData(id: int) returns (d: UserData)
      modifies this`users
      ensures users == Touch(old(users), id)
      ensures d == Lookup(old(users), id) && d == users[id]
    {
      if id !in users {
        users := users[id := Fresh];
      }
      d := users[id];
    }

    /** `incrementScore(ctx)`: 25 more points for the user, and a reply showing the new score. */
    method IncrementScore(id: int) returns (report: Reply)
      modifies this`users
      ensures users == old(users)[id := UserData(Lookup(old(users), id).clicks, Lookup(old(users), id).score + 25)]
      ensures report == ScoreReport(users[id].score)
    {
      var d := GetUserData(id);
      d := d.(score := d.score + 25);
      users := users[id := d];
      report := ScoreReport(d.score);
    }

    /** `/start`: the greeting with the contact-request and inline-menu keyboard; no state changes. */
    method OnStart(from: Sender, env: Env) returns (out: seq<Reply>)
      ensures out == [SayWith(StartText, StartKeyboard)]
    {
      out := [SayWith(StartText, StartKeyboard)];
    }

    /** A shared contact: one log record, 25 points, the thank-you, then `incrementScore`. */
    method OnContact(from: Sender, phone: string, env: Env) returns (out: seq<Reply>)
      modifies this
      ensures users == NetEffect(old(users), from.id, Contact)
      ensures contactLog == old(contactLog) + [ContactRecord(from, phone)]
      ensures out == [ContactThanks(phone), ScoreReport(users[from.id].score)]
      ensures old(Valid()) ==> Valid()
    {
      NetEffectNonNegative(users, from.id, Contact);
      var d := GetUserData(from.id);
      contactLog := contactLog + [ContactRecord(from, phone)];
      d := d.(score := d.score + 25);
      users := users[from.id := d];
      out := [ContactThanks(phone)];
      var report := IncrementScore(from.id);
      out := out + [report];
    }

    /** The inline-menu text entry: the menu of inline buttons, then `incrementScore`. */
    method OnInlineMenu(from: Sender, env: Env) returns (out: seq<Reply>)
      modifies this`users
      ensures users == NetEffect(old(users), from.id, InlineMenu)
      ensures out == [SayWith(MenuText, MenuKeyboard), ScoreReport(users[from.id].score)]
      ensures old(Valid()) ==> Valid()
    {
      NetEffectNonNegative(users, from.id, InlineMenu);
      out := [SayWith(MenuText, MenuKeyboard)];
      var report := IncrementScore(from.id);
      out := out + [report];
    }

    /**
     * `clicked`: acknowledge, count the click, greet on the first click, send a
     * drawn message and the click count, add 25 points, then `incrementScore`.
     */
    method OnClicked(from: Sender, env: Env) returns (out: seq<Reply>)
      modifies this`users
      ensures users == NetEffect(old(users), from.id, Clicked)
      ensures out == ClickReplies(old(users), from, env, content)
      ensures old(Valid()) ==> Valid()
    {
      NetEffectNonNegative(users, from.id, Clicked);
      out := [Ack];
      var d := GetUserData(from.id);
      var firstClick := d.clicks == 0;
      d := d.(clicks := d.clicks + 1);
      users := users[from.id := d];
      if firstClick {
        out := out + [Greeting(from.firstName)];
      }
      out := out + [Say(SelectRandom(content.clickMessages, env.rand(0)))];
      out := out + [ClickReport(d.clicks, ClickKeyboard)];
      d := d.(score := d.score + 25);
      users := users[from.id := d];
      var report := IncrementScore(from.id);
      out := out + [report];
    }

    /**
     * A callback handler's steps before its acknowledgement: `thanks` and
     * `correct` add 25 points to the caller's record; the others do nothing.
     */
    method BeforeAck(id: int, h: Handler)
      modifies this`users
      ensures users == Run(old(users), id, BeforeAckOps(h))
    {
      if h == Thanks || h == Correct {
        RunIsFold(users, id, OwnOps(h));
        OwnFold(h, Lookup(users, id));
        var d := GetUserData(id);
        users := users[id := d.(score := d.score + 25)];
      }
    }

    /**
     * A callback handler's steps after its acknowledgement and before its
     * reply: `reset` clears the caller's click count; the others do nothing.
     */
    method AfterAck(id: int, h: Handler)
      modifies this`users
      ensures users == Run(old(users), id, AfterAckOps(h))
    {
      if h == Reset {
        RunIsFold(users, id, OwnOps(h));
        OwnFold(h, Lookup(users, id));
        var d := GetUserData(id);
        users := users[id := d.(clicks := 0)];
      }
    }

    /**
     * A callback handler up to its reply: its own steps on the store, with
     * the acknowledgement sent between the bonus and the reset.
     */
    method OwnSteps(id: int, h: Handler) returns (out: seq<Reply>)
      requires IsCallback(h) && h != Clicked
      modifies this`users
      ensures users == Run(old(users), id, OwnOps(h))
      ensures out == [Ack]
    {
      CallbackOwnOps(h);
      RunAppend(users, id, BeforeAckOps(h), AfterAckOps(h));
      BeforeAck(id, h);
      out := [Ack];
      AfterAck(id, h);
    }

    /**
     * Every other callback handler: `thanks` and `correct` add 25 points before
     * acknowledging, `reset` clears the click count after acknowledging; each
     * then sends its own reply and calls `incrementScore`.
     */
    method OnCallback(from: Sender, h: Handler, env: Env) returns (out: seq<Reply>)
      requires IsCallback(h) && h != Clicked
      modifies this`users
      ensures users == Effect(old(users), from.id, h)
      ensures from.id in users
      ensures out == [Ack, CallbackReply(h, env, content), ScoreReport(users[from.id].score)]
      ensures old(Valid()) ==> Valid()
    {
      EffectMonotone(users, from.id, h);
      EffectSplit(users, from.id, h);
      out := OwnSteps(from.id, h);
      var reply := ComposeReply(h, env, content);
      IncrementScoreRun(users, from.id);
      var report := IncrementScore(from.id);
      out := out + [reply, report];
    }

    /**
     * One update: the handler `Route` selects runs, or nothing happens. The
     * store changes as `Effect` says, the contact log grows by exactly one
     * record per shared contact, the replies are `Replies`, and counters stay
     * non-negative.
     */
    method Dispatch(from: Sender, e: Event, env: Env) returns (out: seq<Reply>)
      modifies this
      ensures Route(e).None? ==> users == old(users) && out == []
      ensures Route(e).Some? ==> users == NetEffect(old(users), from.id, Route(e).value)
      ensures Route(e).Some? ==> users == Effect(old(users), from.id, Route(e).value)
      ensures Route(e).Some? ==> out == Replies(old(users), from, e, env, content)
      ensures contactLog == if e.ContactShared? then old(contactLog) + [ContactRecord(from, e.phone)] else old(contactLog)
      ensures old(Valid()) ==> Valid()
    {
      match Route(e) {
        case None =>
          out := [];
        case Some(h) =>
          if h == Start {
            out := OnStart(from, env);
          } else if h == Contact {
            out := OnContact(from, e.phone, env);
          } else if h == InlineMenu {
            out := OnInlineMenu(from, env);
          } else if h == Clicked {
            out := OnClicked(from, env);
            RouteTag(Clicked, e.tag);
          } else {
            out := OnCallback(from, h, env);
            CallbackReplies(old(users), from, e.tag, env, content);
          }
          EffectTable(old(users), from.id, h);
          EffectMonotone(old(users), from.id, h);
      }
    }
  }
}
