/**
 * The bot's routing table and the effect of each handler on the user store.
 *
 * A handler's effect on state is written as the list of steps its body takes
 * (`getUserData`, `score += 25`, `clicks += 1`, `clicks = 0`, in source order,
 * ending with the steps of `incrementScore`); `Effect` runs those steps on the
 * store. `Award` and `ClicksAfter` state each handler's net effect as a
 * table, and `EffectTable` proves that the steps realise it.
 */
module Handlers {
  import opened Basics
  import opened UserStore

  /** An inbound update, reduced to the channel the bot registers handlers on. */
  datatype Event =
    | Command(name: string)        // a `/name` command
    | Hears(text: string)          // a plain text message
    | Action(tag: string)          // the callback data of a pressed inline button
    | ContactShared(phone: string) // a message carrying a shared contact

  /** One registered handler per constructor. */
  datatype Handler =
    | Start | Contact | InlineMenu
    | Clicked | Reset | Guess | Quiz | Lifehack | Fact | Quote | DateTime
    | Emotes | Rate | Riddle | Image | Thanks | NotThanks | Correct | Wrong

  /** The reply-keyboard entry that opens the inline menu. */
  const InlineButtonsText: string := "ℹ Інлайн кнопки / Inline buttons"

  /** The handlers registered with `bot.action`, i.e. reached by a button press. */
  predicate IsCallback(h: Handler)
  {
    !(h.Start? || h.Contact? || h.InlineMenu?)
  }

  /** The callback data each `bot.action` handler is registered under. */
  function TagOf(h: Handler): (tag: string)
    requires IsCallback(h)
    ensures tag != ""
  {
    match h
    case Clicked => "clicked"
    case Reset => "reset"
    case Guess => "guess"
    case Quiz => "quiz"
    case Lifehack => "lifehack"
    case Fact => "fact"
    case Quote => "quote"
    case DateTime => "datetime"
    case Emotes => "emotes"
    case Rate => "rate"
    case Riddle => "riddle"
    case Image => "image"
    case Thanks => "thanks"
    case NotThanks => "not-thanks"
    case Correct => "correct"
    case Wrong => "wrong"
  }

  /** The `bot.action` registrations, looked up by callback data. */
  function ActionFor(tag: string): Option<Handler>
  {
    if tag == "clicked" then Some(Clicked)
    else if tag == "reset" then Some(Reset)
    else if tag == "guess" then Some(Guess)
    else if tag == "quiz" then Some(Quiz)
    else if tag == "lifehack" then Some(Lifehack)
    else if tag == "fact" then Some(Fact)
    else if tag == "quote" then Some(Quote)
    else if tag == "datetime" then Some(DateTime)
    else if tag == "emotes" then Some(Emotes)
    else if tag == "rate" then Some(Rate)
    else if tag == "riddle" then Some(Riddle)
    else if tag == "image" then Some(Image)
    else if tag == "thanks" then Some(Thanks)
    else if tag == "not-thanks" then Some(NotThanks)
    else if tag == "correct" then Some(Correct)
    else if tag == "wrong" then Some(Wrong)
    else None
  }

  /**
   * The handler an event reaches, if any: `/start`, the exact inline-menu
   * text, a registered callback tag, or any shared contact. Callback handlers
   * are reached by button presses and by nothing else.
   */
  function Route(e: Event): (h: Option<Handler>)
    ensures h.Some? && IsCallback(h.value) <==> h.Some? && e.Action?
    ensures e.ContactShared? ==> h == Some(Contact)
  {
    match e
    case Command(name) => if name == "start" then Some(Start) else None
    case Hears(text) => if text == InlineButtonsText then Some(InlineMenu) else None
    case Action(tag) => ActionFor(tag)
    case ContactShared(_) => Some(Contact)
  }

  /** Registration is one-to-one: a tag reaches exactly the handler registered under it. */
  lemma RouteTag(h: Handler, tag: string)
    requires IsCallback(h)
    ensures Route(Action(tag)) == Some(h) <==> tag == TagOf(h)
  {
    TagOfRoutes(h);
    RoutedTagIsTagOf(tag);
  }

  /** A handler's own tag reaches it: no earlier registration captures it. */
  lemma TagOfRoutes(h: Handler)
    requires IsCallback(h)
    ensures ActionFor(TagOf(h)) == Some(h)
  {
    match h
    case Clicked =>
    case Reset =>
    case Guess =>
    case Quiz =>
    case Lifehack =>
    case Fact =>
    case Quote =>
    case DateTime =>
    case Emotes =>
    case Rate =>
    case Riddle =>
    case Image =>
    case Thanks =>
    case NotThanks =>
    case Correct =>
    case Wrong =>
  }

  /** A tag that reaches a handler is that handler's own tag. */
  lemma RoutedTagIsTagOf(tag: string)
    ensures ActionFor(tag).Some? ==> IsCallback(ActionFor(tag).value) && TagOf(ActionFor(tag).value) == tag
  {
  }

  /** One state step of a handler body, applied to the invoking user's record. */
  datatype Op = GetUser | AddScore(points: int) | AddClick | ClearClicks

  /** The record after one step. */
  function Apply(op: Op, d: UserData): UserData
  {
    match op
    case GetUser => d
    case AddScore(n) => d.(score := d.score + n)
    case AddClick => d.(clicks := d.clicks + 1)
    case ClearClicks => d.(clicks := 0)
  }

  /** The store after one step taken for user `id`. */
  function Exec(users: map<int, UserData>, id: int, op: Op): map<int, UserData>
  {
    match op
    case GetUser => Touch(users, id)
    case _ => users[id := Apply(op, Lookup(users, id))]
  }

  /** The store after a sequence of steps taken for user `id`. */
  function Run(users: map<int, UserData>, id: int, ops: seq<Op>): map<int, UserData>
    decreases |ops|
  {
    if ops == [] then users else Run(Exec(users, id, ops[0]), id, ops[1..])
  }

  /** The record after a sequence of steps. */
  function Fold(ops: seq<Op>, d: UserData): UserData
    decreases |ops|
  {
    if ops == [] then d else Fold(ops[1..], Apply(ops[0], d))
  }

  /** `incrementScore`: look the user up, add 25 points. */
  const IncrementScoreOps: seq<Op> := [GetUser, AddScore(25)]

  /** The state steps a handler takes before it calls `incrementScore`. */
  function OwnOps(h: Handler): seq<Op>
  {
    match h
    case Contact => [GetUser, AddScore(25)]
    case Clicked => [GetUser, AddClick, AddScore(25)]
    case Reset => [GetUser, ClearClicks]
    case Thanks => [GetUser, AddScore(25)]
    case Correct => [GetUser, AddScore(25)]
    case _ => []
  }

  /** Every handler except `/start` ends by calling `incrementScore`. */
  function Ops(h: Handler): seq<Op>
  {
    if h == Start then [] else OwnOps(h) + IncrementScoreOps
  }

  /** The store after handler h runs for user `id`. */
  function Effect(users: map<int, UserData>, id: int, h: Handler): map<int, UserData>
  {
    Run(users, id, Ops(h))
  }

  /**
   * Points a handler awards in all: the 25 of `incrementScore`, 25 more for a
   * shared contact, a click, a correct answer and a "yes" to the rating
   * question, nothing for `/start`.
   */
  function Award(h: Handler): (points: nat)
    ensures points == 0 <==> h == Start
    ensures points <= 50
  {
    match h
    case Start => 0
    case Contact | Clicked | Correct | Thanks => 50
    case _ => 25
  }

  /** The click counter after handler h: one more for a click, zero after a reset. */
  function ClicksAfter(h: Handler, clicks: int): int
  {
    match h
    case Clicked => clicks + 1
    case Reset => 0
    case _ => clicks
  }

  /** The store after handler h as the table states it: one record replaced, or none for `/start`. */
  function NetEffect(users: map<int, UserData>, id: int, h: Handler): map<int, UserData>
  {
    if h == Start then users
    else users[id := UserData(ClicksAfter(h, Lookup(users, id).clicks), Lookup(users, id).score + Award(h))]
  }

  /** The steps a callback handler takes before acknowledging: the bonus of `thanks` and `correct`. */
  function BeforeAckOps(h: Handler): seq<Op>
  {
    if h == Thanks || h == Correct then OwnOps(h) else []
  }

  /** The steps a callback handler takes after acknowledging and before replying: the reset of `reset`. */
  function AfterAckOps(h: Handler): seq<Op>
  {
    if h == Reset then OwnOps(h) else []
  }

  /** Running two step sequences one after the other runs their concatenation. */
  lemma {:induction false} RunAppend(users: map<int, UserData>, id: int, a: seq<Op>, b: seq<Op>)
    ensures Run(users, id, a + b) == Run(Run(users, id, a), id, b)
    decreases |a|
  {
    if a == [] {
      assert a + b == b;
    } else {
      assert (a + b)[0] == a[0] && (a + b)[1..] == a[1..] + b;
      RunAppend(Exec(users, id, a[0]), id, a[1..], b);
    }
  }

  /**
   * A callback handler other than `clicked` takes its own steps in two parts:
   * those before the acknowledgement, then those after it.
   */
  lemma CallbackOwnOps(h: Handler)
    requires IsCallback(h) && h != Clicked
    ensures OwnOps(h) == BeforeAckOps(h) + AfterAckOps(h)
  {
  }

  /** Every handler but `/start` is its own steps followed by `incrementScore`. */
  lemma EffectSplit(users: map<int, UserData>, id: int, h: Handler)
    requires h != Start
    ensures Effect(users, id, h) == Run(Run(users, id, OwnOps(h)), id, IncrementScoreOps)
  {
    RunAppend(users, id, OwnOps(h), IncrementScoreOps);
  }

  /** `incrementScore` on the store: the user's record, inserted if unseen, gains 25 points. */
  lemma IncrementScoreRun(users: map<int, UserData>, id: int)
    ensures Run(users, id, IncrementScoreOps) ==
            users[id := UserData(Lookup(users, id).clicks, Lookup(users, id).score + 25)]
  {
    RunIsFold(users, id, IncrementScoreOps);
    IncrementScoreFold(Lookup(users, id));
  }

  /** A step sequence touches only the user's record, by folding its steps over it. */
  lemma {:induction false} RunIsFold(users: map<int, UserData>, id: int, ops: seq<Op>)
    requires ops != []
    ensures Run(users, id, ops) == users[id := Fold(ops, Lookup(users, id))]
    decreases |ops|
  {
    var d := Lookup(users, id);
    var u1 := Exec(users, id, ops[0]);
    assert u1 == users[id := Apply(ops[0], d)];
    if ops[1..] == [] {
      assert Fold(ops, d) == Fold(ops[1..], Apply(ops[0], d));
    } else {
      RunIsFold(u1, id, ops[1..]);
      assert Lookup(u1, id) == Apply(ops[0], d);
    }
  }

  lemma FoldAppend(a: seq<Op>, b: seq<Op>, d: UserData)
    ensures Fold(a + b, d) == Fold(b, Fold(a, d))
    decreases |a|
  {
    if a == [] {
      assert a + b == b;
    } else {
      assert (a + b)[0] == a[0] && (a + b)[1..] == a[1..] + b;
      FoldAppend(a[1..], b, Apply(a[0], d));
    }
  }

  /** The record after `incrementScore`: 25 more points, clicks unchanged. */
  lemma IncrementScoreFold(d: UserData)
    ensures Fold(IncrementScoreOps, d) == UserData(d.clicks, d.score + 25)
  {
    assert IncrementScoreOps[1..] == [AddScore(25)];
    assert IncrementScoreOps[1..][1..] == [];
  }

  /** A list of at most three steps folds to those steps applied in order. */
  lemma FoldShort(ops: seq<Op>, d: UserData)
    requires |ops| <= 3
    ensures |ops| == 0 ==> Fold(ops, d) == d
    ensures |ops| == 1 ==> Fold(ops, d) == Apply(ops[0], d)
    ensures |ops| == 2 ==> Fold(ops, d) == Apply(ops[1], Apply(ops[0], d))
    ensures |ops| == 3 ==> Fold(ops, d) == Apply(ops[2], Apply(ops[1], Apply(ops[0], d)))
  {
    if |ops| > 0 {
      var d1 := Apply(ops[0], d);
      assert Fold(ops, d) == Fold(ops[1..], d1);
      if |ops| > 1 {
        var d2 := Apply(ops[1], d1);
        assert Fold(ops[1..], d1) == Fold(ops[2..], d2);
        if |ops| > 2 {
          assert Fold(ops[2..], d2) == Fold(ops[3..], Apply(ops[2], d2));
          assert ops[3..] == [];
        } else {
          assert ops[2..] == [];
        }
      } else {
        assert ops[1..] == [];
      }
    }
  }

  /** A handler's own steps give the table's clicks and its award less the 25 of `incrementScore`. */
  lemma OwnFold(h: Handler, d: UserData)
    requires h != Start
    ensures Fold(OwnOps(h), d) == UserData(ClicksAfter(h, d.clicks), d.score + Award(h) - 25)
  {
    FoldShort(OwnOps(h), d);
  }

  /**
   * Each handler's net effect on the store: `/start` changes nothing; every
   * other handler leaves exactly the invoking user's record changed (inserting
   * it if unseen), with `clicks` as `ClicksAfter` says and `score` raised by
   * exactly `Award`.
   */
  lemma {:induction false} EffectTable(users: map<int, UserData>, id: int, h: Handler)
    ensures Effect(users, id, h) == NetEffect(users, id, h)
  {
    if h != Start {
      var d := Lookup(users, id);
      RunIsFold(users, id, Ops(h));
      FoldAppend(OwnOps(h), IncrementScoreOps, d);
      OwnFold(h, d);
      IncrementScoreFold(Fold(OwnOps(h), d));
    }
  }

  /** No handler removes a user or lowers a score, and counters stay non-negative. */
  lemma EffectMonotone(users: map<int, UserData>, id: int, h: Handler)
    ensures users.Keys <= Effect(users, id, h).Keys
    ensures forall k :: k in users ==> Effect(users, id, h)[k].score >= users[k].score
    ensures NonNegative(users) ==> NonNegative(Effect(users, id, h))
  {
    EffectTable(users, id, h);
  }

  /** The table keeps counters non-negative: awards are never negative and clicks only grow or reset. */
  lemma NetEffectNonNegative(users: map<int, UserData>, id: int, h: Handler)
    ensures NonNegative(users) ==> NonNegative(NetEffect(users, id, h))
  {
  }

  /** Handlers for distinct users touch disjoint records, so their order does not matter. */
  lemma EffectsCommute(users: map<int, UserData>, a: int, b: int, ha: Handler, hb: Handler)
    requires a != b
    ensures Effect(Effect(users, a, ha), b, hb) == Effect(Effect(users, b, hb), a, ha)
  {
    EffectTable(users, a, ha);
    EffectTable(users, b, hb);
    EffectTable(Effect(users, a, ha), b, hb);
    EffectTable(Effect(users, b, hb), a, ha);
    NetEffectsCommute(users, a, b, ha, hb);
  }

  lemma NetEffectsCommute(users: map<int, UserData>, a: int, b: int, ha: Handler, hb: Handler)
    requires a != b
    ensures NetEffect(NetEffect(users, a, ha), b, hb) == NetEffect(NetEffect(users, b, hb), a, ha)
  {
    assert Lookup(NetEffect(users, a, ha), b) == Lookup(users, b);
    assert Lookup(NetEffect(users, b, hb), a) == Lookup(users, a);
  }

  /** Three clicks by a new user: three clicks counted, 150 points. */
  lemma ThreeClicks(users: map<int, UserData>, id: int)
    requires id !in users
    ensures var after := Effect(Effect(Effect(users, id, Clicked), id, Clicked), id, Clicked);
      id in after && after[id] == UserData(3, 150)
  {
    var u1 := Effect(users, id, Clicked);
    var u2 := Effect(u1, id, Clicked);
    EffectTable(users, id, Clicked);
    EffectTable(u1, id, Clicked);
    EffectTable(u2, id, Clicked);
  }

  /**
   * The greeting guard of the `clicked` handler as written: it compares the
   * counter with zero after it has been incremented.
   */
  predicate GreetsAsWritten(users: map<int, UserData>, id: int)
  {
    Lookup(users, id).clicks + 1 == 0
  }

  /** As written, the greeting is never sent while counters are non-negative. */
  lemma GreetingUnreachableAsWritten(users: map<int, UserData>, id: int)
    requires NonNegative(users)
    ensures !GreetsAsWritten(users, id)
  {
    if id in users {
      assert users[id].clicks >= 0;
    }
  }

  /** The input that shows it: a user's very first click is not greeted. */
  lemma FirstClickNotGreetedAsWritten(id: int)
    ensures FirstClick(map[], id) && !GreetsAsWritten(map[], id)
  {
  }

  /** The intended guard: this click is the user's first since creation or the last reset. */
  predicate FirstClick(users: map<int, UserData>, id: int)
  {
    Lookup(users, id).clicks == 0
  }

  /**
   * With the intended guard the greeting comes on a new user's first click,
   * not on the click after it, and again on the first click after a reset.
   */
  lemma FirstClickGreeting(users: map<int, UserData>, id: int)
    requires NonNegative(users)
    ensures id !in users ==> FirstClick(users, id)
    ensures !FirstClick(Effect(users, id, Clicked), id)
    ensures FirstClick(Effect(users, id, Reset), id)
  {
    EffectTable(users, id, Clicked);
    EffectTable(users, id, Reset);
    if id in users {
      assert users[id].clicks >= 0;
    }
  }
}
