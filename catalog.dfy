/**
 * The fixed content the handlers choose from. The texts are data: the model
 * only selects, shows and compares them.
 */
module Catalog {
  import opened AnswerOptions

  /** The `lifehack` handler's tips. */
  const Lifehacks: seq<string> := [
    "Починай день не з телефону, а з плану — і день буде твоїм.",
    "Записуй ідеї — найкращі думки приходять раптово і швидко зникають.",
    "Хочеш більше енергії — лягай раніше, а не пий п’яту каву.",
    "Думки плутаються? Пиши їх на папері — розум очиститься.",
    "Таймер на 25 хвилин — і жодних відволікань. Продуктивність злетить."
  ]

  /** The `fact` handler's facts. */
  const Facts: seq<string> := ["fact1", "fact2"]

  /** The `quote` handler's quotes. */
  const Quotes: seq<string> := [
    "Твоє майбутнє починається сьогодні, а не завтра.",
    "Сила не в тому, щоб ніколи не падати, а в тому, щоб підніматися щоразу, коли впав.",
    "Не чекай ідеального моменту — створи його.",
    "Кожен великий шлях починається з маленького кроку.",
    "Мрії — це плани, які ще не мають дати.",
    "Успіх — це не випадковість, а результат наполегливої праці, віри в себе і рішучості."
  ]

  /** The `image` handler's animations. */
  const Images: seq<string> := [
    "https://tenor.com/view/ben-shapiro-walking-gif-21499133.gif",
    "https://i.redd.it/1xyl6wkixo0e1.gif",
    "https://tenor.com/view/alan-wake-alan-wake-2-vibe-gif-3068849078309707514.gif",
    "https://tenor.com/view/senator-armstrong-senator-metal-gear-rising-gif-25474022.gif"
  ]

  /** The `clicked` handler's messages, one picked per click. */
  const ClickMessages: seq<string> := ["message1", "message2"]

  /** The `quiz` handler's questions. */
  const Quizzes: seq<QuizEntry> := [
    QuizEntry("What's 2 + 2?", ["2²"], ["√2", "2", "-2"])
  ]

  /** The `riddle` handler's riddles. */
  const Riddles: seq<QuizEntry> := [
    QuizEntry("What's 2 + 2?", ["2²"], ["√2", "2", "-2"])
  ]

  /** The lists the handlers draw from. */
  datatype Content = Content(
    lifehacks: seq<string>, facts: seq<string>, quotes: seq<string>, images: seq<string>,
    clickMessages: seq<string>, quizzes: seq<QuizEntry>, riddles: seq<QuizEntry>)

  /** Content every list of which has something to draw. */
  type Stock = c: Content |
    |c.lifehacks| > 0 && |c.facts| > 0 && |c.quotes| > 0 && |c.images| > 0 &&
    |c.clickMessages| > 0 && |c.quizzes| > 0 && |c.riddles| > 0
    witness Content(["-"], ["-"], ["-"], ["-"], ["-"], [QuizEntry("-", ["-"], [])], [QuizEntry("-", ["-"], [])])

  /** The bot's own content: the lists above. */
  const BotContent: Stock := Content(Lifehacks, Facts, Quotes, Images, ClickMessages, Quizzes, Riddles)
}
