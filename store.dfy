/**
 * The per-user state store: the process-wide map from a Telegram user id to
 * that user's `{ clicks, score }` record, filled lazily by `getUserData`.
 */
module UserStore {

  /** The record kept per user. */
  datatype UserData = UserData(clicks: int, score: int)

  /** The record an unseen user starts with. */
  const Fresh: UserData := UserData(0, 0)

  /** The record `getUserData(id)` hands back: the stored one, else a fresh one. */
  function Lookup(users: map<int, UserData>, id: int): UserData
  {
    if id in users then users[id] else Fresh
  }

  /**
   * The store after `getUserData(id)`: an unseen id is inserted with a fresh
   * record, a seen one keeps its record, and no other entry changes.
   */
  function Touch(users: map<int, UserData>, id: int): (r: map<int, UserData>)
    ensures r.Keys == users.Keys + {id}
    ensures id !in users ==> r[id] == Fresh
    ensures id in users ==> r[id] == users[id]
    ensures forall k :: k in users ==> r[k] == users[k]
  {
    if id in users then users else users[id := Fresh]
  }

  /** Every record holds non-negative counters. */
  predicate NonNegative(users: map<int, UserData>)
  {
    forall k :: k in users ==> users[k].clicks >= 0 && users[k].score >= 0
  }
}
