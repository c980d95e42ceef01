/** The bot's user-activity middleware (`tg_bot/middleware.py`): before
    every update is handled, the sender is registered in the `BotUser`
    table or has their names and last activity refreshed. */
module BotMiddleware {
  import opened Wrappers
  import opened Strings
  import opened Users

  /** The sender of a message or callback query. */
  datatype TgUser = TgUser(id: int, username: Option<string>, firstName: Option<string>)

  /** A message or callback query with its optional sender. */
  datatype Incoming = Incoming(fromUser: Option<TgUser>)

  /** An update: a message, a callback query, or neither. */
  datatype Update = Update(message: Option<Incoming>, callbackQuery: Option<Incoming>)

  /** The user is the message's sender when there is a message, otherwise
      the callback query's sender, otherwise nobody. */
  function ExtractUser(e: Update): (r: Option<TgUser>)
    ensures e.message.Some? ==> r == e.message.value.fromUser
    ensures e.message.None? && e.callbackQuery.Some? ==> r == e.callbackQuery.value.fromUser
    ensures e.message.None? && e.callbackQuery.None? ==> r.None?
  {
    if e.message.Some? then e.message.value.fromUser
    else if e.callbackQuery.Some? then e.callbackQuery.value.fromUser
    else None
  }

  /** The row after `create_or_update_user` at time `now`: a new row with
      the sender's names (`None` stored as `''`), active and seen now; or
      the existing row with its names overwritten and seen now. */
  function Upserted(rows: map<int, BotUser>, tg: TgUser, now: int): (u: BotUser)
    ensures u.telegramId == (if tg.id in rows then rows[tg.id].telegramId else tg.id)
    ensures u.username == Some(OrEmpty(tg.username)) && u.firstName == Some(OrEmpty(tg.firstName))
    ensures u.lastActive == now
    ensures tg.id in rows ==> u.isActive == rows[tg.id].isActive && u.createdAt == rows[tg.id].createdAt
    ensures tg.id !in rows ==> u.isActive && u.createdAt == now
  {
    if tg.id in rows then
      rows[tg.id].(lastActive := now, firstName := Some(OrEmpty(tg.firstName)), username := Some(OrEmpty(tg.username)))
    else BotUser(tg.id, Some(OrEmpty(tg.username)), Some(OrEmpty(tg.firstName)), now, true, now)
  }

  /** Seeing the same sender twice at the same time changes nothing more. */
  lemma UpsertIdempotent(rows: map<int, BotUser>, tg: TgUser, now: int)
    ensures Upserted(rows[tg.id := Upserted(rows, tg, now)], tg, now) == Upserted(rows, tg, now)
  {
  }

  /** An inactive user who writes again stays inactive: the upsert never
      touches the flag of a known row, so only a new row is switched on. */
  lemma UpsertKeepsFlag(rows: map<int, BotUser>, tg: TgUser, now: int)
    ensures Upserted(rows, tg, now).isActive <==> tg.id !in rows || rows[tg.id].isActive
  {
  }

  /** The `BotUser` table, keyed by `telegram_id`. */
  class BotUserTable {
    var rows: map<int, BotUser>

    predicate Valid()
      reads this
    {
      forall id :: id in rows ==> rows[id].telegramId == id
    }

    constructor()
      ensures rows == map[] && Valid()
    {
      rows := map[];
    }

    /** `create_or_update_user`; `dbError` stands for an exception from
        the database, which is caught and turned into `None` with nothing
        stored. */
    method CreateOrUpdateUser(tg: TgUser, now: int, dbError: bool) returns (r: Option<BotUser>)
      requires Valid()
      modifies this
      ensures Valid()
      ensures dbError ==> r.None? && rows == old(rows)
      ensures !dbError ==> r == Some(Upserted(old(rows), tg, now)) && rows == old(rows)[tg.id := r.value]
    {
      if dbError {
        return None;
      }
      var user: BotUser;
      var created: bool;
      if tg.id in rows {
        user, created := rows[tg.id], false;
      } else {
        user := BotUser(tg.id, Some(OrEmpty(tg.username)), Some(OrEmpty(tg.firstName)), now, true, now);
        created := true;
        rows := rows[tg.id := user];
      }
      if !created {
        user := user.(lastActive := now);
        if user.firstName != Some(OrEmpty(tg.firstName)) {
          user := user.(firstName := Some(OrEmpty(tg.firstName)));
        }
        if user.username != Some(OrEmpty(tg.username)) {
          user := user.(username := Some(OrEmpty(tg.username)));
        }
        rows := rows[tg.id := user];
      }
      r := Some(user);
    }

    /** `__call__`: register the sender, if any, then always run the
        handler and hand back its result. */
    method Call<R>(event: Update, now: int, dbError: bool, handlerResult: R) returns (r: R)
      requires Valid()
      modifies this
      ensures Valid()
      ensures r == handlerResult
      ensures ExtractUser(event).None? || dbError ==> rows == old(rows)
      ensures ExtractUser(event).Some? && !dbError ==>
        rows == old(rows)[ExtractUser(event).value.id := Upserted(old(rows), ExtractUser(event).value, now)]
    {
      var user: Option<TgUser> := None;
      if event.message.Some? {
        user := event.message.value.fromUser;
      } else if event.callbackQuery.Some? {
        user := event.callbackQuery.value.fromUser;
      }
      if user.Some? {
        var _ := CreateOrUpdateUser(user.value, now, dbError);
      }
      r := handlerResult;
    }
  }
}
