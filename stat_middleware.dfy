/** The statistics bot's middleware (`tg_stat_bot/middleware.py`): the same
    registration on the `StatBotUser` table, which keeps no activity time. */
module StatMiddleware {
  import opened Wrappers
  import opened Strings
  import opened BotMiddleware

  /** A row of `StatBotUser`: the fields the middleware reads and writes. */
  datatype StatBotUser = StatBotUser(telegramId: int, username: string, firstName: string, isActive: bool)

  /** The row after the upsert: a new active row, or the existing row with
      only its names overwritten. */
  function StatUpserted(rows: map<int, StatBotUser>, tg: TgUser): (u: StatBotUser)
    ensures u.username == OrEmpty(tg.username) && u.firstName == OrEmpty(tg.firstName)
    ensures tg.id in rows ==> u.telegramId == rows[tg.id].telegramId && u.isActive == rows[tg.id].isActive
    ensures tg.id !in rows ==> u.telegramId == tg.id && u.isActive
  {
    if tg.id in rows then rows[tg.id].(firstName := OrEmpty(tg.firstName), username := OrEmpty(tg.username))
    else StatBotUser(tg.id, OrEmpty(tg.username), OrEmpty(tg.firstName), true)
  }

  /** A known recipient who sends the same names again is left as is. */
  lemma StatUpsertStable(rows: map<int, StatBotUser>, tg: TgUser)
    requires tg.id in rows
    requires rows[tg.id].username == OrEmpty(tg.username) && rows[tg.id].firstName == OrEmpty(tg.firstName)
    ensures StatUpserted(rows, tg) == rows[tg.id]
  {
  }

  /** The `StatBotUser` table, keyed by `telegram_id`. */
  class StatBotUserTable {
    var rows: map<int, StatBotUser>

    predicate Valid()
      reads this
    {
      forall id :: id in rows ==> rows[id].telegramId == id
    }

    constructor()
      ensures rows == map[] && Valid()
    {
      rows := map[];
    }

    /** `create_or_update_user`; a database exception yields `None`. */
    method CreateOrUpdateUser(tg: TgUser, dbError: bool) returns (r: Option<StatBotUser>)
      requires Valid()
      modifies this
      ensures Valid()
      ensures dbError ==> r.None? && rows == old(rows)
      ensures !dbError ==> r == Some(StatUpserted(old(rows), tg)) && rows == old(rows)[tg.id := r.value]
    {
      if dbError {
        return None;
      }
      var user: StatBotUser;
      if tg.id in rows {
        user := rows[tg.id];
        if user.firstName != OrEmpty(tg.firstName) {
          user := user.(firstName := OrEmpty(tg.firstName));
        }
        if user.username != OrEmpty(tg.username) {
          user := user.(username := OrEmpty(tg.username));
        }
      } else {
        user := StatBotUser(tg.id, OrEmpty(tg.username), OrEmpty(tg.firstName), true);
      }
      rows := rows[tg.id := user];
      r := Some(user);
    }

    /** `__call__`: register the sender, if any, then always run the
        handler and hand back its result. */
    method Call<R>(event: Update, dbError: bool, handlerResult: R) returns (r: R)
      requires Valid()
      modifies this
      ensures Valid()
      ensures r == handlerResult
      ensures ExtractUser(event).None? || dbError ==> rows == old(rows)
      ensures ExtractUser(event).Some? && !dbError ==>
        rows == old(rows)[ExtractUser(event).value.id := StatUpserted(old(rows), ExtractUser(event).value)]
    {
      var user := ExtractUser(event);
      if user.Some? {
        var _ := CreateOrUpdateUser(user.value, dbError);
      }
      r := handlerResult;
    }
  }
}
