/** The reminder job (`tg_bot/utils.py`): each pass selects the active users
    idle for at least ten days and, on every tenth calendar day of their
    silence, sends them the reminder text with the start menu. Times are
    whole seconds in UTC; a calendar date is a whole number of days. */
module Reminders {
  import opened Wrappers
  import opened Users
  import opened KeyboardBuilder
  import opened Keyboards

  const InactiveDaysForMessage: int := 10

  /** The pause between passes, in seconds. */
  const NotificationPeriod: int := 86400

  const DefaultReminderMessage: string := "Мы по вам скучаем! Загляните к нам, у нас много нового 😊"

  /** The query's filter: active, and last seen at least ten days ago. */
  predicate IsCandidate(u: BotUser, now: int) {
    u.isActive && u.lastActive <= now - InactiveDaysForMessage * Day
  }

  /** The query selects exactly the active users that `is_inactive` with
      the reminder's number of days reports. */
  lemma CandidateIsInactive(u: BotUser, now: int)
    ensures IsCandidate(u, now) <==> u.isActive && IsInactive(u, now, InactiveDaysForMessage)
  {
    InactiveThreshold(u, now, InactiveDaysForMessage);
  }

  /** The candidates in table order. */
  function Candidates(users: seq<BotUser>, now: int): (r: seq<BotUser>)
    ensures forall u :: u in r <==> u in users && IsCandidate(u, now)
    ensures |r| <= |users|
    decreases |users|
  {
    if users == [] then []
    else
      var init := users[..|users| - 1];
      var last := users[|users| - 1];
      assert users == init + [last];
      Candidates(init, now) + (if IsCandidate(last, now) then [last] else [])
  }

  /** A timestamp's UTC calendar date, counted in days. */
  function CalendarDay(t: int): int {
    t / Day
  }

  /** Calendar days between the last activity and today. */
  function DaysInactive(u: BotUser, now: int): int {
    CalendarDay(now) - CalendarDay(u.lastActive)
  }

  /** A candidate is reminded when the days of silence are a multiple of ten. */
  predicate IsDue(u: BotUser, now: int) {
    DaysInactive(u, now) % InactiveDaysForMessage == 0
  }

  /** A candidate has been silent for at least ten calendar days. */
  lemma CandidateDays(u: BotUser, now: int)
    requires IsCandidate(u, now)
    ensures DaysInactive(u, now) >= InactiveDaysForMessage
  {
    var a := u.lastActive;
    assert a == Day * (a / Day) + a % Day;
    assert now == Day * (now / Day) + now % Day;
    assert Day * (now / Day) > Day * (a / Day + InactiveDaysForMessage - 1);
  }

  /** With one pass a day, a silent user hears from the bot every ten
      days: a reminder day is followed by nine quiet ones and then by
      another reminder. */
  lemma DueEveryTenDays(u: BotUser, now: int, k: int)
    requires IsDue(u, now) && 0 <= k
    ensures IsDue(u, now + k * Day) <==> k % InactiveDaysForMessage == 0
  {
    assert CalendarDay(now + k * Day) == CalendarDay(now) + k;
    assert DaysInactive(u, now + k * Day) == DaysInactive(u, now) + k;
  }

  /** `reminder_message`'s text when stored, otherwise the default. */
  function MessageText(stored: Option<string>): (r: string)
    ensures stored.Some? ==> r == stored.value
    ensures stored.None? ==> r == DefaultReminderMessage
  {
    stored.GetOr(DefaultReminderMessage)
  }

  datatype Reminder = Reminder(chatId: int, text: string, markup: Markup)

  /** The reminders a pass means to send, in candidate order. */
  function Plan(candidates: seq<BotUser>, now: int, text: string, menu: Markup): seq<Reminder>
    decreases |candidates|
  {
    if candidates == [] then []
    else
      var last := candidates[|candidates| - 1];
      Plan(candidates[..|candidates| - 1], now, text, menu)
        + (if IsDue(last, now) then [Reminder(last.telegramId, text, menu)] else [])
  }

  lemma {:induction false} PlanAppend(a: seq<BotUser>, b: seq<BotUser>, now: int, text: string, menu: Markup)
    ensures Plan(a + b, now, text, menu) == Plan(a, now, text, menu) + Plan(b, now, text, menu)
    decreases |b|
  {
    if b != [] {
      assert (a + b)[..|a + b| - 1] == a + b[..|b| - 1];
      PlanAppend(a, b[..|b| - 1], now, text, menu);
    } else {
      assert a + b == a;
    }
  }

  /** Every planned reminder goes to a due candidate, with the same text
      and the start menu; every due candidate has one. */
  lemma {:induction false} PlanFacts(candidates: seq<BotUser>, now: int, text: string, menu: Markup)
    ensures forall r :: r in Plan(candidates, now, text, menu) ==>
      r.text == text && r.markup == menu
      && exists u :: u in candidates && IsDue(u, now) && r.chatId == u.telegramId
    ensures forall u :: u in candidates && IsDue(u, now) ==> Reminder(u.telegramId, text, menu) in Plan(candidates, now, text, menu)
    decreases |candidates|
  {
    if candidates != [] {
      var init := candidates[..|candidates| - 1];
      PlanFacts(init, now, text, menu);
      assert candidates == init + [candidates[|candidates| - 1]];
    }
  }

  /** The position of the first reminder whose send raises, or the plan's
      length when none does. */
  function FirstFailure(plan: seq<Reminder>, failing: set<int>): (n: nat)
    ensures n <= |plan|
    ensures forall k :: 0 <= k < n ==> plan[k].chatId !in failing
    ensures n < |plan| ==> plan[n].chatId in failing
    decreases |plan|
  {
    if plan == [] then 0
    else if plan[0].chatId in failing then 0
    else 1 + FirstFailure(plan[1..], failing)
  }

  lemma FirstFailureIs(plan: seq<Reminder>, failing: set<int>, n: nat)
    requires n <= |plan|
    requires forall k :: 0 <= k < n ==> plan[k].chatId !in failing
    requires n < |plan| ==> plan[n].chatId in failing
    ensures FirstFailure(plan, failing) == n
  {
  }

  /** The plan of one more candidate adds that candidate's reminder when due. */
  lemma {:induction false} PlanStep(candidates: seq<BotUser>, i: nat, now: int, text: string, menu: Markup)
    requires i < |candidates|
    ensures Plan(candidates[..i + 1], now, text, menu) == Plan(candidates[..i], now, text, menu)
      + (if IsDue(candidates[i], now) then [Reminder(candidates[i].telegramId, text, menu)] else [])
  {
    assert candidates[..i + 1][..i] == candidates[..i];
  }

  /** A failing send at a due candidate cuts the plan right after the
      reminders of the candidates before it. */
  lemma {:induction false} StopAt(candidates: seq<BotUser>, i: nat, now: int, text: string, menu: Markup, failing: set<int>)
    requires i < |candidates| && IsDue(candidates[i], now) && candidates[i].telegramId in failing
    requires forall r :: r in Plan(candidates[..i], now, text, menu) ==> r.chatId !in failing
    ensures var plan := Plan(candidates, now, text, menu);
      var done := Plan(candidates[..i], now, text, menu);
      FirstFailure(plan, failing) == |done| < |plan| && plan[..|done|] == done
  {
    var done := Plan(candidates[..i], now, text, menu);
    var reminder := Reminder(candidates[i].telegramId, text, menu);
    assert candidates[..i + 1][..i] == candidates[..i];
    PlanAppend(candidates[..i + 1], candidates[i + 1..], now, text, menu);
    assert candidates[..i + 1] + candidates[i + 1..] == candidates;
    var plan := Plan(candidates, now, text, menu);
    assert plan == done + [reminder] + Plan(candidates[i + 1..], now, text, menu);
    assert plan[|done|] == reminder;
    assert forall k :: 0 <= k < |done| ==> plan[k] == done[k] && done[k] in done;
    FirstFailureIs(plan, failing, |done|);
  }

  /** A pass without failing sends delivers the whole plan. */
  lemma {:induction false} NoStop(plan: seq<Reminder>, failing: set<int>)
    requires forall r :: r in plan ==> r.chatId !in failing
    ensures FirstFailure(plan, failing) == |plan|
  {
    assert forall k :: 0 <= k < |plan| ==> plan[k] in plan;
    FirstFailureIs(plan, failing, |plan|);
  }

  /** One pass of `send_reminders`: `stored` is the `reminder_message`
      text if that row exists, `types` the start menu's rows, and
      `failing` the chats whose send raises. The exception ends the pass
      (it is caught around the whole pass), so the reminders sent are the
      plan up to the first failing chat. */
  method ReminderPass(users: seq<BotUser>, now: int, stored: Option<string>, types: seq<Entry>, failing: set<int>)
    returns (sent: seq<Reminder>, failed: bool)
    ensures var plan := Plan(Candidates(users, now), now, MessageText(stored), Level1Layout(types));
      sent == plan[..FirstFailure(plan, failing)] && (failed <==> FirstFailure(plan, failing) < |plan|)
  {
    var candidates := Candidates(users, now);
    var text := if stored.Some? then stored.value else DefaultReminderMessage;
    ghost var layout := Level1Layout(types);
    sent := [];
    var i := 0;
    while i < |candidates|
      invariant 0 <= i <= |candidates|
      invariant sent == Plan(candidates[..i], now, text, layout)
      invariant forall r :: r in sent ==> r.chatId !in failing
    {
      var user := candidates[i];
      PlanStep(candidates, i, now, text, layout);
      if DaysInactive(user, now) % InactiveDaysForMessage == 0 {
        var menu := GetLevel1Menu(types);
        if user.telegramId in failing {
          StopAt(candidates, i, now, text, layout, failing);
          return sent, true;
        }
        sent := sent + [Reminder(user.telegramId, text, menu)];
      }
      i := i + 1;
    }
    assert candidates[..i] == candidates;
    NoStop(sent, failing);
    assert sent[..|sent|] == sent;
    failed := false;
  }
}
