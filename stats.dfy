/** The statistics bot's metrics and report (`tg_stat_bot/utils.py`): new
    users of the week, distinct daily, weekly and monthly viewers, the most
    viewed content of the week, and the report text sent to every
    subscriber. Times are whole seconds; `now` is one instant shared by
    all the windows. */
module Stats {
  import opened Wrappers
  import opened Strings
  import opened Users

  const Week: int := 7 * Day
  const Month: int := 30 * Day

  // ---------------------------------------------------------------- new users

  predicate IsNew(u: BotUser, now: int) {
    u.createdAt >= now - Week
  }

  /** `get_new_users_last_week`: users registered in the last seven days. */
  function NewUsersLastWeek(users: seq<BotUser>, now: int): (n: nat)
    ensures n <= |users|
    decreases |users|
  {
    if users == [] then 0
    else NewUsersLastWeek(users[..|users| - 1], now) + (if IsNew(users[|users| - 1], now) then 1 else 0)
  }

  /** The count is the number of rows that pass the filter. */
  lemma {:induction false} NewUsersCounted(users: seq<BotUser>, now: int)
    ensures NewUsersLastWeek(users, now) == |set i | 0 <= i < |users| && IsNew(users[i], now)|
    decreases |users|
  {
    if users != [] {
      var n := |users| - 1;
      var init := users[..n];
      NewUsersCounted(init, now);
      var before := set i | 0 <= i < n && IsNew(init[i], now);
      var after := set i | 0 <= i < |users| && IsNew(users[i], now);
      assert forall i :: 0 <= i < n ==> init[i] == users[i];
      if IsNew(users[n], now) {
        assert after == before + {n};
      } else {
        assert after == before;
      }
    }
  }

  // ------------------------------------------------------------ active users

  /** A row of `ContentViewStat`: the viewer (nullable), the content and
      the time of the view. */
  datatype View = View(user: Option<int>, contentId: int, contentName: string, viewedAt: int)

  /** The distinct non-null viewers since `since` (`Count('user',
      distinct=True)` skips nulls). */
  function ActiveUsers(views: seq<View>, since: int): set<int> {
    set v | v in views && v.user.Some? && v.viewedAt >= since :: v.user.value
  }

  /** A subset is no larger: `b` splits into `a` and the disjoint rest. */
  lemma SubsetCard(a: set<int>, b: set<int>)
    requires a <= b
    ensures |a| <= |b|
  {
    assert b == a + (b - a);
    assert a * (b - a) == {};
  }

  /** A longer window sees every viewer of a shorter one. */
  lemma ActiveUsersWiden(views: seq<View>, since: int, earlier: int)
    requires earlier <= since
    ensures ActiveUsers(views, since) <= ActiveUsers(views, earlier)
    ensures |ActiveUsers(views, since)| <= |ActiveUsers(views, earlier)|
  {
    SubsetCard(ActiveUsers(views, since), ActiveUsers(views, earlier));
  }

  // ------------------------------------------------------------ top content

  /** One row of the top list: a content file and its number of views. */
  datatype TopItem = TopItem(contentId: int, name: string, viewCount: nat)

  type ContentKey = (int, string)

  function KeyOfView(v: View): ContentKey {
    (v.contentId, v.contentName)
  }

  /** The views since `since`. */
  function Recent(views: seq<View>, since: int): (r: seq<View>)
    ensures forall v :: v in r <==> v in views && v.viewedAt >= since
    decreases |views|
  {
    if views == [] then []
    else
      var init := views[..|views| - 1];
      assert views == init + [views[|views| - 1]];
      Recent(init, since) + (if views[|views| - 1].viewedAt >= since then [views[|views| - 1]] else [])
  }

  /** The distinct contents viewed, in order of first view. */
  function Keys(views: seq<View>): (r: seq<ContentKey>)
    ensures forall k :: k in r <==> exists v :: v in views && KeyOfView(v) == k
    ensures forall i, j :: 0 <= i < j < |r| ==> r[i] != r[j]
    decreases |views|
  {
    if views == [] then []
    else
      var init := views[..|views| - 1];
      var last := views[|views| - 1];
      assert views == init + [last];
      var before := Keys(init);
      if KeyOfView(last) in before then before else before + [KeyOfView(last)]
  }

  /** `Count('id')` within one content's group. */
  function ViewCount(views: seq<View>, key: ContentKey): (n: nat)
    ensures n <= |views|
    ensures n == 0 <==> forall v :: v in views ==> KeyOfView(v) != key
    decreases |views|
  {
    if views == [] then 0
    else
      var init := views[..|views| - 1];
      assert views == init + [views[|views| - 1]];
      ViewCount(init, key) + (if KeyOfView(views[|views| - 1]) == key then 1 else 0)
  }

  /** `.values(...).annotate(view_count=Count('id'))`: one row per content. */
  function Groups(views: seq<View>): (r: seq<TopItem>)
    ensures |r| == |Keys(views)|
    ensures forall i :: 0 <= i < |r| ==> r[i] == TopItem(Keys(views)[i].0, Keys(views)[i].1, ViewCount(views, Keys(views)[i]))
  {
    var keys := Keys(views);
    seq(|keys|, i requires 0 <= i < |keys| => TopItem(keys[i].0, keys[i].1, ViewCount(views, keys[i])))
  }

  predicate SortedDesc(items: seq<TopItem>) {
    forall i, j :: 0 <= i < j < |items| ==> items[i].viewCount >= items[j].viewCount
  }

  /** `x` placed after every row with at least as many views. */
  function InsertDesc(x: TopItem, sorted: seq<TopItem>): seq<TopItem>
    decreases |sorted|
  {
    if sorted == [] then [x]
    else if sorted[0].viewCount < x.viewCount then [x] + sorted
    else [sorted[0]] + InsertDesc(x, sorted[1..])
  }

  /** Insertion adds exactly `x`. */
  lemma {:induction false} InsertDescCount(x: TopItem, sorted: seq<TopItem>)
    ensures multiset(InsertDesc(x, sorted)) == multiset(sorted) + multiset{x}
    decreases |sorted|
  {
    if sorted != [] && sorted[0].viewCount >= x.viewCount {
      InsertDescCount(x, sorted[1..]);
      assert sorted == [sorted[0]] + sorted[1..];
    }
  }

  /** Insertion adds no row with more views than the bound of `x` and the
      rows. */
  lemma {:induction false} InsertDescBounded(x: TopItem, sorted: seq<TopItem>, bound: int)
    requires x.viewCount <= bound
    requires forall k :: 0 <= k < |sorted| ==> sorted[k].viewCount <= bound
    ensures forall k :: 0 <= k < |InsertDesc(x, sorted)| ==> InsertDesc(x, sorted)[k].viewCount <= bound
    decreases |sorted|
  {
    if sorted != [] && sorted[0].viewCount >= x.viewCount {
      InsertDescBounded(x, sorted[1..], bound);
    }
  }

  /** Insertion keeps the order. */
  lemma {:induction false} InsertDescSorted(x: TopItem, sorted: seq<TopItem>)
    requires SortedDesc(sorted)
    ensures SortedDesc(InsertDesc(x, sorted))
    decreases |sorted|
  {
    if sorted != [] && sorted[0].viewCount >= x.viewCount {
      var tail := sorted[1..];
      var rest := InsertDesc(x, tail);
      InsertDescSorted(x, tail);
      assert forall k :: 0 <= k < |tail| ==> tail[k] == sorted[k + 1];
      InsertDescBounded(x, tail, sorted[0].viewCount);
      var r := [sorted[0]] + rest;
      assert InsertDesc(x, sorted) == r;
      forall i, j | 0 <= i < j < |r|
        ensures r[i].viewCount >= r[j].viewCount
      {
        assert r[j] == rest[j - 1];
        if i > 0 {
          assert r[i] == rest[i - 1];
        }
      }
    }
  }

  /** `order_by('-view_count')`; rows with equal counts keep their order. */
  function SortDesc(items: seq<TopItem>): seq<TopItem>
    decreases |items|
  {
    if items == [] then []
    else InsertDesc(items[|items| - 1], SortDesc(items[..|items| - 1]))
  }

  /** Sorting keeps every row and puts the most viewed first. */
  lemma {:induction false} SortDescFacts(items: seq<TopItem>)
    ensures multiset(SortDesc(items)) == multiset(items)
    ensures SortedDesc(SortDesc(items))
    decreases |items|
  {
    if items != [] {
      var init := items[..|items| - 1];
      SortDescFacts(init);
      InsertDescCount(items[|items| - 1], SortDesc(init));
      InsertDescSorted(items[|items| - 1], SortDesc(init));
      assert items == init + [items[|items| - 1]];
    }
  }

  /** `[:limit]`. */
  function Take<T>(s: seq<T>, limit: nat): (r: seq<T>)
    ensures |r| <= limit && |r| <= |s| && r == s[..|r|]
    ensures |r| == limit || r == s
  {
    if |s| <= limit then s else s[..limit]
  }

  /** `get_top_content_last_week(limit)`. */
  function TopContent(views: seq<View>, now: int, limit: nat): seq<TopItem> {
    Take(SortDesc(Groups(Recent(views, now - Week))), limit)
  }

  /** Each group counts its content's views, at least one; each viewed
      content has its group. */
  lemma GroupsFacts(recent: seq<View>)
    ensures forall g :: g in Groups(recent) ==> g.viewCount == ViewCount(recent, (g.contentId, g.name)) && g.viewCount >= 1
    ensures forall v :: v in recent ==> TopItem(v.contentId, v.contentName, ViewCount(recent, KeyOfView(v))) in Groups(recent)
  {
    var groups := Groups(recent);
    var keys := Keys(recent);
    forall g | g in groups
      ensures g.viewCount == ViewCount(recent, (g.contentId, g.name)) && g.viewCount >= 1
    {
      var i :| 0 <= i < |groups| && groups[i] == g;
      assert keys[i] in keys;
    }
    forall v | v in recent
      ensures TopItem(v.contentId, v.contentName, ViewCount(recent, KeyOfView(v))) in groups
    {
      assert KeyOfView(v) in keys;
      var i :| 0 <= i < |keys| && keys[i] == KeyOfView(v);
      assert groups[i] == TopItem(v.contentId, v.contentName, ViewCount(recent, KeyOfView(v)));
    }
  }

  /** A row of a sorted list left out by `[:limit]` has no more views than
      the last row kept. */
  lemma TakeSorted(sorted: seq<TopItem>, limit: nat, g: TopItem)
    requires SortedDesc(sorted) && g in sorted && g !in Take(sorted, limit)
    ensures |Take(sorted, limit)| == limit
    ensures limit > 0 ==> g.viewCount <= Take(sorted, limit)[limit - 1].viewCount
  {
    var j :| 0 <= j < |sorted| && sorted[j] == g;
    assert j >= limit;
  }

  /** The top list holds at most `limit` rows, most viewed first; each row
      counts exactly that content's views of the week; and a content
      viewed this week is missing only when the list is full and it was
      viewed no more often than the last row. */
  lemma TopContentFacts(views: seq<View>, now: int, limit: nat)
    ensures var top := TopContent(views, now, limit);
      var recent := Recent(views, now - Week);
      |top| <= limit
      && SortedDesc(top)
      && (forall t :: t in top ==> t.viewCount == ViewCount(recent, (t.contentId, t.name)) && t.viewCount >= 1)
      && (forall v :: v in recent && TopItem(v.contentId, v.contentName, ViewCount(recent, KeyOfView(v))) !in top ==>
            |top| == limit && (limit > 0 ==> ViewCount(recent, KeyOfView(v)) <= top[limit - 1].viewCount))
  {
    var recent := Recent(views, now - Week);
    var groups := Groups(recent);
    var sorted := SortDesc(groups);
    var top := Take(sorted, limit);
    SortDescFacts(groups);
    GroupsFacts(recent);
    forall t | t in top
      ensures t in groups
    {
      assert t in multiset(sorted);
    }
    forall v | v in recent && TopItem(v.contentId, v.contentName, ViewCount(recent, KeyOfView(v))) !in top
      ensures |top| == limit && (limit > 0 ==> ViewCount(recent, KeyOfView(v)) <= top[limit - 1].viewCount)
    {
      var g := TopItem(v.contentId, v.contentName, ViewCount(recent, KeyOfView(v)));
      assert g in multiset(groups);
      assert g in sorted;
      TakeSorted(sorted, limit, g);
    }
  }

  // ------------------------------------------------------------------ metrics

  /** The five metrics `get_all_metrics` returns. */
  datatype Metrics = Metrics(dau: nat, wau: nat, mau: nat, newUsersLastWeek: nat, topContentLastWeek: seq<TopItem>)

  function AllMetrics(views: seq<View>, users: seq<BotUser>, now: int, limit: nat): Metrics {
    Metrics(
      |ActiveUsers(views, now - Day)|,
      |ActiveUsers(views, now - Week)|,
      |ActiveUsers(views, now - Month)|,
      NewUsersLastWeek(users, now),
      TopContent(views, now, limit))
  }

  /** The windows share one `now`, so the daily count never exceeds the
      weekly one, nor the weekly the monthly. */
  lemma MetricsOrdered(views: seq<View>, users: seq<BotUser>, now: int, limit: nat)
    ensures var m := AllMetrics(views, users, now, limit);
      m.dau <= m.wau <= m.mau
  {
    ActiveUsersWiden(views, now - Day, now - Week);
    ActiveUsersWiden(views, now - Week, now - Month);
  }

  // ------------------------------------------------------------------ report

  function Header(m: Metrics): string {
    "📊 Статистика активных пользователей:\n"
    + "👥 DAU (за сутки): " + NatToString(m.dau) + "\n"
    + "📈 WAU (за неделю): " + NatToString(m.wau) + "\n"
    + "🚀 MAU (за месяц): " + NatToString(m.mau) + "\n"
    + "🆕 Новые пользователи (неделя): " + NatToString(m.newUsersLastWeek) + "\n\n"
  }

  const TopHeader: string := "🔥 **Топ-5 контента за неделю:**\n"
  const NoDataText: string := "📭 За неделю нет данных о просмотрах контента"
  const StartStatsErrorPrefix: string := "Общая ошибка отправки статистики: "

  /** The line of the `i`-th top row, without its line break. */
  function LineText(i: nat, item: TopItem): string {
    NatToString(i) + ". " + item.name + " - " + NatToString(item.viewCount) + " просмотров"
  }

  /** The lines of the top rows, numbered from `start`. */
  function LineTexts(items: seq<TopItem>, start: nat): (r: seq<string>)
    ensures |r| == |items| && forall k :: 0 <= k < |items| ==> r[k] == LineText(start + k, items[k])
  {
    seq(|items|, k requires 0 <= k < |items| => LineText(start + k, items[k]))
  }

  /** Lines, each ended by a break. */
  function Block(lines: seq<string>): string
    decreases |lines|
  {
    if lines == [] then "" else lines[0] + "\n" + Block(lines[1..])
  }

  function ReportText(m: Metrics): string {
    Header(m) + if m.topContentLastWeek == [] then NoDataText else TopHeader + Block(LineTexts(m.topContentLastWeek, 1))
  }

  lemma {:induction false} BlockAppend(lines: seq<string>, line: string)
    ensures Block(lines + [line]) == Block(lines) + line + "\n"
    decreases |lines|
  {
    if lines != [] {
      assert (lines + [line])[1..] == lines[1..] + [line];
      BlockAppend(lines[1..], line);
    } else {
      assert [] + [line] == [line];
    }
  }

  lemma {:induction false} BlockJoin(lines: seq<string>)
    ensures Block(lines) == Join(lines + [""], '\n')
    decreases |lines|
  {
    if lines != [] {
      BlockJoin(lines[1..]);
      assert (lines + [""])[1..] == lines[1..] + [""];
    }
  }

  /** With names free of line breaks, the top block splits into exactly one
      line per row, `i. name - count …`, numbered from 1 in list order. */
  lemma ReportLinesNumbered(items: seq<TopItem>)
    requires forall t :: t in items ==> '\n' !in t.name
    ensures Split(Block(LineTexts(items, 1)), '\n') == LineTexts(items, 1) + [""]
  {
    var lines := LineTexts(items, 1);
    BlockJoin(lines);
    var parts := lines + [""];
    forall k | 0 <= k < |parts|
      ensures '\n' !in parts[k]
    {
      if k < |items| {
        IntToStringHasNo(k + 1, '\n');
        IntToStringHasNo(items[k].viewCount, '\n');
        assert items[k] in items;
        assert parts[k] == NatToString(k + 1) + ". " + items[k].name + " - " + NatToString(items[k].viewCount) + " просмотров";
      }
    }
    SplitJoin(parts, '\n');
  }

  /** One more row adds its numbered line to the block. */
  lemma AppendLineStep(prefix: string, top: seq<TopItem>, i: nat)
    requires i < |top|
    ensures prefix + Block(LineTexts(top[..i + 1], 1))
      == (prefix + Block(LineTexts(top[..i], 1))) + (LineText(i + 1, top[i]) + "\n")
  {
    var lines, line := LineTexts(top[..i], 1), LineText(i + 1, top[i]);
    assert LineTexts(top[..i + 1], 1) == lines + [line];
    BlockAppend(lines, line);
  }

  /** The `enumerate(..., 1)` loop: one numbered line per top row. */
  method AppendLines(prefix: string, top: seq<TopItem>) returns (text: string)
    ensures text == prefix + Block(LineTexts(top, 1))
  {
    text := prefix;
    var i := 0;
    while i < |top|
      invariant 0 <= i <= |top|
      invariant text == prefix + Block(LineTexts(top[..i], 1))
    {
      var line := LineText(i + 1, top[i]);
      AppendLineStep(prefix, top, i);
      text := text + (line + "\n");
      i := i + 1;
    }
    assert top[..i] == top;
  }

  /** The report text as `send_start_stats` and `send_stats` build it. */
  method BuildReport(m: Metrics) returns (text: string)
    ensures text == ReportText(m)
  {
    var header := Header(m);
    if m.topContentLastWeek != [] {
      text := AppendLines(header + TopHeader, m.topContentLastWeek);
    } else {
      text := header + NoDataText;
    }
  }

  /** `send_start_stats`: the report, or the error text when the metrics
      cannot be computed. */
  function StartStats(metrics: Result<Metrics, string>): (r: string)
    ensures metrics.Ok? ==> r == ReportText(metrics.value)
    ensures metrics.Err? ==> r == StartStatsErrorPrefix + metrics.error
  {
    match metrics
    case Ok(m) => ReportText(m)
    case Err(e) => StartStatsErrorPrefix + e
  }

  /** The recipients whose send goes through, in order. */
  function Reached(recipients: seq<int>, failing: set<int>): seq<int>
    decreases |recipients|
  {
    if recipients == [] then []
    else
      var last := recipients[|recipients| - 1];
      Reached(recipients[..|recipients| - 1], failing) + (if last in failing then [] else [last])
  }

  /** The recipients whose send raises, in order. */
  function Missed(recipients: seq<int>, failing: set<int>): seq<int>
    decreases |recipients|
  {
    if recipients == [] then []
    else
      var last := recipients[|recipients| - 1];
      Missed(recipients[..|recipients| - 1], failing) + (if last in failing then [last] else [])
  }

  /** The reached recipients are exactly those whose send does not fail,
      and the missed ones exactly those whose send fails. */
  lemma {:induction false} ReachedMissedMembers(recipients: seq<int>, failing: set<int>)
    ensures forall id :: id in Reached(recipients, failing) <==> id in recipients && id !in failing
    ensures forall id :: id in Missed(recipients, failing) <==> id in recipients && id in failing
    decreases |recipients|
  {
    if recipients != [] {
      var init := recipients[..|recipients| - 1];
      var last := recipients[|recipients| - 1];
      assert recipients == init + [last];
      ReachedMissedMembers(init, failing);
    }
  }

  /** Every recipient is either reached or missed, never both and never
      skipped. */
  lemma {:induction false} ReachedOrMissed(recipients: seq<int>, failing: set<int>)
    ensures |Reached(recipients, failing)| + |Missed(recipients, failing)| == |recipients|
    decreases |recipients|
  {
    if recipients != [] {
      ReachedOrMissed(recipients[..|recipients| - 1], failing);
    }
  }

  /** One more recipient extends exactly one of the two lists. */
  lemma SendStep(users: seq<int>, i: nat, failing: set<int>)
    requires i < |users|
    ensures Reached(users[..i + 1], failing)
      == Reached(users[..i], failing) + (if users[i] in failing then [] else [users[i]])
    ensures Missed(users[..i + 1], failing)
      == Missed(users[..i], failing) + (if users[i] in failing then [users[i]] else [])
  {
    assert users[..i + 1][..i] == users[..i];
  }

  /** Each reached recipient paired with the report text. */
  function Addressed(reached: seq<int>, text: string): (r: seq<(int, string)>)
    ensures |r| == |reached| && forall k :: 0 <= k < |r| ==> r[k] == (reached[k], text)
  {
    seq(|reached|, k requires 0 <= k < |reached| => (reached[k], text))
  }

  /** The delivery loop: `text` goes to every recipient in turn, and a
      failed send is reported and skipped. */
  method Deliver(users: seq<int>, text: string, failing: set<int>)
    returns (delivered: seq<(int, string)>, missed: seq<int>)
    ensures delivered == Addressed(Reached(users, failing), text)
    ensures missed == Missed(users, failing)
  {
    delivered, missed := [], [];
    ghost var reached: seq<int> := [];
    var i := 0;
    while i < |users|
      invariant 0 <= i <= |users|
      invariant reached == Reached(users[..i], failing)
      invariant missed == Missed(users[..i], failing)
      invariant delivered == Addressed(reached, text)
    {
      SendStep(users, i, failing);
      if users[i] in failing {
        missed := missed + [users[i]];
      } else {
        assert Addressed(reached + [users[i]], text) == delivered + [(users[i], text)];
        delivered := delivered + [(users[i], text)];
        reached := reached + [users[i]];
      }
      i := i + 1;
    }
    assert users[..i] == users;
  }

  /** `send_stats`: with the metrics in hand, the report goes to every
      subscriber in turn, and a failed send is reported and skipped; when
      the metrics or the subscriber list cannot be read nothing is sent. */
  method SendStats(recipients: Result<seq<int>, string>, metrics: Result<Metrics, string>, failing: set<int>)
    returns (delivered: seq<(int, string)>, missed: seq<int>)
    ensures recipients.Err? || metrics.Err? ==> delivered == [] && missed == []
    ensures recipients.Ok? && metrics.Ok? ==>
      |delivered| == |Reached(recipients.value, failing)|
      && (forall k :: 0 <= k < |delivered| ==>
            delivered[k] == (Reached(recipients.value, failing)[k], ReportText(metrics.value)))
      && missed == Missed(recipients.value, failing)
  {
    if recipients.Err? || metrics.Err? {
      return [], [];
    }
    var text := BuildReport(metrics.value);
    delivered, missed := Deliver(recipients.value, text, failing);
  }
}
