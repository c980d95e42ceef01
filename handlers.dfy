/** The bot's callback and message handlers (`tg_bot/handlers.py`): which
    screen each navigation token opens, the search overlay with its stored
    origin, the keyboards search replies carry, and the choice of how a media
    file is sent. Telegram I/O is reduced to the text and keyboard a handler
    shows. */
module Handlers {
  import opened Wrappers
  import opened Strings
  import opened Pager
  import opened Callbacks
  import opened KeyboardBuilder
  import opened ContentModels
  import opened Ordering
  import opened Keyboards

  const Level1Text: string := "Добро пожаловать! Пожалуйста, выберите, с каким запросом Вы к нам пришли:"
  const Level2Text: string := "Выберите категорию:"
  const Level3Text: string := "Выберите тему или нажмите \"Показать все\", чтобы показать все материалы в категории:"
  const ContentListText: string := "Материалы:"
  const SearchPromptText: string := "Введите запрос для поиска материала по названию:"
  const NotFoundText: string := "Материалы не найдены. Попробуйте другой запрос."
  const RepeatSearchText: string := "🔍 Повторить поиск"
  const SentText: string := "Материал отправлен!"
  const AllTopics: string := "all"

  /** The tables the menus and the search read. `types` is the level-1
      query's result, in query order. */
  datatype Catalog = Catalog(
    types: seq<Entry>, paths: seq<Section>, categories: seq<Section>,
    topics: seq<Section>, themes: seq<Section>, files: seq<ContentFile>)

  // ------------------------------------------------------------- navigation

  /** Which menu a handler renders, with the arguments it passes. */
  datatype MenuRequest =
    | Level1Menu
    | Level2Menu(level1: Option<string>, page: int)
    | Level3Menu(level1: Option<string>, level2: Option<string>, page: int)
    | ContentMenu(level1: Option<string>, level2: Option<string>, level3: Option<string>, page: int)

  /** The text and menu a handler edits the message into. */
  datatype Screen = Screen(text: string, menu: MenuRequest)

  /** `/start` and `back1`. */
  const StartScreen: Screen := Screen(Level1Text, Level1Menu)

  /** The screen the navigation handler for `t` opens, built from the
      token's own fields only. Tokens of the content, search and choice
      kinds have no navigation handler here. */
  function Route(t: Token): Option<Screen> {
    match t
    case Level1(_, choice) => Some(Screen(Level2Text, Level2Menu(Some(choice), 1)))
    case PaginateLevel2(s, page) => Some(Screen(Level2Text, Level2Menu(s.level1, page)))
    case Level2(s, category) => Some(Screen(Level3Text, Level3Menu(s.level1, Some(category), 1)))
    case PaginateLevel3(s, page) => Some(Screen(Level3Text, Level3Menu(s.level1, s.level2, page)))
    case Level3(s, topic) => Some(Screen(ContentListText, ContentMenu(s.level1, s.level2, Some(topic), 1)))
    case PaginateContent(s, page) => Some(Screen(ContentListText, ContentMenu(s.level1, s.level2, s.level3, page)))
    case BackLevel1(_) => Some(StartScreen)
    case BackLevel2(s) => Some(Screen(Level2Text, Level2Menu(s.level1, 1)))
    case BackLevel3(s) => Some(Screen(Level3Text, Level3Menu(s.level1, s.level2, 1)))
    case BackToContentList(c) =>
      Some(Screen(ContentListText, ContentMenu(Some(c.level1), Some(c.level2), Some(c.level3), 1)))
    case _ => None
  }

  /** Where pressing `b` leads; the inert page label leads nowhere. */
  function Target(b: Button): Option<Screen> {
    if b.action.Press? then Route(b.action.token) else None
  }

  /** The keyboard a menu request renders to. */
  function Layout(menu: MenuRequest, c: Catalog): Markup {
    match menu
    case Level1Menu => Level1Layout(c.types)
    case Level2Menu(l1, page) => Level2Layout(c.categories, l1, page)
    case Level3Menu(l1, l2, page) => Level3Layout(c.themes, l1, l2, page)
    case ContentMenu(l1, l2, l3, page) => ContentLayout(l1, l2, l3, page)
  }

  /** Builds the requested menu. */
  method Render(menu: MenuRequest, c: Catalog) returns (m: Markup)
    ensures m == Layout(menu, c)
  {
    match menu
    case Level1Menu =>
      m := GetLevel1Menu(c.types);
    case Level2Menu(l1, page) =>
      m := GetLevel2Menu(c.categories, l1, page);
    case Level3Menu(l1, l2, page) =>
      m := GetLevel3Menu(c.themes, l1, l2, page);
    case ContentMenu(l1, l2, l3, page) =>
      m := GetContentMenu(l1, l2, l3, page);
  }

  /** Why a handler fails. */
  datatype HandlerError = NotAwaitable

  /** The navigation handlers as written: the three that show the content
      list `await` the result of `get_content_menu`, which is a plain
      function, so awaiting its keyboard fails before the message is
      edited. */
  function OutcomeAsWritten(t: Token, c: Catalog): Option<Result<(string, Markup), HandlerError>> {
    match Route(t)
    case None => None
    case Some(s) =>
      if s.menu.ContentMenu? then Some(Err(NotAwaitable)) else Some(Ok((s.text, Layout(s.menu, c))))
  }

  /** As written, no navigation handler ever shows the content list. */
  lemma ContentListNeverShownAsWritten(t: Token, c: Catalog)
    ensures OutcomeAsWritten(t, c).Some? && OutcomeAsWritten(t, c).value.Ok? ==>
      !Route(t).value.menu.ContentMenu?
    ensures t.Level3? || t.PaginateContent? || t.BackToContentList? ==>
      OutcomeAsWritten(t, c) == Some(Err(NotAwaitable))
  {
  }

  /** The handlers as intended: every navigation token edits the message
      into its screen, the content list included. */
  method Handle(t: Token, c: Catalog) returns (r: Option<(string, Markup)>)
    ensures r.Some? <==> Route(t).Some?
    ensures r.Some? ==> r.value == (Route(t).value.text, Layout(Route(t).value.menu, c))
  {
    var screen := Route(t);
    if screen.None? {
      return None;
    }
    var m := Render(screen.value.menu, c);
    r := Some((screen.value.text, m));
  }

  /** Choosing a topic opens the first page of the content list in the
      topic's scope, and the list's own tokens come back to it. */
  lemma TopicOpensContentList(s: Scope, topic: string, c: Catalog)
    ensures Route(Level3(s, topic)) == Some(Screen(ContentListText, ContentMenu(s.level1, s.level2, Some(topic), 1)))
    ensures var m := Layout(ContentMenu(s.level1, s.level2, Some(topic), 1), c);
      |m| > 0 && |m[|m| - 1]| == 1
      && Target(m[|m| - 1][0]) == Some(Screen(Level3Text, Level3Menu(s.level1, s.level2, 1)))
  {
    ContentMenuFacts(s.level1, s.level2, Some(topic), 1);
  }

  /** The root menu: every button opens the first category page of its
      own slug. */
  lemma RootMenuNavigation(types: seq<Entry>)
    ensures var m := Level1Layout(types);
      |Flatten(m)| == |types|
      && forall i :: 0 <= i < |types| ==>
           Target(Flatten(m)[i]) == Some(Screen(Level2Text, Level2Menu(Some(types[i].slug), 1)))
  {
    Level1MenuFacts(types);
  }

  /** The category menu: every category opens its topic menu (never
      skipping it), and Back returns to the root. */
  lemma CategoryMenuNavigation(categories: seq<Section>, level1: Option<string>, page: int)
    ensures var m := Level2Layout(categories, level1, page);
      var d := CategoriesPage(categories, level1, page, ItemsPerPage);
      var k := |Chunk(CategoryButtons(level1, d.items), NumberOfColumns)|;
      k < |m| && |Flatten(m[..k])| == |d.items|
      && (forall i :: 0 <= i < |d.items| ==>
            Target(Flatten(m[..k])[i]) == Some(Screen(Level3Text, Level3Menu(level1, Some(d.items[i].slug), 1))))
      && |m[|m| - 1]| == 1 && Target(m[|m| - 1][0]) == Some(StartScreen)
  {
    Level2MenuFacts(categories, level1, page);
    var m := Level2Layout(categories, level1, page);
    var d := CategoriesPage(categories, level1, page, ItemsPerPage);
    var buttons := CategoryButtons(level1, d.items);
    var k := |Chunk(buttons, NumberOfColumns)|;
    CategoryTargets(level1, d.items);
    var shown := Flatten(m[..k]);
    assert shown == buttons;
    forall i | 0 <= i < |d.items|
      ensures Target(shown[i]) == Some(Screen(Level3Text, Level3Menu(level1, Some(d.items[i].slug), 1)))
    {
      assert shown[i] == buttons[i];
    }
    BackToStart();
  }

  /** The root Back button returns to the start screen. */
  lemma BackToStart()
    ensures Target(BackButton(BackLevel1(NoScope))) == Some(StartScreen)
  {
  }

  /** Each category button opens the first topic page of its own slug. */
  lemma CategoryTargets(level1: Option<string>, entries: seq<Entry>)
    ensures forall i :: 0 <= i < |entries| ==>
      Target(CategoryButtons(level1, entries)[i]) == Some(Screen(Level3Text, Level3Menu(level1, Some(entries[i].slug), 1)))
  {
  }

  /** With several category pages, the row after the categories is the pagination
      row, whose arrows name the pages around the one shown. */
  lemma Level2PagingRow(entries: seq<Entry>, level1: Option<string>, page: int)
    ensures var m := Level2LayoutOf(level1, entries, page);
      var d := PageDataOf(entries, page, ItemsPerPage);
      var n := GetPage(entries, ItemsPerPage, page).number;
      var k := |Chunk(CategoryButtons(level1, d.items), NumberOfColumns)|;
      d.numPages > 1 ==>
        k + 1 < |m| && m[k] == PaginationRow(d, Label(page, d.numPages), Level2Pager(level1))
        && (d.hasPrevious ==> d.previousPageNumber == Some(n - 1))
        && (d.hasNext ==> d.nextPageNumber == Some(n + 1))
  {
    var d := PageDataOf(entries, page, ItemsPerPage);
    MenuLayoutShape(CategoryButtons(level1, d.items),
      if d.numPages > 1 then
        Some(PaginationRow(d, Label(d.currentPage, d.numPages), Level2Pager(level1)))
      else None,
      BackButton(BackLevel1(NoScope)));
  }

  /** With several topic pages, the row after the topics is the pagination
      row, whose arrows name the pages around the one shown. */
  lemma Level3PagingRow(entries: seq<Entry>, level1: Option<string>, level2: Option<string>, page: int)
    ensures var m := Level3LayoutOf(level1, level2, entries, page);
      var d := PageDataOf(entries, page, ItemsPerPage);
      var n := GetPage(entries, ItemsPerPage, page).number;
      var k := |Chunk(TopicButtons(level1, level2, d.items), NumberOfColumns)|;
      d.numPages > 1 ==>
        k + 1 < |m| && m[k] == PaginationRow(d, Label(page, d.numPages), Level3Pager(level1, level2))
        && (d.hasPrevious ==> d.previousPageNumber == Some(n - 1))
        && (d.hasNext ==> d.nextPageNumber == Some(n + 1))
  {
    var d := PageDataOf(entries, page, ItemsPerPage);
    MenuLayoutShape(TopicButtons(level1, level2, d.items),
      if d.numPages > 1 then
        Some(PaginationRow(d, Label(d.currentPage, d.numPages), Level3Pager(level1, level2)))
      else None,
      BackButton(BackLevel2(Scope(level1, None, None))));
  }


  /** A category pagination row at position `k` of a menu on page `n`: its
      arrows lead to the neighbouring category pages; the label leads nowhere. */
  lemma Level2Arrows(m: Markup, k: nat, d: PageData<Entry>, caption: string, level1: Option<string>, n: int)
    requires d.hasPrevious ==> d.previousPageNumber == Some(n - 1)
    requires d.hasNext ==> d.nextPageNumber == Some(n + 1)
    requires k < |m| && m[k] == PaginationRow(d, caption, Level2Pager(level1))
    ensures |m[k]| > 0
      && (d.hasPrevious <==> Target(m[k][0]).Some?)
      && (d.hasPrevious ==> Target(m[k][0]) == Some(Screen(Level2Text, Level2Menu(level1, n - 1))))
      && (d.hasNext <==> Target(m[k][|m[k]| - 1]).Some?)
      && (d.hasNext ==> Target(m[k][|m[k]| - 1]) == Some(Screen(Level2Text, Level2Menu(level1, n + 1))))
  {
    PaginationRowShape(d, caption, Level2Pager(level1));
  }

  /** A topic pagination row at position `k` of a menu on page `n`: its
      arrows lead to the neighbouring topic pages; the label leads nowhere. */
  lemma Level3Arrows(m: Markup, k: nat, d: PageData<Entry>, caption: string, level1: Option<string>, level2: Option<string>, n: int)
    requires d.hasPrevious ==> d.previousPageNumber == Some(n - 1)
    requires d.hasNext ==> d.nextPageNumber == Some(n + 1)
    requires k < |m| && m[k] == PaginationRow(d, caption, Level3Pager(level1, level2))
    ensures |m[k]| > 0
      && (d.hasPrevious <==> Target(m[k][0]).Some?)
      && (d.hasPrevious ==> Target(m[k][0]) == Some(Screen(Level3Text, Level3Menu(level1, level2, n - 1))))
      && (d.hasNext <==> Target(m[k][|m[k]| - 1]).Some?)
      && (d.hasNext ==> Target(m[k][|m[k]| - 1]) == Some(Screen(Level3Text, Level3Menu(level1, level2, n + 1))))
  {
    PaginationRowShape(d, caption, Level3Pager(level1, level2));
  }

  /** The category menu's arrows open the neighbouring pages of the same
      menu; the page label leads nowhere. Stated for any list of entries the
      menu pages through; `Level2Layout` pages through `CategoryEntries`. */
  lemma CategoryMenuPaging(entries: seq<Entry>, level1: Option<string>, page: int)
    ensures var m := Level2LayoutOf(level1, entries, page);
      var d := PageDataOf(entries, page, ItemsPerPage);
      var n := GetPage(entries, ItemsPerPage, page).number;
      var k := |Chunk(CategoryButtons(level1, d.items), NumberOfColumns)|;
      d.numPages > 1 ==>
        k + 1 < |m| && |m[k]| > 0
        && (d.hasPrevious <==> Target(m[k][0]).Some?)
        && (d.hasPrevious ==> Target(m[k][0]) == Some(Screen(Level2Text, Level2Menu(level1, n - 1))))
        && (d.hasNext <==> Target(m[k][|m[k]| - 1]).Some?)
        && (d.hasNext ==> Target(m[k][|m[k]| - 1]) == Some(Screen(Level2Text, Level2Menu(level1, n + 1))))
  {
    var d := PageDataOf(entries, page, ItemsPerPage);
    Level2PagingRow(entries, level1, page);
    if d.numPages > 1 {
      var m := Level2LayoutOf(level1, entries, page);
      var k := |Chunk(CategoryButtons(level1, d.items), NumberOfColumns)|;
      var n := GetPage(entries, ItemsPerPage, page).number;
      Level2Arrows(m, k, d, Label(page, d.numPages), level1, n);
    }
  }

  /** The topic menu: every topic opens the content list of its scope, and
      Back returns to the first category page of `level1`. */
  lemma TopicMenuNavigation(themes: seq<Section>, level1: Option<string>, level2: Option<string>, page: int)
    ensures var m := Level3Layout(themes, level1, level2, page);
      var d := Level3MenuData(themes, level2, page, ItemsPerPage);
      var k := |Chunk(TopicButtons(level1, level2, d.items), NumberOfColumns)|;
      k < |m| && |Flatten(m[..k])| == |d.items|
      && (forall i :: 0 <= i < |d.items| ==>
            Target(Flatten(m[..k])[i]) == Some(Screen(ContentListText, ContentMenu(level1, level2, Some(d.items[i].slug), 1))))
      && |m[|m| - 1]| == 1 && Target(m[|m| - 1][0]) == Some(Screen(Level2Text, Level2Menu(level1, 1)))
  {
    Level3MenuFacts(themes, level1, level2, page);
    var m := Level3Layout(themes, level1, level2, page);
    var d := Level3MenuData(themes, level2, page, ItemsPerPage);
    var buttons := TopicButtons(level1, level2, d.items);
    var k := |Chunk(buttons, NumberOfColumns)|;
    TopicTargets(level1, level2, d.items);
    var shown := Flatten(m[..k]);
    assert shown == buttons;
    forall i | 0 <= i < |d.items|
      ensures Target(shown[i]) == Some(Screen(ContentListText, ContentMenu(level1, level2, Some(d.items[i].slug), 1)))
    {
      assert shown[i] == buttons[i];
    }
  }

  /** Each topic button opens the first content page of its own scope. */
  lemma TopicTargets(level1: Option<string>, level2: Option<string>, entries: seq<Entry>)
    ensures forall i :: 0 <= i < |entries| ==>
      Target(TopicButtons(level1, level2, entries)[i]) == Some(Screen(ContentListText, ContentMenu(level1, level2, Some(entries[i].slug), 1)))
  {
  }

  /** The topic menu's arrows open the neighbouring pages of the same menu.
      Stated for any list of entries the menu pages through; `Level3Layout`
      pages through `TopicEntries`. */
  lemma TopicMenuPaging(entries: seq<Entry>, level1: Option<string>, level2: Option<string>, page: int)
    ensures var m := Level3LayoutOf(level1, level2, entries, page);
      var d := PageDataOf(entries, page, ItemsPerPage);
      var n := GetPage(entries, ItemsPerPage, page).number;
      var k := |Chunk(TopicButtons(level1, level2, d.items), NumberOfColumns)|;
      d.numPages > 1 ==>
        k + 1 < |m| && |m[k]| > 0
        && (d.hasPrevious <==> Target(m[k][0]).Some?)
        && (d.hasPrevious ==> Target(m[k][0]) == Some(Screen(Level3Text, Level3Menu(level1, level2, n - 1))))
        && (d.hasNext <==> Target(m[k][|m[k]| - 1]).Some?)
        && (d.hasNext ==> Target(m[k][|m[k]| - 1]) == Some(Screen(Level3Text, Level3Menu(level1, level2, n + 1))))
  {
    var d := PageDataOf(entries, page, ItemsPerPage);
    Level3PagingRow(entries, level1, level2, page);
    if d.numPages > 1 {
      var m := Level3LayoutOf(level1, level2, entries, page);
      var k := |Chunk(TopicButtons(level1, level2, d.items), NumberOfColumns)|;
      var n := GetPage(entries, ItemsPerPage, page).number;
      Level3Arrows(m, k, d, Label(page, d.numPages), level1, level2, n);
    }
  }


  // ---------------------------------------------------------- search overlay

  /** `value or 'all'`. */
  function OrAll(o: Option<string>): (r: string)
    ensures Present(o) ==> r == o.value
    ensures !Present(o) ==> r == AllTopics
    ensures r != ""
  {
    if Present(o) then o.value else AllTopics
  }

  /** A required `str` callback field given `None` fails validation. */
  datatype ValidationError = ValidationError(field: string)

  /** The `Path` slug filter through the file relation: `None` matches a
      file with no path at all. */
  predicate PathMatches(c: Catalog, f: ContentFile, level1: Option<string>) {
    match level1
    case None => !exists p :: p in c.paths && p.id in f.paths
    case Some(slug) => exists p :: p in c.paths && p.id in f.paths && p.slug == slug
  }

  /** Whether some active topic has an active file under path `level1` and
      category `level2`. */
  predicate HasTopics(c: Catalog, level1: Option<string>, level2: string) {
    exists t, f :: t in c.topics && f in c.files && t.isActive && f.isActive && t.id in f.topics
      && PathMatches(c, f, level1)
      && exists cat :: cat in c.categories && cat.id in f.categories && cat.slug == level2
  }

  /** The Back button of a search reply, chosen in order: the stored topic
      unless it is `'all'`, then the "all" topic of a category without
      topics, then the category menu, then the path, which is required. */
  function BackTarget(level1: Option<string>, level2: Option<string>, level3: Option<string>, hasTopics: bool): (r: Result<Token, ValidationError>)
    ensures Present(level3) && level3.value != AllTopics ==> r == Ok(Level3(Scope(level1, level2, None), level3.value))
    ensures !(Present(level3) && level3.value != AllTopics) && Present(level2) && !hasTopics ==>
      r == Ok(Level3(Scope(level1, level2, None), AllTopics))
    ensures !(Present(level3) && level3.value != AllTopics) && Present(level2) && hasTopics ==>
      r == Ok(Level2(Scope(level1, None, None), level2.value))
    ensures !(Present(level3) && level3.value != AllTopics) && !Present(level2) ==>
      (r.Err? <==> level1.None?) && (level1.Some? ==> r == Ok(Level1(NoScope, level1.value)))
  {
    if Present(level3) && level3.value != AllTopics then Ok(Level3(Scope(level1, level2, None), level3.value))
    else if Present(level2) && !hasTopics then Ok(Level3(Scope(level1, level2, None), AllTopics))
    else if Present(level2) then Ok(Level2(Scope(level1, None, None), level2.value))
    else if level1.Some? then Ok(Level1(NoScope, level1.value))
    else Err(ValidationError("choice"))
  }

  /** Back from a search lands on a menu of the scope the search was
      started from: the stored topic's list, a category's "all" list or
      topic menu, or the categories of the path. */
  lemma BackTargetRoutes(level1: Option<string>, level2: Option<string>, level3: Option<string>, hasTopics: bool)
    requires BackTarget(level1, level2, level3, hasTopics).Ok?
    ensures var s := Route(BackTarget(level1, level2, level3, hasTopics).value);
      s.Some?
      && (s.value.menu.ContentMenu? ==>
            s.value.menu == ContentMenu(level1, level2, level3, 1)
            || (s.value.menu == ContentMenu(level1, level2, Some(AllTopics), 1) && Present(level2) && !hasTopics))
      && (s.value.menu.Level3Menu? ==> s.value.menu == Level3Menu(level1, level2, 1) && hasTopics)
      && (s.value.menu.Level2Menu? ==> s.value.menu == Level2Menu(level1, 1) && !Present(level2))
      && !s.value.menu.Level1Menu?
  {
  }

  /** The FSM state of a chat. */
  datatype SearchState = WaitingForQuery

  /** The data stored with the state. */
  datatype StoredData = StoredData(
    level1: Option<string>, level2: Option<string>, level3: Option<string>, promptMessageId: Option<int>)

  /** `state.get_data()` read with `.get`: missing keys are `None`. */
  function StoredOf(data: map<int, StoredData>, chat: int): StoredData {
    if chat in data then data[chat] else StoredData(None, None, None, None)
  }

  /** One search hit, `.values('name', 'id')`. */
  datatype Hit = Hit(name: string, id: int)

  /** `name__icontains`: the folded query occurs in the folded name. */
  predicate IContains(name: string, query: string, fold: char -> char) {
    Contains(MapChars(name, fold), MapChars(query, fold))
  }

  /** The active files whose name contains the query, in the order given. */
  function Matching(files: seq<ContentFile>, query: string, fold: char -> char): (r: seq<ContentFile>)
    ensures forall k :: 0 <= k < |r| ==> r[k].isActive && IContains(r[k].name, query, fold)
    ensures forall f :: f in files && f.isActive && IContains(f.name, query, fold) ==> f in r
    ensures multiset(r) <= multiset(files)
    decreases |files|
  {
    if files == [] then []
    else
      assert files == [files[0]] + files[1..];
      var rest := Matching(files[1..], query, fold);
      if files[0].isActive && IContains(files[0].name, query, fold) then [files[0]] + rest else rest
  }

  function Hits(files: seq<ContentFile>): (r: seq<Hit>)
    ensures |r| == |files| && forall k :: 0 <= k < |files| ==> r[k] == Hit(files[k].name, files[k].id)
  {
    seq(|files|, k requires 0 <= k < |files| => Hit(files[k].name, files[k].id))
  }

  /** The search query, in `ContentFile.Meta.ordering`. */
  function SearchHits(files: seq<ContentFile>, query: string, fold: char -> char): seq<Hit> {
    Hits(SortBy(Matching(files, query, fold), FileKey))
  }

  /** What a handler sends: a text with a keyboard. */
  datatype Reply = Reply(text: string, markup: Markup)

  function RepeatButton(s: Scope): Button {
    Button(RepeatSearchText, Press(Search(s)))
  }

  function ResultsText(query: string): string {
    "Результаты поиска для \"" + query + "\":"
  }

  /** One button per hit, opening its description in the scope with a
      missing category or topic read as `'all'`. */
  function ResultButtons(scope: ContentScope, hits: seq<Hit>): (bs: seq<Button>)
    ensures |bs| == |hits|
  {
    seq(|hits|, k requires 0 <= k < |hits| => Button(hits[k].name, Press(ContentDescription(scope, hits[k].id))))
  }

  /** The reply keyboard for a non-empty result: the first page of hits one
      per row, pagination when there are several pages, then repeat-search
      and Back rows. */
  function ResultLayout(level1: string, level2: Option<string>, level3: Option<string>, hits: seq<Hit>, back: Token): Markup {
    var d := PageDataOf(hits, 1, ItemsPerPage);
    var scope := ContentScope(level1, OrAll(level2), OrAll(level3));
    Chunk(ResultButtons(scope, d.items), 1)
    + (if d.numPages > 1 then
         [PaginationRow(d, Label(1, d.numPages),
            ContentPager(Scope(Some(level1), Some(OrAll(level2)), Some(OrAll(level3)))))]
       else [])
    + [[RepeatButton(Scope(Some(level1), level2, level3))], [BackButton(back)]]
  }

  /** The reply to a query, from the stored origin and the catalog. */
  function SearchReply(stored: StoredData, text: string, c: Catalog, fold: char -> char): Result<Reply, ValidationError> {
    var query := Strip(text);
    var hits := SearchHits(c.files, query, fold);
    var hasTopics := Present(stored.level2) && HasTopics(c, stored.level1, stored.level2.value);
    match BackTarget(stored.level1, stored.level2, stored.level3, hasTopics)
    case Err(e) => Err(e)
    case Ok(back) =>
      if hits == [] then
        Ok(Reply(NotFoundText, [[RepeatButton(Scope(stored.level1, stored.level2, stored.level3))], [BackButton(back)]]))
      else if stored.level1.None? then Err(ValidationError("level1"))
      else Ok(Reply(ResultsText(query), ResultLayout(stored.level1.value, stored.level2, stored.level3, hits, back)))
  }

  /** No hits: the not-found text over the repeat-search and Back rows. */
  lemma NoHitsReply(stored: StoredData, text: string, c: Catalog, fold: char -> char)
    requires SearchHits(c.files, Strip(text), fold) == []
    requires SearchReply(stored, text, c, fold).Ok?
    ensures var hasTopics := Present(stored.level2) && HasTopics(c, stored.level1, stored.level2.value);
      var back := BackTarget(stored.level1, stored.level2, stored.level3, hasTopics);
      back.Ok? && SearchReply(stored, text, c, fold) ==
        Ok(Reply(NotFoundText, [[RepeatButton(Scope(stored.level1, stored.level2, stored.level3))], [BackButton(back.value)]]))
  {
  }

  /** No hits: exactly two buttons, repeat-search with the stored origin
      unchanged, then Back. */
  lemma EmptySearchReply(stored: StoredData, text: string, c: Catalog, fold: char -> char)
    requires SearchHits(c.files, Strip(text), fold) == []
    requires SearchReply(stored, text, c, fold).Ok?
    ensures var r := SearchReply(stored, text, c, fold).value;
      r.text == NotFoundText && |Flatten(r.markup)| == 2
      && Flatten(r.markup)[0] == RepeatButton(Scope(stored.level1, stored.level2, stored.level3))
      && Flatten(r.markup)[1].text == BackText
  {
    NoHitsReply(stored, text, c, fold);
    var hasTopics := Present(stored.level2) && HasTopics(c, stored.level1, stored.level2.value);
    var back := BackTarget(stored.level1, stored.level2, stored.level3, hasTopics).value;
    FlattenTwoRows(RepeatButton(Scope(stored.level1, stored.level2, stored.level3)), BackButton(back));
  }

  /** Two one-button rows hold exactly those two buttons. */
  lemma FlattenTwoRows(a: Button, b: Button)
    ensures Flatten([[a], [b]]) == [a, b]
  {
    var m := [[a], [b]];
    assert m[1..] == [[b]];
    assert Flatten(m) == [a] + Flatten(m[1..]);
    assert Flatten(m[1..]) == [b] + Flatten([]);
  }

  /** Hits: the reply shows only the first page, one hit per row, each
      opening that hit in the origin's scope with `'all'` for a missing
      category or topic; a row `1/n` with ▶ exactly when there are more than
      `ITEMS_PER_PAGE` hits; then repeat-search with the origin unchanged;
      Back last. */
  lemma SearchResultReply(level1: string, level2: Option<string>, level3: Option<string>, hits: seq<Hit>, back: Token)
    requires hits != []
    ensures var m := ResultLayout(level1, level2, level3, hits, back);
      var shown := hits[..Min(ItemsPerPage, |hits|)];
      var k := |shown|;
      var scope := ContentScope(level1, OrAll(level2), OrAll(level3));
      var pages := NumPages(|hits|, ItemsPerPage);
      |m| == k + (if pages > 1 then 1 else 0) + 2
      && (forall i :: 0 <= i < k ==> m[i] == [Button(shown[i].name, Press(ContentDescription(scope, shown[i].id)))])
      && (pages > 1 <==> |hits| > ItemsPerPage)
      && (pages > 1 ==> m[k] == [Button(Label(1, pages), NoAction),
            Button(NextText, Press(PaginateContent(Scope(Some(level1), Some(OrAll(level2)), Some(OrAll(level3))), 2)))])
      && m[|m| - 2] == [RepeatButton(Scope(Some(level1), level2, level3))]
      && m[|m| - 1] == [BackButton(back)]
  {
    var d := PageDataOf(hits, 1, ItemsPerPage);
    var scope := ContentScope(level1, OrAll(level2), OrAll(level3));
    var buttons := ResultButtons(scope, d.items);
    ChunkSingles(buttons);
    NumPagesBounds(|hits|, ItemsPerPage);
  }

  /** Rows of one are the buttons themselves. */
  lemma {:induction false} ChunkSingles(bs: seq<Button>)
    ensures |Chunk(bs, 1)| == |bs| && forall i :: 0 <= i < |bs| ==> Chunk(bs, 1)[i] == [bs[i]]
    decreases |bs|
  {
    if |bs| > 1 {
      ChunkSingles(bs[1..]);
    }
  }

  /** `builder.add` the two buttons, then `adjust(1)`. */
  method BuildNotFoundKeyboard(repeat: Button, back: Button) returns (m: Markup)
    ensures m == [[repeat], [back]]
  {
    var b := new InlineKeyboardBuilder();
    AddEach(b, [repeat, back]);
    assert Flatten(b.markup) == [repeat, back];
    b.Adjust(1);
    assert [repeat, back][..1] == [repeat] && [repeat, back][1..] == [back];
    assert Chunk([repeat, back], 1) == [[repeat]] + Chunk([back], 1);
    assert Chunk([back], 1) == [[back]];
    m := b.markup;
  }

  /** The result keyboard, built as the handler builds it. */
  method BuildResultKeyboard(level1: string, level2: Option<string>, level3: Option<string>, hits: seq<Hit>, back: Token)
    returns (m: Markup)
    ensures m == ResultLayout(level1, level2, level3, hits, back)
  {
    var b := new InlineKeyboardBuilder();
    var current := GetPage(hits, ItemsPerPage, 1);
    var d := PageDataOf(hits, 1, ItemsPerPage);
    var scope := ContentScope(level1, OrAll(level2), OrAll(level3));
    var items := ResultButtons(scope, current.objectList);
    AddEach(b, items);
    assert Flatten(b.markup) == items;
    b.Adjust(1);
    assert current.number == 1 && d.items == current.objectList;
    ghost var top := b.markup;
    assert top == Chunk(ResultButtons(scope, d.items), 1);
    if d.numPages > 1 {
      var row := BuildPaginationRow(d, Label(current.number, d.numPages),
        ContentPager(Scope(Some(level1), Some(OrAll(level2)), Some(OrAll(level3)))));
      ChunkSmall(row, MaxWidth);
      b.Row(row);
    }
    var repeat := RepeatButton(Scope(Some(level1), level2, level3));
    ChunkSmall([repeat], MaxWidth);
    b.Row([repeat]);
    ChunkSmall([BackButton(back)], MaxWidth);
    b.Row([BackButton(back)]);
    m := b.markup;
    assert m == top + (if d.numPages > 1 then [PaginationRow(d, Label(1, d.numPages),
      ContentPager(Scope(Some(level1), Some(OrAll(level2)), Some(OrAll(level3)))))] else [])
      + [[repeat], [BackButton(back)]];
  }

  /** What `process_search_query` makes of one message: not handled (the
      chat is not waiting), an `AttributeError` on a message without text,
      or a reply. */
  datatype QueryOutcome = NotWaiting | NoText | Answered(reply: Result<Reply, ValidationError>)

  /** The FSM storage: per chat, the state and its data. */
  class SearchStorage {
    var states: map<int, SearchState>
    var data: map<int, StoredData>

    constructor()
      ensures states == map[] && data == map[]
    {
      states := map[];
      data := map[];
    }

    /** `search_callback_handler`: the prompt replaces the menu, and the
        chat waits for a query with the token's origin stored. */
    method EnterSearch(chat: int, origin: Scope, promptMessageId: int) returns (prompt: string)
      modifies this
      ensures prompt == SearchPromptText
      ensures states == old(states)[chat := WaitingForQuery]
      ensures data == old(data)[chat := StoredData(origin.level1, origin.level2, origin.level3, Some(promptMessageId))]
    {
      states := states[chat := WaitingForQuery];
      data := data[chat := StoredData(origin.level1, origin.level2, origin.level3, Some(promptMessageId))];
      prompt := SearchPromptText;
    }

    /** `state.clear()`: the chat's state and data are dropped. */
    method Clear(chat: int)
      modifies this
      ensures states == old(states) - {chat} && data == old(data) - {chat}
    {
      states := states - {chat};
      data := data - {chat};
    }

    /** `process_search_query`: runs only while the chat waits for a query.
        A message without text (a photo, a sticker) raises on `text.strip()`
        before anything is read or replied, so the chat keeps waiting; both
        replies clear the chat's state, and a validation failure leaves it
        as it was. */
    method ProcessSearchQuery(chat: int, text: Option<string>, c: Catalog, fold: char -> char)
      returns (r: QueryOutcome)
      modifies this
      ensures chat !in old(states) ==> r == NotWaiting && states == old(states) && data == old(data)
      ensures chat in old(states) && text.None? ==> r == NoText && states == old(states) && data == old(data)
      ensures chat in old(states) && text.Some? ==>
        r == Answered(SearchReply(StoredOf(old(data), chat), text.value, c, fold))
      ensures r.Answered? && r.reply.Ok? ==> states == old(states) - {chat} && data == old(data) - {chat}
      ensures r.Answered? && r.reply.Err? ==> states == old(states) && data == old(data)
    {
      if chat !in states {
        return NotWaiting;
      }
      if text.None? {
        return NoText;
      }
      var reply := AnswerQuery(StoredOf(data, chat), text.value, c, fold);
      r := Answered(reply);
      if reply.Ok? {
        Clear(chat);
      }
    }
  }

  /** The reply of `process_search_query`, computed as the handler computes
      it: the stripped query, the hits, the back target, then one of the two
      keyboards. */
  method AnswerQuery(stored: StoredData, text: string, c: Catalog, fold: char -> char)
    returns (r: Result<Reply, ValidationError>)
    ensures r == SearchReply(stored, text, c, fold)
  {
    var query := Strip(text);
    var hits := SearchHits(c.files, query, fold);
    var hasTopics := if Present(stored.level2) then HasTopics(c, stored.level1, stored.level2.value) else false;
    var back := BackTarget(stored.level1, stored.level2, stored.level3, hasTopics);
    if back.Err? {
      return Err(back.error);
    }
    if hits == [] {
      var m := BuildNotFoundKeyboard(RepeatButton(Scope(stored.level1, stored.level2, stored.level3)), BackButton(back.value));
      r := Ok(Reply(NotFoundText, m));
    } else if stored.level1.None? {
      r := Err(ValidationError("level1"));
    } else {
      var m := BuildResultKeyboard(stored.level1.value, stored.level2, stored.level3, hits, back.value);
      r := Ok(Reply(ResultsText(query), m));
    }
  }

  // ------------------------------------------------------------------ media

  /** The media helper's dictionary: an error entry, or the file's path,
      type and title (`None` when the key is missing). */
  datatype MediaData =
    | MediaError(error: string)
    | MediaFile(filePath: string, contentType: string, title: Option<string>)

  datatype SendMethod = SendPhoto | SendVideo | SendDocument | SendAudio

  /** One upload to the user's chat. */
  datatype Delivery = Delivery(via: SendMethod, chatId: int, filePath: string, caption: string)

  datatype MediaOutcome =
    | ErrorShown(text: string)
    | Delivered(delivery: Option<Delivery>, answer: string)
    | DeliveryFailed(text: string)

  /** The upload method for each type the handler knows. */
  function SendMethodFor(contentType: string): (r: Option<SendMethod>)
    ensures r == Some(SendPhoto) <==> contentType == "IMAGE"
    ensures r == Some(SendVideo) <==> contentType == "VIDEO"
    ensures r == Some(SendDocument) <==> contentType == "PDF"
    ensures r == Some(SendAudio) <==> contentType == "AUDIO"
  {
    if contentType == "IMAGE" then Some(SendPhoto)
    else if contentType == "VIDEO" then Some(SendVideo)
    else if contentType == "PDF" then Some(SendDocument)
    else if contentType == "AUDIO" then Some(SendAudio)
    else None
  }

  function Caption(title: Option<string>): string {
    "<b>" + title.GetOr("Медиафайл") + "</b>"
  }

  /** `send_media_file`; `transportError` is the message of the exception
      a Telegram call raises, if one does. */
  function SendMediaFile(media: MediaData, userId: int, transportError: Option<string>): (r: MediaOutcome)
    ensures media.MediaError? ==> r == ErrorShown("Ошибка: " + media.error)
    ensures media.MediaFile? && transportError.Some? ==>
      r == DeliveryFailed("Ошибка отправки материала: " + transportError.value)
    ensures media.MediaFile? && transportError.None? ==>
      r.Delivered? && r.answer == SentText
      && (r.delivery.Some? <==> SendMethodFor(media.contentType).Some?)
      && (r.delivery.Some? ==>
            r.delivery.value.via == SendMethodFor(media.contentType).value
            && r.delivery.value.chatId == userId && r.delivery.value.filePath == media.filePath
            && r.delivery.value.caption == "<b>" + media.title.GetOr("Медиафайл") + "</b>")
  {
    match media
    case MediaError(e) => ErrorShown("Ошибка: " + e)
    case MediaFile(path, contentType, title) =>
      if transportError.Some? then DeliveryFailed("Ошибка отправки материала: " + transportError.value)
      else
        var via := SendMethodFor(contentType);
        Delivered(if via.Some? then Some(Delivery(via.value, userId, path, Caption(title))) else None, SentText)
  }

  /** A type outside the four sends nothing, yet the user is told it was
      sent; the caption falls back only when the title key is missing. */
  lemma MediaQuirks(path: string, userId: int)
    ensures SendMediaFile(MediaFile(path, "TEXT", None), userId, None) == Delivered(None, SentText)
    ensures SendMediaFile(MediaFile(path, "PDF", None), userId, None).delivery.value.caption == "<b>Медиафайл</b>"
    ensures SendMediaFile(MediaFile(path, "PDF", Some("")), userId, None).delivery.value.caption == "<b></b>"
  {
  }
}
