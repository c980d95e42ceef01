/** The bot's menus (`tg_bot/keyboards.py`): the page data computed from the
    paginator, and the keyboards built from it. Every menu is the page's item
    buttons in rows of two, then a pagination row when there is more than one
    page, then a Back row (the root menu has no pagination and no Back). */
module Keyboards {
  import opened Wrappers
  import opened Strings
  import opened Pager
  import opened Callbacks
  import opened KeyboardBuilder
  import opened ContentModels

  const ItemsPerPage: nat := 8
  const NumberOfColumns: nat := 2

  const BackText: string := "⬅️ Назад"
  const PreviousText: string := "◀️"
  const NextText: string := "▶️"

  /** The module-level list the content menu pages through. */
  const ContentItems: seq<string> := [
    "1 к", "2 к", "3 к", "4 к", "8 к", "8 к", "8 к", "8 к", "8 к",
    "8 r", "8 к", "8 к", "8 к", "8 r"]

  /** One row of `.values('name', 'slug')`. */
  datatype Entry = Entry(name: string, slug: string)

  function Entries(rows: seq<Section>): (r: seq<Entry>)
    ensures |r| == |rows| && forall i :: 0 <= i < |rows| ==> r[i] == Entry(rows[i].name, rows[i].slug)
  {
    seq(|rows|, i requires 0 <= i < |rows| => Entry(rows[i].name, rows[i].slug))
  }

  /** The active categories in the order the query returns them. `Category`
      declares its own `Meta` without extending `Section.Meta`, so as written
      the query carries no ordering and the rows come in storage order. */
  function CategoryEntriesAsWritten(categories: seq<Section>): seq<Entry> {
    Entries(ActiveRows(categories))
  }

  /** The active categories in `Section`'s declared `(name, slug)` order. */
  function CategoryEntries(categories: seq<Section>): seq<Entry> {
    Entries(DeclaredOrder(ActiveRows(categories)))
  }

  /** Two active rows are kept, in the order given. */
  lemma BothActive(a: Section, b: Section)
    requires a.isActive && b.isActive
    ensures ActiveRows([a, b]) == [a, b]
  {
    assert [a, b][1..] == [b] && [b][1..] == [];
  }

  /** With one row per page, the first page of two active rows stored in
      this order shows the first row. */
  lemma FirstOfTwo(a: Section, b: Section)
    requires a.isActive && b.isActive
    ensures GetPage(CategoryEntriesAsWritten([a, b]), 1, 1).objectList == [Entry(a.name, a.slug)]
  {
    BothActive(a, b);
    var e := CategoryEntriesAsWritten([a, b]);
    assert |e| == 2 && e[0] == Entry(a.name, a.slug);
    assert NumPages(|e|, 1) == 2;
    assert PageSlice(e, 1, 1) == e[..1];
  }

  /** Storing the same categories in another order changes the first page of
      the query as written. */
  lemma CategoryOrderDependsOnStorage()
    ensures var a := Section(1, "a", "a", true);
            var b := Section(2, "b", "b", true);
            GetPage(CategoryEntriesAsWritten([a, b]), 1, 1).objectList
              != GetPage(CategoryEntriesAsWritten([b, a]), 1, 1).objectList
  {
    var a := Section(1, "a", "a", true);
    var b := Section(2, "b", "b", true);
    FirstOfTwo(a, b);
    FirstOfTwo(b, a);
  }

  /** In the declared order, every page depends only on which rows are
      stored, not on how. */
  lemma CategoryOrderIndependentOfStorage(t1: seq<Section>, t2: seq<Section>)
    requires UniqueRows(t1) && multiset(t1) == multiset(t2)
    ensures CategoryEntries(t1) == CategoryEntries(t2)
  {
    ActiveRowsOfPermutation(t1, t2);
    DeclaredOrderDeterministic(ActiveRows(t1), ActiveRows(t2), t1);
  }

  /** The active rows of `Theme`, a model this snapshot does not declare:
      its rows are taken in the order the query returns them. */
  function TopicEntries(themes: seq<Section>): seq<Entry> {
    Entries(ActiveRows(themes))
  }

  // --------------------------------------------------------------- page data

  /** The dictionary the page-data helpers return. */
  datatype PageData<T> = PageData(
    items: seq<T>, currentPage: int, numPages: nat, hasPrevious: bool, hasNext: bool,
    previousPageNumber: Option<nat>, nextPageNumber: Option<nat>)

  /** The page data of `all`: the clamped page's items and neighbours, with
      `current_page` echoing the requested number. */
  function PageDataOf<T>(all: seq<T>, page: int, perPage: nat): (d: PageData<T>)
    requires perPage > 0
    ensures d.items == GetPage(all, perPage, page).objectList
    ensures d.currentPage == page
    ensures d.numPages == NumPages(|all|, perPage)
    ensures d.hasPrevious <==> GetPage(all, perPage, page).number > 1
    ensures d.hasNext <==> GetPage(all, perPage, page).number < d.numPages
    ensures d.previousPageNumber.None? <==> !d.hasPrevious
    ensures d.nextPageNumber.None? <==> !d.hasNext
    ensures d.hasPrevious ==> d.previousPageNumber.value + 1 == GetPage(all, perPage, page).number
    ensures d.hasNext ==> d.nextPageNumber.value == GetPage(all, perPage, page).number + 1
  {
    var p := GetPage(all, perPage, page);
    PageData(p.objectList, page, p.numPages, p.HasPrevious(), p.HasNext(),
      if p.HasPrevious() then Some(p.PreviousPageNumber()) else None,
      if p.HasNext() then Some(p.NextPageNumber()) else None)
  }

  /** `get_categories_page`: the level-1 choice does not filter anything. */
  function CategoriesPage(categories: seq<Section>, level1Choice: Option<string>, page: int, perPage: nat): PageData<Entry>
    requires perPage > 0
  {
    PageDataOf(CategoryEntries(categories), page, perPage)
  }

  /** `get_level3_menu_data`: the level-2 choice does not filter anything. */
  function Level3MenuData(themes: seq<Section>, level2Choice: Option<string>, page: int, perPage: nat): PageData<Entry>
    requires perPage > 0
  {
    PageDataOf(TopicEntries(themes), page, perPage)
  }

  /** Every parent shows the same categories and the same topics. */
  lemma ParentChoiceIgnored(categories: seq<Section>, themes: seq<Section>, a: Option<string>, b: Option<string>, page: int)
    ensures CategoriesPage(categories, a, page, ItemsPerPage) == CategoriesPage(categories, b, page, ItemsPerPage)
    ensures Level3MenuData(themes, a, page, ItemsPerPage) == Level3MenuData(themes, b, page, ItemsPerPage)
  {
  }

  /** A requested page outside the range shows the last page's items while
      `current_page` still reports the request. */
  lemma OutOfRangePageEchoed(categories: seq<Section>, level1Choice: Option<string>, page: int)
    requires var n := NumPages(|CategoryEntries(categories)|, ItemsPerPage); !(1 <= page <= n)
    ensures var d := CategoriesPage(categories, level1Choice, page, ItemsPerPage);
      d.currentPage == page && !d.hasNext
      && d.items == PageSlice(CategoryEntries(categories), ItemsPerPage, d.numPages)
  {
  }

  // ------------------------------------------------------------------ layout

  function BackButton(t: Token): Button {
    Button(BackText, Press(t))
  }

  /** The inert page caption `"{page}/{num_pages}"`. */
  function Label(page: int, numPages: nat): string {
    IntToString(page) + "/" + NatToString(numPages)
  }

  /** ◀ when there is a previous page, the caption, ▶ when there is a next
      page; the arrows carry `paginate(number)` for the neighbouring page. */
  function PaginationRow<T>(d: PageData<T>, caption: string, paginate: int -> Token): (row: seq<Button>)
    requires d.hasPrevious ==> d.previousPageNumber.Some?
    requires d.hasNext ==> d.nextPageNumber.Some?
  {
    (if d.hasPrevious then [Button(PreviousText, Press(paginate(d.previousPageNumber.value)))] else [])
    + [Button(caption, NoAction)]
    + (if d.hasNext then [Button(NextText, Press(paginate(d.nextPageNumber.value)))] else [])
  }

  lemma PaginationRowShape<T>(d: PageData<T>, caption: string, paginate: int -> Token)
    requires d.hasPrevious ==> d.previousPageNumber.Some?
    requires d.hasNext ==> d.nextPageNumber.Some?
    ensures var row := PaginationRow(d, caption, paginate);
      var at := if d.hasPrevious then 1 else 0;
      |row| == 1 + at + (if d.hasNext then 1 else 0)
      && row[at] == Button(caption, NoAction)
      && (d.hasPrevious <==> row[0].action.Press?)
      && (d.hasPrevious ==> row[0] == Button(PreviousText, Press(paginate(d.previousPageNumber.value))))
      && (d.hasNext <==> row[|row| - 1].action.Press?)
      && (d.hasNext ==> row[|row| - 1] == Button(NextText, Press(paginate(d.nextPageNumber.value))))
  {
  }

  /** The generic menu: items in rows of two, the optional pagination row,
      then the Back row. */
  function MenuLayout(items: seq<Button>, pagination: Option<seq<Button>>, back: Button): Markup {
    Chunk(items, NumberOfColumns) + (if pagination.Some? then [pagination.value] else []) + [[back]]
  }

  /** The item buttons fill the first rows in order, the pagination row (if
      any) comes next, and the last row is exactly the Back button. */
  lemma MenuLayoutShape(items: seq<Button>, pagination: Option<seq<Button>>, back: Button)
    ensures var m := MenuLayout(items, pagination, back);
      var k := |Chunk(items, NumberOfColumns)|;
      |m| == k + (if pagination.Some? then 1 else 0) + 1
      && Flatten(m[..k]) == items
      && RowsWithin(m[..k], NumberOfColumns)
      && (pagination.Some? ==> m[k] == pagination.value)
      && m[|m| - 1] == [back]
  {
    ChunkProperties(items, NumberOfColumns);
    var m := MenuLayout(items, pagination, back);
    assert m[..|Chunk(items, NumberOfColumns)|] == Chunk(items, NumberOfColumns);
  }

  // ---------------------------------------------------------- item buttons

  function Level1Buttons(types: seq<Entry>): (bs: seq<Button>)
    ensures |bs| == |types|
  {
    seq(|types|, i requires 0 <= i < |types| => Button(types[i].name, Press(Level1(NoScope, types[i].slug))))
  }

  function CategoryButtons(level1: Option<string>, entries: seq<Entry>): (bs: seq<Button>)
    ensures |bs| == |entries|
  {
    seq(|entries|, i requires 0 <= i < |entries| =>
      Button(entries[i].name, Press(Level2(Scope(level1, None, None), entries[i].slug))))
  }

  function TopicButtons(level1: Option<string>, level2: Option<string>, entries: seq<Entry>): (bs: seq<Button>)
    ensures |bs| == |entries|
  {
    seq(|entries|, i requires 0 <= i < |entries| =>
      Button(entries[i].name, Press(Level3(Scope(level1, level2, None), entries[i].slug))))
  }

  function ContentButtons(scope: Scope, items: seq<string>): (bs: seq<Button>)
    ensures |bs| == |items|
  {
    seq(|items|, i requires 0 <= i < |items| => Button(items[i], Press(ContentChoice(scope, items[i]))))
  }

  // ------------------------------------------------------------ menu specs

  /** The callback a category pagination button carries for page `p`. */
  function Level2Pager(level1: Option<string>): int -> Token {
    (p: int) => PaginateLevel2(Scope(level1, None, None), p)
  }

  /** The callback a topic pagination button carries for page `p`. */
  function Level3Pager(level1: Option<string>, level2: Option<string>): int -> Token {
    (p: int) => PaginateLevel3(Scope(level1, level2, None), p)
  }

  /** The callback a content pagination button carries for page `n`. */
  function ContentPager(scope: Scope): int -> Token {
    (n: int) => PaginateContent(scope, n)
  }

  /** `get_level1_menu`: one button per `Type` row in rows of two; no Back. */
  function Level1Layout(types: seq<Entry>): Markup {
    Chunk(Level1Buttons(types), NumberOfColumns)
  }

  function Level2Layout(categories: seq<Section>, level1: Option<string>, page: int): Markup {
    Level2LayoutOf(level1, CategoryEntries(categories), page)
  }

  /** The category menu over the page of `entries` it shows. */
  function Level2LayoutOf(level1: Option<string>, entries: seq<Entry>, page: int): Markup {
    var d := PageDataOf(entries, page, ItemsPerPage);
    MenuLayout(
      CategoryButtons(level1, d.items),
      if d.numPages > 1 then
        Some(PaginationRow(d, Label(d.currentPage, d.numPages), Level2Pager(level1)))
      else None,
      BackButton(BackLevel1(NoScope)))
  }

  function Level3Layout(themes: seq<Section>, level1: Option<string>, level2: Option<string>, page: int): Markup {
    Level3LayoutOf(level1, level2, TopicEntries(themes), page)
  }

  /** The topic menu over the page of `entries` it shows. */
  function Level3LayoutOf(level1: Option<string>, level2: Option<string>, entries: seq<Entry>, page: int): Markup {
    var d := PageDataOf(entries, page, ItemsPerPage);
    MenuLayout(
      TopicButtons(level1, level2, d.items),
      if d.numPages > 1 then
        Some(PaginationRow(d, Label(d.currentPage, d.numPages), Level3Pager(level1, level2)))
      else None,
      BackButton(BackLevel2(Scope(level1, None, None))))
  }

  function ContentLayout(level1: Option<string>, level2: Option<string>, level3: Option<string>, page: int): Markup {
    var scope := Scope(level1, level2, level3);
    var d := PageDataOf(ContentItems, page, ItemsPerPage);
    var p := GetPage(ContentItems, ItemsPerPage, page);
    MenuLayout(
      ContentButtons(scope, d.items),
      if p.HasOtherPages() then
        Some(PaginationRow(d, Label(page, d.numPages), ContentPager(scope)))
      else None,
      BackButton(BackLevel3(Scope(level1, level2, None))))
  }

  // ----------------------------------------------------------- menu facts

  /** The root menu has one button per `Type` row, in query order, each
      choosing that row's slug. */
  lemma Level1MenuFacts(types: seq<Entry>)
    ensures Flatten(Level1Layout(types)) == Level1Buttons(types)
    ensures RowsWithin(Level1Layout(types), NumberOfColumns)
    ensures forall i :: 0 <= i < |types| ==>
      Level1Buttons(types)[i] == Button(types[i].name, Press(Level1(NoScope, types[i].slug)))
  {
    ChunkProperties(Level1Buttons(types), NumberOfColumns);
  }

  /** The category menu: the page's categories, each carrying `level1` and
      its own slug; a pagination row only with several pages; Back to the
      root last. */
  lemma Level2MenuFacts(categories: seq<Section>, level1: Option<string>, page: int)
    ensures var m := Level2Layout(categories, level1, page);
      var d := CategoriesPage(categories, level1, page, ItemsPerPage);
      var k := |Chunk(CategoryButtons(level1, d.items), NumberOfColumns)|;
      d.items == GetPage(CategoryEntries(categories), ItemsPerPage, page).objectList
      && Flatten(m[..k]) == CategoryButtons(level1, d.items)
      && (forall i :: 0 <= i < |d.items| ==>
            CategoryButtons(level1, d.items)[i].action == Press(Level2(Scope(level1, None, None), d.items[i].slug)))
      && |m| == k + (if d.numPages > 1 then 2 else 1)
      && (d.numPages > 1 ==> m[k] == PaginationRow(d, Label(page, d.numPages),
            Level2Pager(level1)))
      && m[|m| - 1] == [BackButton(BackLevel1(NoScope))]
  {
    var d := CategoriesPage(categories, level1, page, ItemsPerPage);
    MenuLayoutShape(CategoryButtons(level1, d.items),
      if d.numPages > 1 then
        Some(PaginationRow(d, Label(d.currentPage, d.numPages), Level2Pager(level1)))
      else None,
      BackButton(BackLevel1(NoScope)));
  }

  /** The topic menu: the page's topics, each carrying both levels and its
      own slug; Back to the categories of `level1` last. */
  lemma Level3MenuFacts(themes: seq<Section>, level1: Option<string>, level2: Option<string>, page: int)
    ensures var m := Level3Layout(themes, level1, level2, page);
      var d := Level3MenuData(themes, level2, page, ItemsPerPage);
      var k := |Chunk(TopicButtons(level1, level2, d.items), NumberOfColumns)|;
      d.items == GetPage(TopicEntries(themes), ItemsPerPage, page).objectList
      && Flatten(m[..k]) == TopicButtons(level1, level2, d.items)
      && (forall i :: 0 <= i < |d.items| ==>
            TopicButtons(level1, level2, d.items)[i].action == Press(Level3(Scope(level1, level2, None), d.items[i].slug)))
      && |m| == k + (if d.numPages > 1 then 2 else 1)
      && (d.numPages > 1 ==> m[k] == PaginationRow(d, Label(page, d.numPages),
            Level3Pager(level1, level2)))
      && m[|m| - 1] == [BackButton(BackLevel2(Scope(level1, None, None)))]
  {
    var d := Level3MenuData(themes, level2, page, ItemsPerPage);
    MenuLayoutShape(TopicButtons(level1, level2, d.items),
      if d.numPages > 1 then
        Some(PaginationRow(d, Label(d.currentPage, d.numPages), Level3Pager(level1, level2)))
      else None,
      BackButton(BackLevel2(Scope(level1, None, None))));
  }

  /** The content list has two pages of the literal list; the pagination row
      is present exactly when there are other pages, and the caption shows the
      requested page even when it was clamped. */
  lemma ContentMenuFacts(level1: Option<string>, level2: Option<string>, level3: Option<string>, page: int)
    ensures NumPages(|ContentItems|, ItemsPerPage) == 2
    ensures var m := ContentLayout(level1, level2, level3, page);
      var d := PageDataOf(ContentItems, page, ItemsPerPage);
      var k := |Chunk(ContentButtons(Scope(level1, level2, level3), d.items), NumberOfColumns)|;
      Flatten(m[..k]) == ContentButtons(Scope(level1, level2, level3), d.items)
      && |m| == k + 2
      && m[k][if d.hasPrevious then 1 else 0] == Button(Label(page, 2), NoAction)
      && m[|m| - 1] == [BackButton(BackLevel3(Scope(level1, level2, None)))]
  {
    var scope := Scope(level1, level2, level3);
    var d := PageDataOf(ContentItems, page, ItemsPerPage);
    var p := GetPage(ContentItems, ItemsPerPage, page);
    assert p.HasOtherPages();
    var paginate := ContentPager(scope);
    PaginationRowShape(d, Label(page, d.numPages), paginate);
    MenuLayoutShape(ContentButtons(scope, d.items),
      Some(PaginationRow(d, Label(page, d.numPages), paginate)),
      BackButton(BackLevel3(Scope(level1, level2, None))));
  }

  /** A page has other pages exactly when the list spans several pages. */
  lemma HasOtherPagesIffSeveral<T>(all: seq<T>, perPage: nat, page: int)
    requires perPage > 0
    ensures GetPage(all, perPage, page).HasOtherPages() <==> NumPages(|all|, perPage) > 1
  {
  }

  // -------------------------------------------------------------- builders

  /** The item loop: `builder.add` for each button in turn. */
  method AddEach(b: InlineKeyboardBuilder, buttons: seq<Button>)
    requires b.Valid()
    modifies b
    ensures b.Valid() && Flatten(b.markup) == Flatten(old(b.markup)) + buttons
  {
    var i := 0;
    while i < |buttons|
      invariant 0 <= i <= |buttons|
      invariant b.Valid() && Flatten(b.markup) == Flatten(old(b.markup)) + buttons[..i]
    {
      AddButtonProperties(b.markup, buttons[i]);
      b.Add(buttons[i]);
      assert buttons[..i + 1] == buttons[..i] + [buttons[i]];
      i := i + 1;
    }
    assert buttons[..i] == buttons;
  }

  /** The pagination row built by appending to a list. */
  method BuildPaginationRow<T>(d: PageData<T>, caption: string, paginate: int -> Token) returns (row: seq<Button>)
    requires d.hasPrevious ==> d.previousPageNumber.Some?
    requires d.hasNext ==> d.nextPageNumber.Some?
    ensures row == PaginationRow(d, caption, paginate)
    ensures 1 <= |row| <= 3
  {
    row := [];
    if d.hasPrevious {
      row := row + [Button(PreviousText, Press(paginate(d.previousPageNumber.value)))];
    }
    row := row + [Button(caption, NoAction)];
    if d.hasNext {
      row := row + [Button(NextText, Press(paginate(d.nextPageNumber.value)))];
    }
  }

  /** Adjust, then the optional pagination row, then the Back row. */
  method FinishMenu(b: InlineKeyboardBuilder, items: seq<Button>, pagination: Option<seq<Button>>, back: Button)
    requires b.Valid() && Flatten(b.markup) == items
    requires pagination.Some? ==> 1 <= |pagination.value| <= MaxWidth
    modifies b
    ensures b.markup == MenuLayout(items, pagination, back)
  {
    b.Adjust(NumberOfColumns);
    if pagination.Some? {
      ChunkSmall(pagination.value, MaxWidth);
      b.Row(pagination.value);
    }
    ChunkSmall([back], MaxWidth);
    b.Row([back]);
  }

  /** `get_level1_menu`. */
  method GetLevel1Menu(types: seq<Entry>) returns (m: Markup)
    ensures m == Level1Layout(types)
  {
    var b := new InlineKeyboardBuilder();
    var i := 0;
    while i < |types|
      invariant 0 <= i <= |types|
      invariant b.Valid() && Flatten(b.markup) == Level1Buttons(types)[..i]
    {
      var button := Button(types[i].name, Press(Level1(NoScope, types[i].slug)));
      AddButtonProperties(b.markup, button);
      b.Add(button);
      assert Level1Buttons(types)[..i + 1] == Level1Buttons(types)[..i] + [button];
      i := i + 1;
    }
    assert Level1Buttons(types)[..i] == Level1Buttons(types);
    b.Adjust(NumberOfColumns);
    m := b.markup;
  }

  /** `get_level2_menu`. */
  method GetLevel2Menu(categories: seq<Section>, level1: Option<string>, page: int) returns (m: Markup)
    ensures m == Level2Layout(categories, level1, page)
  {
    var b := new InlineKeyboardBuilder();
    var d := CategoriesPage(categories, level1, page, ItemsPerPage);
    var items := CategoryButtons(level1, d.items);
    AddEach(b, items);
    var pagination: Option<seq<Button>> := None;
    if d.numPages > 1 {
      var row := BuildPaginationRow(d, Label(d.currentPage, d.numPages), Level2Pager(level1));
      pagination := Some(row);
    }
    FinishMenu(b, items, pagination, BackButton(BackLevel1(NoScope)));
    m := b.markup;
  }

  /** `get_level3_menu`. */
  method GetLevel3Menu(themes: seq<Section>, level1: Option<string>, level2: Option<string>, page: int) returns (m: Markup)
    ensures m == Level3Layout(themes, level1, level2, page)
  {
    var b := new InlineKeyboardBuilder();
    var d := Level3MenuData(themes, level2, page, ItemsPerPage);
    var items := TopicButtons(level1, level2, d.items);
    AddEach(b, items);
    var pagination: Option<seq<Button>> := None;
    if d.numPages > 1 {
      var row := BuildPaginationRow(d, Label(d.currentPage, d.numPages), Level3Pager(level1, level2));
      pagination := Some(row);
    }
    FinishMenu(b, items, pagination, BackButton(BackLevel2(Scope(level1, None, None))));
    m := b.markup;
  }

  /** `get_content_menu`. */
  method GetContentMenu(level1: Option<string>, level2: Option<string>, level3: Option<string>, page: int) returns (m: Markup)
    ensures m == ContentLayout(level1, level2, level3, page)
  {
    var b := new InlineKeyboardBuilder();
    var scope := Scope(level1, level2, level3);
    var current := GetPage(ContentItems, ItemsPerPage, page);
    var d := PageDataOf(ContentItems, page, ItemsPerPage);
    var items := ContentButtons(scope, current.objectList);
    AddEach(b, items);
    var pagination: Option<seq<Button>> := None;
    if current.HasOtherPages() {
      var row := BuildPaginationRow(d, Label(page, d.numPages), ContentPager(scope));
      pagination := Some(row);
    }
    FinishMenu(b, items, pagination, BackButton(BackLevel3(Scope(level1, level2, None))));
    m := b.markup;
  }
}
