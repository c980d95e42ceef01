# i-hear-you bot core in Dafny

A verified model of the decision logic behind the "i-hear-you" Telegram bot and its
content API. The model covers five areas:

- **Catalog navigation.** The typed callback tokens every inline button carries, with
  aiogram's `prefix:field:…` packing and its round trip. The model also covers Django's
  `Paginator`, the level-1/2/3 and content-list menus with their pagination rows and Back
  buttons, and the handlers that turn a pressed token into a menu. It also covers the search
  overlay: the FSM state, the stored origin, the back-target rule and the result keyboards.
  The last part here is the media-type dispatch.
- **Content API payloads.** Covered are the LINK-vs-file validator that rewrites the payload,
  the upload size bound, and the classification of mixed relation items into lookups by
  primary key or by name. Also covered are the flattening of JSON-looking strings, and the
  `create`/`update` rules for replacing relation sets.
- **User registries.**
  - The bot's activity middleware and the statistics bot's middleware, each an upsert on a
    table keyed by Telegram id.
  - The staff-user manager, with `create_user`, `create_superuser` and unique emails.
  - `BotUser`'s display string and its inactivity test.
- **Reminders and statistics.**
  - The reminder pass: candidates, the ten-day rhythm, the message fallback, and how an
    exception ends the pass.
  - The statistics bot's metrics: new users, DAU ≤ WAU ≤ MAU, and the top content grouped,
    counted and sorted.
  - The numbered report text, and delivery that skips failing recipients.
- **Catalog data model.** Slug defaulting on save, unique names and slugs, the declared
  orderings, the ratings table's bounds and its `(content, user)` constraint under both
  deletion rules, and the mean rating as a `(sum, count)` pair.

Each source file maps to one module: `callbacks.dfy`, `pager.dfy`, `keyboard_builder.dfy`,
`keyboards.dfy`, `handlers.dfy`, `serializers.dfy`, `users.dfy`, `middleware.dfy`,
`stat_middleware.dfy`, `reminders.dfy`, `stats.dfy` and `content_models.dfy`. Three helper
modules support them: `wrappers.dfy`, `strings.dfy` and `ordering.dfy`.

Imperative code in the source stays imperative here:
- the keyboard builder, the search storage, the serializer's payload and file record, and
  the user tables are classes with `modifies` clauses;
- the menu builders, the relation-conversion loop, the reminder pass and the report loop are
  methods with loop invariants;
- each of these methods is proved equal to a specification function, and the properties are
  proved about that function.

Times are whole seconds (UTC). A calendar date is `t / 86400`, and `timedelta.days` is floor
division. Database queries are filters over in-memory sequences. Library functions
(`slugify`, `normalize_email`, password hashing, `json.loads`, the database's case folding)
are function parameters.

### Behaviour worth knowing

- Choosing a category always opens its topic menu, even when the category has no topics
  (`tg_bot/handlers.py:135-148`). `has_topics` is used only for the search back target
  (`Handlers.BackTarget`).
- `get_categories_page` and `get_level3_menu_data` ignore their parent argument: every active
  category, and every active topic, is listed whatever path or category was chosen
  (`Keyboards.ParentChoiceIgnored`).
- The page data echoes the requested page number without clamping it, and the content-list
  caption shows it unclamped (`Keyboards.OutOfRangePageEchoed`, `Keyboards.ContentMenuFacts`).
- The models declare `(name, slug)` ordering for sections and `(name, file_type)` for files.
- The level keys in callback data are slugs (text); only `page` and `content_item` are
  integers.

## Model

| member | source | states |
|---|---|---|
| Callbacks.BaseDerivedSchemas | backend/tg_bot/callbacks.py:5-50 | every `BaseCallback` class starts with the three optional keys; level and paginate classes add exactly one required field (`choice`/`category`/`topic` text, or an integer `page`), back classes add none |
| Callbacks.ContentSchemas | backend/tg_bot/callbacks.py:53-81 | content classes require the three keys as text, all but `BackToContentList` add an integer `content_item`, and only `ContentRead` has `page` |
| Callbacks.FieldsConform | backend/tg_bot/callbacks.py:5-81 | every token's field values have the types its class declares |
| Callbacks.FromFieldsOfFields | backend/tg_bot/callbacks.py:5-81 | a token is determined by its kind and its field values |
| Callbacks.PrefixesDistinct | backend/tg_bot/callbacks.py:5-81 | every declared class has its own prefix, so a prefix names exactly one token kind |
| Callbacks.Pack | backend/tg_bot/keyboards.py:36-40 | `pack()` succeeds only for a declared class whose values hold no `:` and whose text fits 64 UTF-8 bytes; the separator error occurs exactly when a value holds `:` |
| Callbacks.PackSucceeds | backend/tg_bot/keyboards.py:36-40 | a declared token without `:` in its values packs exactly when the joined text fits the 64-byte limit, and packs to that text |
| Callbacks.NumbersHaveNoSeparator | backend/tg_bot/callbacks.py:26-38 | integer fields never produce the separator |
| Callbacks.Unpack | backend/tg_bot/handlers.py:103-104 | a successful unpack yields a token of the filter's class, which is declared |
| Callbacks.Decode | backend/tg_bot/handlers.py:103-104 | a decoded token's class has the text's first part as its prefix |
| Callbacks.PackUnpack | backend/tg_bot/callbacks.py:5-81 | unpacking a packed token gives it back, with an empty optional key read back as `None` |
| Callbacks.PackUnpackCanonical | backend/tg_bot/callbacks.py:5-81 | the round trip is exact for tokens with no empty optional key |
| Callbacks.PackEmptyKey | backend/tg_bot/callbacks.py:5-8 | `back1` with `level1=''` is accepted by `pack()` as `back1:::` and holds an empty optional key |
| Callbacks.EmptyKeyIsLost | backend/tg_bot/callbacks.py:5-81 | every packable token holding an empty optional key decodes to a different token, the one with that key set to `None` |
| Pager.NumPagesBounds | backend/tg_bot/keyboards.py:49 | `num_pages` is the least number of pages of `per_page` rows that hold every row, and at least 1 |
| Pager.GetPage | backend/tg_bot/keyboards.py:49-50 | `get_page` keeps an in-range number, sends any other number to the last page, and returns that page's slice |
| Pager.ChunksConcat | backend/tg_bot/keyboards.py:49-53 | the pages concatenated in order give the list back |
| Pager.PageSliceIsChunk | backend/tg_bot/keyboards.py:49-53 | page `k` is the `k`-th consecutive chunk of `per_page` rows, and there are as many pages as chunks |
| Pager.PageSizes | backend/tg_bot/keyboards.py:49-53 | every page but the last is full; no page of a non-empty list is empty |
| KeyboardBuilder.AddButtonProperties | backend/tg_bot/keyboards.py:36-40 | `add` appends the button to the reading order and keeps every row within the builder's width |
| KeyboardBuilder.ChunkProperties | backend/tg_bot/keyboards.py:42 | `adjust(n)` keeps every button in order, in full rows of `n` except a non-empty last row |
| KeyboardBuilder.InlineKeyboardBuilder.Add | backend/tg_bot/keyboards.py:37-40 | the builder's markup after `add` is the old markup with the button added |
| KeyboardBuilder.InlineKeyboardBuilder.Adjust | backend/tg_bot/keyboards.py:42 | the markup after `adjust(size)` is every button re-cut into rows of `size` |
| KeyboardBuilder.InlineKeyboardBuilder.Row | backend/tg_bot/keyboards.py:111 | `row(*buttons)` appends the buttons as new rows |
| Keyboards.Entries | backend/tg_bot/keyboards.py:48 | `.values('name', 'slug')` keeps each row's name and slug, in order |
| Keyboards.CategoryOrderDependsOnStorage | backend/content/models.py:57-62 | as written, the first category page changes when the same two categories are stored in the other order |
| Keyboards.CategoryOrderIndependentOfStorage | backend/content/models.py:34-36 | in the declared `(name, slug)` order the category list depends only on which rows are stored |
| Keyboards.PageDataOf | backend/tg_bot/keyboards.py:46-61 | the page data holds the clamped page's items, echoes the requested page, and has previous/next numbers exactly when those pages exist, each adjacent to the clamped page |
| Keyboards.ParentChoiceIgnored | backend/tg_bot/keyboards.py:46-143 | categories and topics are the same for every parent choice |
| Keyboards.OutOfRangePageEchoed | backend/tg_bot/keyboards.py:49-54 | an out-of-range page shows the last page's items, has no next page, and still reports the requested number |
| Keyboards.PaginationRowShape | backend/tg_bot/keyboards.py:85-111 | the row holds ◀ exactly when there is a previous page (carrying its number), the inert label, and ▶ exactly when there is a next page (carrying its number) |
| Keyboards.MenuLayoutShape | backend/tg_bot/keyboards.py:64-119 | item buttons fill the first rows in order and within the column count; the pagination row, if any, comes next; the last row is exactly Back |
| Keyboards.Level1MenuFacts | backend/tg_bot/keyboards.py:30-43 | the root menu has one button per `Type` row in query order, each choosing that row's slug, in rows of two |
| Keyboards.Level2MenuFacts | backend/tg_bot/keyboards.py:64-119 | the category menu shows the requested page's categories, each carrying `level1` and its own slug; a pagination row only with several pages; Back to the root last |
| Keyboards.Level3MenuFacts | backend/tg_bot/keyboards.py:146-203 | the topic menu shows the page's topics, each carrying both levels and its own slug; a pagination row only with several pages; `BackLevel2(level1)` last |
| Keyboards.ContentMenuFacts | backend/tg_bot/keyboards.py:207-273 | the content list pages the 14-entry literal into two pages; the pagination row is always present, with the caption built from the requested page; `BackLevel3(level1, level2)` last |
| Keyboards.HasOtherPagesIffSeveral | backend/tg_bot/keyboards.py:233 | `has_other_pages()` holds exactly when there are several pages |
| Keyboards.AddEach | backend/tg_bot/keyboards.py:75-82 | the item loop appends every button, in order |
| Keyboards.BuildPaginationRow | backend/tg_bot/keyboards.py:85-110 | the list built by appends is the specified pagination row, of one to three buttons |
| Keyboards.FinishMenu | backend/tg_bot/keyboards.py:83-116 | adjust, the optional pagination row and Back give the specified menu layout |
| Keyboards.GetLevel1Menu | backend/tg_bot/keyboards.py:30-43 | the built markup is the root menu layout |
| Keyboards.GetLevel2Menu | backend/tg_bot/keyboards.py:64-119 | the built markup is the category menu layout |
| Keyboards.GetLevel3Menu | backend/tg_bot/keyboards.py:146-203 | the built markup is the topic menu layout |
| Keyboards.GetContentMenu | backend/tg_bot/keyboards.py:207-273 | the built markup is the content menu layout |
| Handlers.Render | backend/tg_bot/handlers.py:93-238 | the menu a handler builds is the layout of its menu request |
| Handlers.ContentListNeverShownAsWritten | backend/tg_bot/handlers.py:168-200 | as written, topic, content-paging and back-to-list presses fail on awaiting a plain keyboard, so the content list is never shown |
| Handlers.Handle | backend/tg_bot/handlers.py:103-238 | every navigation token edits the message into the text and keyboard of its route; other tokens have no handler here |
| Handlers.TopicOpensContentList | backend/tg_bot/handlers.py:168-182 | choosing a topic opens page 1 of its content list, whose Back returns to the topic menu of the same two levels |
| Handlers.RootMenuNavigation | backend/tg_bot/handlers.py:103-116 | every root button opens page 1 of the categories of its slug |
| Handlers.CategoryMenuNavigation | backend/tg_bot/handlers.py:135-148 | every category button opens its topic menu (no skip), and Back returns to the root screen |
| Handlers.CategoryMenuPaging | backend/tg_bot/handlers.py:119-132 | for any list of categories the menu pages through, the arrows open the neighbouring pages of the same menu; the label leads nowhere |
| Handlers.TopicMenuNavigation | backend/tg_bot/keyboards.py:146-203 | every topic button opens the content list of its scope, and Back returns to page 1 of the categories of `level1` |
| Handlers.TopicMenuPaging | backend/tg_bot/handlers.py:151-165 | for any list of topics the menu pages through, the arrows open the neighbouring pages of the same menu; the label leads nowhere |
| Handlers.OrAll | backend/tg_bot/handlers.py:420-421 | `value or 'all'`: a non-empty value comes back unchanged, an absent or empty one becomes `all` |
| Handlers.BackTarget | backend/tg_bot/handlers.py:372-390 | the stored topic unless it is `'all'`; then the `'all'` topic when the category has no topics; then the category; otherwise `Level1(level1)`, which fails validation when `level1` is missing |
| Handlers.BackTargetRoutes | backend/tg_bot/handlers.py:365-390 | Back from a search lands on a menu of the scope the search came from, never the root |
| Handlers.Matching | backend/tg_bot/handlers.py:358-364 | the hits are exactly the active files whose folded name holds the folded query |
| Handlers.EmptySearchReply | backend/tg_bot/handlers.py:391-410 | no hits: the not-found text with exactly two buttons, repeat-search carrying the stored origin unchanged, then Back |
| Handlers.SearchResultReply | backend/tg_bot/handlers.py:411-465 | hits: page 1 only, one hit per row opening its description with `'all'` for a missing level; `1/n` with ▶ exactly when there are more than eight hits; repeat-search with the origin unchanged; Back last |
| Handlers.BuildNotFoundKeyboard | backend/tg_bot/handlers.py:391-404 | two adds and `adjust(1)` give the repeat and Back buttons one per row |
| Handlers.BuildResultKeyboard | backend/tg_bot/handlers.py:411-465 | the keyboard built by the loop and row calls is the specified result layout |
| Handlers.SearchStorage.EnterSearch | backend/tg_bot/handlers.py:317-336 | entering search sets `waiting_for_query` and stores the three keys and the prompt id for that chat only |
| Handlers.SearchStorage.Clear | backend/tg_bot/handlers.py:409 | `state.clear()` drops the chat's state and data and nothing else |
| Handlers.SearchStorage.ProcessSearchQuery | backend/tg_bot/handlers.py:339-470 | acts only while the chat waits for a query; a message without text fails before any reply and the chat keeps waiting; otherwise the reply is the specified search reply, both replies clear the chat's state, and a validation failure leaves the state as it was |
| Handlers.AnswerQuery | backend/tg_bot/handlers.py:346-465 | the reply computed step by step is the specified search reply |
| Handlers.SendMethodFor | backend/tg_bot/handlers.py:56-87 | IMAGE→photo, VIDEO→video, PDF→document, AUDIO→audio, and no other type has a send method |
| Handlers.SendMediaFile | backend/tg_bot/handlers.py:46-90 | an error entry shows `Ошибка: …`; a transport failure shows the send error; otherwise the chosen method delivers the file to the user with the caption `<b>title</b>` (`Медиафайл` when the title key is missing) and the answer is "sent" |
| Handlers.MediaQuirks | backend/tg_bot/handlers.py:55-88 | a TEXT file sends nothing yet answers "sent"; the caption falls back only when the title key is missing |
| Serializers.Classify | backend/api/serializers.py:143-161 | dict→its truthy `name`, else its `id`, and an error exactly when both are falsy; str and int as is; `true`/`false` as 1/0; float truncated; null and lists are an error naming their type |
| Serializers.TruncateTowardZero | backend/api/serializers.py:156-157 | `int(float)` rounds toward zero |
| Serializers.KeyOfStrings | backend/api/serializers.py:165-169 | a string is looked up by name exactly when it is not all digits; the decimal text of `n` and the integer `n` both look up primary key `n` |
| Serializers.Lookup | backend/api/serializers.py:163-174 | a found row is in the table and matches the key; a miss means no row matches |
| Serializers.Resolve | backend/api/serializers.py:143-174 | a classification error passes through; otherwise the item resolves to exactly the row the lookup finds, and fails with the `<model> "<value>" не найден` message when there is none |
| Serializers.Elements | backend/api/serializers.py:118 | iterating a list yields its items; null, booleans and numbers are not iterable |
| Serializers.ResolveAllMeaning | backend/api/serializers.py:117-141 | the conversion succeeds exactly when every item resolves, yielding them in order; otherwise it fails with the first failing item's error |
| Serializers.ResolveAllStops | backend/api/serializers.py:117-141 | once an item fails, later items change nothing |
| Serializers.ConvertFalsy | backend/api/serializers.py:106-107 | empty or falsy input yields `[]` |
| Serializers.ConvertPlainString | backend/api/serializers.py:110-115 | a string that is not JSON is one name: the result is its single lookup or its error |
| Serializers.ConvertFlattens | backend/api/serializers.py:118-130 | elements that parse as JSON lists are flattened in order |
| Serializers.ResolveBatch | backend/api/serializers.py:127-129 | the inner loop extends the resolved prefix by a batch |
| Serializers.ResolveElements | backend/api/serializers.py:117-141 | the element loop resolves the flattened elements, stopping at the first error |
| Serializers.ConvertToObjects | backend/api/serializers.py:102-141 | `_convert_to_objects` computes the specified conversion |
| Serializers.Validated | backend/api/serializers.py:177-196 | LINK without a truthy URL and non-LINK without a truthy file fail on create only, with the field's message; otherwise the other field is cleared when the given one is truthy, and all other keys are kept |
| Serializers.ValidatedExclusive | backend/api/serializers.py:182-195 | a validated payload never keeps both a truthy file and a truthy URL; on update a payload with neither passes unchanged |
| Serializers.ValidatedIdempotent | backend/api/serializers.py:177-196 | validating a validated payload changes nothing |
| Serializers.Payload.Validate | backend/api/serializers.py:177-196 | `validate` rewrites the payload in place to the validated map, or leaves it unchanged on error |
| Serializers.ValidateFile | backend/api/serializers.py:198-203 | only a truthy upload larger than `MAX_FILE_SIZE_MB` MiB fails, with the limit in the message; the value passes unchanged otherwise |
| Serializers.RelationStep | backend/api/serializers.py:234-242 | an absent key keeps the relation; a supplied one (even empty) replaces it with the converted rows' ids |
| Serializers.UpdateRelationRules | backend/api/serializers.py:225-244 | with no relation keys nothing changes; supplied empty lists clear exactly their relations |
| Serializers.ApplyAttrsEffect | backend/api/serializers.py:230-231 | `setattr` in a loop sets every given field and keeps every other field |
| Serializers.FileRecord.Update | backend/api/serializers.py:225-244 | `update` applies the attributes and replaces the supplied relations, stopping at the first conversion error |
| Serializers.CreateIsUpdateOfEmpty | backend/api/serializers.py:205-223 | `create`'s relations are those of an update of an empty record with the same input |
| Serializers.Create | backend/api/serializers.py:205-223 | `create` fails exactly when a conversion fails; otherwise a fresh record holds the attributes and the created relations |
| Users.DisplayNamesId | backend/users/models.py:74-80 | whichever form `__str__` takes, the Telegram id reads back from its end |
| Users.InactiveThreshold | backend/users/models.py:82-84 | `is_inactive(days)` holds exactly when `last_active <= now - days` days |
| Users.InactiveStays | backend/users/models.py:82-84 | once inactive, a user stays inactive as time passes |
| Users.NewStaffUser | backend/users/models.py:9-17 | a falsy email fails; an email already taken fails; otherwise a username already taken (the inherited unique `username`, `""` when not given) fails; otherwise the account has that username, the normalised email, the hashed password, `is_staff` set and the given names |
| Users.NewStaffUserIntended | backend/users/models.py:9-17 | with no username column, only a falsy or taken email fails |
| Users.SecondRegistrationFails | backend/users/models.py:9-17 | as written, after one account created without a username, a second one with a different email fails on the username, while the intended manager accepts it |
| Users.IntendedRegistrationsSucceed | backend/users/models.py:9-17 | the intended manager succeeds exactly for a given, untaken email, and the table it builds keeps emails unique |
| Users.SuperuserExtras | backend/users/models.py:19-21 | both flags default to true unless given |
| Users.SuperuserFlags | backend/users/models.py:19-22 | a superuser is created exactly when the email is given and neither email nor username is taken; it is staff even with `is_staff=False`, and a superuser unless told otherwise |
| Users.FindByEmail | backend/users/models.py:26-29 | the login lookup finds an account with that email, and none exactly when no account has it |
| Users.FindByEmailUnique | backend/users/models.py:26-29 | with unique emails the lookup names the only matching account |
| Users.StaffRegistry.CreateUser | backend/users/models.py:9-17 | `create_user` returns the specified account and appends it, keeping emails and usernames unique; an error stores nothing |
| Users.StaffRegistry.CreateSuperuser | backend/users/models.py:19-22 | `create_superuser` is `create_user` with the defaulted flags |
| BotMiddleware.ExtractUser | backend/tg_bot/middleware.py:13-17 | the message's sender, else the callback query's, else nobody |
| BotMiddleware.Upserted | backend/tg_bot/middleware.py:26-41 | a new row has the names (`None`→`''`), is active and was seen now; a known row gets the names and `last_active = now` and keeps its flag and creation time |
| BotMiddleware.UpsertIdempotent | backend/tg_bot/middleware.py:26-41 | a second upsert of the same sender at the same time changes nothing more |
| BotMiddleware.UpsertKeepsFlag | backend/tg_bot/middleware.py:35-41 | the stored row is active exactly when it is new or was active |
| BotMiddleware.BotUserTable.CreateOrUpdateUser | backend/tg_bot/middleware.py:22-45 | the table gets the upserted row under the sender's id; a database error returns `None` and stores nothing |
| BotMiddleware.BotUserTable.Call | backend/tg_bot/middleware.py:12-20 | the handler's result is always returned, and the sender, if any, is upserted |
| StatMiddleware.StatUpserted | backend/tg_stat_bot/middleware.py:25-38 | a new row has the names (`None`→`''`) and is active; a known row gets only its names overwritten |
| StatMiddleware.StatUpsertStable | backend/tg_stat_bot/middleware.py:33-38 | a known row with the same names is left as it is |
| StatMiddleware.StatBotUserTable.CreateOrUpdateUser | backend/tg_stat_bot/middleware.py:21-42 | the table gets the upserted row; a database error returns `None` and stores nothing |
| StatMiddleware.StatBotUserTable.Call | backend/tg_stat_bot/middleware.py:11-19 | the handler's result is always returned, and the sender, if any, is upserted |
| Reminders.CandidateIsInactive | backend/tg_bot/utils.py:23-30 | the query selects exactly the active users that `is_inactive(10)` reports |
| Reminders.Candidates | backend/tg_bot/utils.py:26-30 | the candidates are exactly the active users last seen at least ten days ago |
| Reminders.CandidateDays | backend/tg_bot/utils.py:40-43 | every candidate has at least ten calendar days of silence |
| Reminders.DueEveryTenDays | backend/tg_bot/utils.py:40-43 | with daily passes a silent user is reminded every tenth day and on no day in between |
| Reminders.MessageText | backend/tg_bot/utils.py:32-38 | the stored `reminder_message` text, else the default message |
| Reminders.PlanFacts | backend/tg_bot/utils.py:40-48 | every planned reminder goes to a due candidate with the text and the root menu; every due candidate has one |
| Reminders.FirstFailure | backend/tg_bot/utils.py:40-53 | the position of the first send that raises, or the plan's length |
| Reminders.ReminderPass | backend/tg_bot/utils.py:19-53 | a pass sends the plan up to the first failing chat, and reports failure exactly when there was one |
| Stats.NewUsersCounted | backend/tg_stat_bot/utils.py:15-20 | new users are the count of users created at most seven days ago |
| Stats.ActiveUsersWiden | backend/tg_stat_bot/utils.py:37-54 | a wider window holds every user of a narrower one |
| Stats.MetricsOrdered | backend/tg_stat_bot/utils.py:36-63 | DAU ≤ WAU ≤ MAU |
| Stats.Recent | backend/tg_stat_bot/utils.py:25-27 | the views of the last seven days, exactly |
| Stats.Keys | backend/tg_stat_bot/utils.py:27-30 | one group per `(content id, name)` viewed, each once |
| Stats.ViewCount | backend/tg_stat_bot/utils.py:30-31 | a group's count is zero exactly when it has no views |
| Stats.Groups | backend/tg_stat_bot/utils.py:27-31 | one row per group with its view count |
| Stats.GroupsFacts | backend/tg_stat_bot/utils.py:27-31 | every group counts its own views and has at least one; every recent view has its group |
| Stats.SortDescFacts | backend/tg_stat_bot/utils.py:32 | ordering by count descending is a permutation sorted by count |
| Stats.Take | backend/tg_stat_bot/utils.py:32 | `[:limit]` is the prefix of length `limit`, or the whole list |
| Stats.TakeSorted | backend/tg_stat_bot/utils.py:32 | a group left out of a full top list has no more views than the last one kept |
| Stats.TopContentFacts | backend/tg_stat_bot/utils.py:23-33 | at most `limit` rows, sorted by count, each counting its views; any group left out has no more views than the last row |
| Stats.LineTexts | backend/tg_stat_bot/utils.py:116-121 | the `k`-th line is numbered `start + k` and shows the `k`-th row |
| Stats.ReportLinesNumbered | backend/tg_stat_bot/utils.py:114-123 | the top block splits into one line `i. name - count …` per row, numbered from 1 in order |
| Stats.AppendLines | backend/tg_stat_bot/utils.py:116-121 | the `+=` loop appends the numbered lines |
| Stats.BuildReport | backend/tg_stat_bot/utils.py:106-123 | the report built step by step is the header plus the top block, or the no-data line |
| Stats.StartStats | backend/tg_stat_bot/utils.py:103-126 | the report, or the error text instead of an exception |
| Stats.ReachedMissedMembers | backend/tg_stat_bot/utils.py:89-97 | the recipients reached are exactly those whose send does not fail, and the ones missed exactly those whose send fails |
| Stats.ReachedOrMissed | backend/tg_stat_bot/utils.py:89-97 | every recipient is either reached or missed |
| Stats.SendStats | backend/tg_stat_bot/utils.py:66-100 | every non-failing recipient gets the report, in order, and a failure skips only its own recipient; a failure before the loop sends nothing |
| Stats.Deliver | backend/tg_stat_bot/utils.py:89-97 | the loop sends the text to exactly the reached recipients, in order, and collects the missed ones |
| ContentModels.Persist | backend/content/models.py:21-30 | a write is refused exactly when another row holds the name or the slug; otherwise the row is stored, every row with another key stays, nothing else is added, and uniqueness is kept |
| ContentModels.SectionInstance.constructor | backend/content/models.py:31 | a new section is active |
| ContentModels.SectionInstance.Save | backend/content/models.py:41-44 | a blank slug becomes `slugify(name)` and a set one is kept, then the row is written |
| ContentModels.SavedSlugIdempotent | backend/content/models.py:41-44 | saving twice stores the same slug as saving once |
| ContentModels.ActiveRowsCount | backend/tg_bot/keyboards.py:48 | the active filter keeps every active row as often as stored, and no other row |
| ContentModels.DeclaredOrderDeterministic | backend/content/models.py:34-36 | with unique names the declared ordering fixes the order of any set of rows |
| ContentModels.FileTypeValueInjective | backend/content/models.py:82-88 | distinct file types store distinct text |
| ContentModels.NewContentFile | backend/content/models.py:102-110 | a new file is inactive and has no relations |
| ContentModels.AddRating | backend/content/models.py:137-154 | a rating out of bounds is refused, as is a second rating by the same non-null user; otherwise it is appended |
| ContentModels.AddRatingKeepsValid | backend/content/models.py:149-154 | an accepted rating keeps the bounds and the uniqueness constraint |
| ContentModels.DeleteUser | backend/content/models.py:131-136 | deleting a user nulls its ratings and keeps everything else |
| ContentModels.DeleteUserKeepsValid | backend/content/models.py:131-136 | nulling keeps the constraints and leaves the user no ratings |
| ContentModels.DeleteContent | backend/content/models.py:126-130 | deleting a file removes exactly its ratings |
| ContentModels.DeleteContentKeepsValid | backend/content/models.py:126-130 | the cascade keeps the constraints |
| ContentModels.RatingCountPositive | backend/content/models.py:74-76 | a file's rating count is positive exactly when it has a rating |
| ContentModels.RatingSumBounds | backend/content/models.py:137-143 | with bounded ratings the sum lies between the bounds times the count, so the mean lies within the bounds |
| ContentModels.AnnotateRatingNone | backend/content/models.py:74-76 | the annotation is null exactly for a file nobody rated |
| Ordering.SortBySorted | backend/content/models.py:36 | the declared ordering sorts the rows |
| Ordering.SortedUnique | backend/content/models.py:36 | two orderings of the same rows agree when no two rows share a key |
| Strings.OrEmpty | backend/tg_bot/middleware.py:29-30 | `value or ''` is the value when truthy, else the empty string |
| Strings.Strip | backend/tg_bot/handlers.py:346 | `strip()` leaves no surrounding white space |
| Strings.StripMeaning | backend/tg_bot/handlers.py:346 | `strip()` returns the contiguous slice of the input left after removing only white space from both ends |
| Strings.ParseIntToString | backend/tg_bot/callbacks.py:25-38 | an `int` field reads back the integer `str()` wrote |
| Strings.ParseIntLax | backend/tg_bot/callbacks.py:25-38 | an `int` field also reads integer text with white space around it, a leading `+`, or a trailing decimal point and zeros, as pydantic's lax mode does |

## Left out

- Telegram transport is not modelled. That covers `edit_text`, `answer`, `delete`, the `send_*` calls, `FSInputFile`, deleting the search prompt and the loading message, and the fallback to delete and resend when an edit fails (`tg_bot/handlers.py:253-265`). Delivery appears only as a value (`Handlers.SendMediaFile`, the reminder plan, the statistics deliveries).
- Content description, reader, rating and media screens are not modelled. Their keyboard helpers (`get_content_description`, `get_content_page`, `get_media_file_data`, `get_media_back_keyboard`) do not exist in `tg_bot/keyboards.py`, and those modules are not part of this model. `Handlers.Route` gives those tokens no screen. `send_media_file` is modelled with the media entry as a parameter.
- `SearchCallback`, `ContentChoiceCallback` and `BackContentCallback` are undeclared in `tg_bot/callbacks.py`. They are token kinds without a prefix, with fields taken from their call sites, and `Callbacks.Pack` refuses them.
- Menus carry tokens, not packed text. A slug holding `:`, or a token over 64 bytes, raises while the source builds the menu. `Callbacks.Pack` models that refusal; the menu functions do not.
- `Type` and `Theme` are not declared in `content/models.py`. Their rows are inputs, taken in the order the query returns them.
- The ORM is not modelled: queries are filters over sequences, and `sync_to_async` and transactions are left out. Query order:
  - `Category` declares its own `Meta` without extending `Section.Meta` (`content/models.py:57-62`), so the category query has no ordering (Findings, first row). `Keyboards.CategoryEntries`, `Keyboards.Level2Layout`, `Keyboards.GetLevel2Menu` and `Handlers.Handle` list categories in `Section`'s declared `(name, slug)` order, the corrected behaviour; `Keyboards.CategoryEntriesAsWritten` keeps storage order, the behaviour as written.
  - `Path` and `Topic` lose `Section`'s ordering the same way (`content/models.py:47-54`, `content/models.py:65-70`); the path and topic menus, though, query `Type` and `Theme` (see above), so their rows are taken in the order the query returns them.
  - search hits come in `ContentFile`'s declared `(name, file_type)` order (`content/models.py:117`);
  - top-content groups come in first-view order;
  - code-point order of strings stands in for the database's collation.
- `Stats.TopContentFacts`: the source orders only by `-view_count`, so the database decides ties. The model breaks ties by first appearance, and its contract says nothing about ties.
- `slugify`, `normalize_email`, password hashing, `json.loads` and the database's `icontains` case folding are function parameters. The model does not interpret them.
- `Callbacks.Decode`: pydantic trims Unicode `White_Space`, which unlike `str.isspace` excludes U+001C to U+001F; the model strips `str.isspace`'s set. Digit-group underscores (`1_000`), which some pydantic versions accept, are refused by the model.
- `Strings.IsDigits`: Python's `str.isdigit` also accepts non-ASCII digits; the model accepts ASCII digits only.
- JSON floats are reals. Infinity and NaN are not modelled (`int()` raises on them in the source).
- `_format_file_size` and `to_representation` are not modelled: floating point formatting, ORM access and `isoformat`. Field-level URL and file validation by the framework is also left out.
- `Serializers.Validated` compares against the type text `LINK`. `ContentFile.FileType` declares no `LINK` member, and the model has no `external_url` field. The model follows the validator's evident intent.
- `MAX_FILE_SIZE_MB`, `MIN_RATING_INT`, `MAX_RATING_INT` and `TOP_CONTENT_NUMBER` come from constants files this model does not include. They are parameters.
- `create_user` passes extra keyword arguments through to the model. Only `username`, `is_staff`, `is_superuser`, `first_name` and `last_name` are modelled, so unknown keywords (a `TypeError` in the source) are not.
- Reminders:
  - The reminder job's endless loop, its `NOTIFICATION_PERIOD` sleep and its `print` are not modelled; one pass is.
  - A database exception before the per-user loop ends the pass before any send; only send failures are parameters.
- `Users.NewStaffUser`: when both the email and the username are taken, the model reports the email; which unique constraint the database reports first is not modelled.
- Statistics:
  - The scheduler, `run_async_job`, the 0.1 s pacing and the `print`s are left out.
  - `ContentViewStat` is imported from `content.models` and `StatBotUser` from `users.models` (`tg_stat_bot/utils.py:10-12`), but neither `content/models.py` nor `users/models.py` declares them. Only the fields the code uses are modelled.
- `Truncator`-based `__str__` of sections, files and ratings is not modelled, nor is `BotMessage`. `created_at` timestamps of sections are also left out.

## Findings

| source | as written | input that shows it | evidently intended | confidence | as-written member | corrected member |
|---|---|---|---|---|---|---|
| backend/content/models.py:57-62 | `Category` declares its own `Meta` without extending `Section.Meta`, so it loses the `ordering = ['name', 'slug']` declared at line 36, and the category query has no order | two active categories `a`, `b` stored as `[b, a]` instead of `[a, b]`, one per page: page 1 shows `b` instead of `a` | categories paginated in `(name, slug)` order, independent of storage | medium, not executed | Keyboards.CategoryOrderDependsOnStorage | Keyboards.CategoryOrderIndependentOfStorage |
| backend/tg_bot/handlers.py:168-200 | `handle_level3`, `handle_paginate_content` and `back_to_content_list_handler` (line 309) `await` the result of `get_content_menu`, which is a plain `def` (`tg_bot/keyboards.py:207`), so awaiting the returned markup raises `TypeError` | pressing any topic button, e.g. `Level3(level1='p', level2='c', topic='t')` | the message is edited into the content list `Материалы:` | high, not executed | Handlers.ContentListNeverShownAsWritten | Handlers.TopicOpensContentList |
| backend/users/models.py:9-17 | `StaffUser` inherits `AbstractUser.username` (unique, default `''`) and `create_user` never sets it, so every account created without a username stores `''` and the second one violates the unique constraint at `save()` (`IntegrityError`) | `create_user('a@x.org')` then `create_user('b@x.org')` | any number of staff accounts with distinct emails (e.g. `username = None` on the model) | high, not executed | Users.SecondRegistrationFails | Users.IntendedRegistrationsSucceed |
