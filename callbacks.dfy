/** The navigation tokens carried by the bot's inline buttons: one constructor
    per `CallbackData` class of `tg_bot/callbacks.py`, plus aiogram's packing
    of such a record into the button's `callback_data` text and its unpacking
    when the button is pressed. */
module Callbacks {
  import opened Wrappers
  import opened Strings

  /** The optional scoping keys every `BaseCallback` subclass inherits; a
      missing key is `None`. */
  datatype Scope = Scope(level1: Option<string>, level2: Option<string>, level3: Option<string>)

  const NoScope := Scope(None, None, None)

  /** The three scoping keys the content callbacks require as text. */
  datatype ContentScope = ContentScope(level1: string, level2: string, level3: string)

  datatype Token =
    | Base(scope: Scope)
    | Level1(scope: Scope, choice: string)
    | Level2(scope: Scope, category: string)
    | Level3(scope: Scope, topic: string)
    | PaginateLevel2(scope: Scope, page: int)
    | PaginateLevel3(scope: Scope, page: int)
    | PaginateContent(scope: Scope, page: int)
    | BackLevel1(scope: Scope)
    | BackLevel2(scope: Scope)
    | BackLevel3(scope: Scope)
    | ContentDescription(content: ContentScope, contentItem: int)
    | ContentRead(content: ContentScope, contentItem: int, page: int)
    | BackToContentList(content: ContentScope)
    | ContentMedia(content: ContentScope, contentItem: int)
      /** `SearchCallback`: used by the search handlers with the three
          optional keys, but declared nowhere in the callback module. */
    | Search(scope: Scope)
      /** `ContentChoiceCallback`: used by the content menu with the three
          keys and a `content_item` text, but declared nowhere either. */
    | ContentChoice(scope: Scope, item: string)

  datatype Kind =
    | BaseKind | Level1Kind | Level2Kind | Level3Kind
    | PaginateLevel2Kind | PaginateLevel3Kind | PaginateContentKind
    | BackLevel1Kind | BackLevel2Kind | BackLevel3Kind
    | ContentDescriptionKind | ContentReadKind | BackToContentListKind | ContentMediaKind
    | SearchKind | ContentChoiceKind

  function KindOf(t: Token): Kind {
    match t
    case Base(_) => BaseKind
    case Level1(_, _) => Level1Kind
    case Level2(_, _) => Level2Kind
    case Level3(_, _) => Level3Kind
    case PaginateLevel2(_, _) => PaginateLevel2Kind
    case PaginateLevel3(_, _) => PaginateLevel3Kind
    case PaginateContent(_, _) => PaginateContentKind
    case BackLevel1(_) => BackLevel1Kind
    case BackLevel2(_) => BackLevel2Kind
    case BackLevel3(_) => BackLevel3Kind
    case ContentDescription(_, _) => ContentDescriptionKind
    case ContentRead(_, _, _) => ContentReadKind
    case BackToContentList(_) => BackToContentListKind
    case ContentMedia(_, _) => ContentMediaKind
    case Search(_) => SearchKind
    case ContentChoice(_, _) => ContentChoiceKind
  }

  /** The class's `prefix`; `None` for the two classes the module never
      declares. */
  function Prefix(k: Kind): Option<string> {
    match k
    case BaseKind => Some("base")
    case Level1Kind => Some("l1")
    case Level2Kind => Some("l2")
    case Level3Kind => Some("l3")
    case PaginateLevel2Kind => Some("pag2")
    case PaginateLevel3Kind => Some("pag3")
    case PaginateContentKind => Some("pag_content")
    case BackLevel1Kind => Some("back1")
    case BackLevel2Kind => Some("back2")
    case BackLevel3Kind => Some("back3")
    case ContentDescriptionKind => Some("content_desc")
    case ContentReadKind => Some("content_read")
    case BackToContentListKind => Some("back_content_list")
    case ContentMediaKind => Some("content_media")
    case SearchKind => None
    case ContentChoiceKind => None
  }

  predicate Declared(k: Kind) { Prefix(k).Some? }

  const Sep: char := ':'

  /** aiogram's limit on `callback_data`, in UTF-8 bytes. */
  const MaxCallbackLength: nat := 64

  // ------------------------------------------------------------ field schema

  datatype FieldType = OptionalText | RequiredText | Integer

  datatype Field = Field(name: string, ty: FieldType)

  const ScopeSchema: seq<Field> :=
    [Field("level1", OptionalText), Field("level2", OptionalText), Field("level3", OptionalText)]

  const ContentSchema: seq<Field> :=
    [Field("level1", RequiredText), Field("level2", RequiredText), Field("level3", RequiredText)]

  const ChoiceField := Field("choice", RequiredText)
  const CategoryField := Field("category", RequiredText)
  const TopicField := Field("topic", RequiredText)
  const PageField := Field("page", Integer)
  const ItemField := Field("content_item", Integer)
  const ItemChoiceField := Field("content_item", RequiredText)

  /** The model fields in pydantic's order: inherited fields first. */
  function Schema(k: Kind): seq<Field> {
    match k
    case BaseKind => ScopeSchema
    case Level1Kind => ScopeSchema + [ChoiceField]
    case Level2Kind => ScopeSchema + [CategoryField]
    case Level3Kind => ScopeSchema + [TopicField]
    case PaginateLevel2Kind => ScopeSchema + [PageField]
    case PaginateLevel3Kind => ScopeSchema + [PageField]
    case PaginateContentKind => ScopeSchema + [PageField]
    case BackLevel1Kind => ScopeSchema
    case BackLevel2Kind => ScopeSchema
    case BackLevel3Kind => ScopeSchema
    case ContentDescriptionKind => ContentSchema + [ItemField]
    case ContentReadKind => ContentSchema + [ItemField, PageField]
    case BackToContentListKind => ContentSchema
    case ContentMediaKind => ContentSchema + [ItemField]
    case SearchKind => ScopeSchema
    case ContentChoiceKind => ScopeSchema + [ItemChoiceField]
  }

  predicate HasField(k: Kind, name: string) {
    exists i | 0 <= i < |Schema(k)| :: Schema(k)[i].name == name
  }

  /** The declared classes derived from `BaseCallback`. */
  predicate IsBaseDerived(k: Kind) {
    k in {BaseKind, Level1Kind, Level2Kind, Level3Kind, PaginateLevel2Kind, PaginateLevel3Kind,
          PaginateContentKind, BackLevel1Kind, BackLevel2Kind, BackLevel3Kind}
  }

  /** The level and pagination classes add exactly one required field to the
      three optional keys; the back classes add none. */
  lemma BaseDerivedSchemas(k: Kind)
    requires IsBaseDerived(k)
    ensures Schema(k)[..3] == ScopeSchema
    ensures k in {BaseKind, BackLevel1Kind, BackLevel2Kind, BackLevel3Kind} <==> |Schema(k)| == 3
    ensures k in {Level1Kind, Level2Kind, Level3Kind} ==> |Schema(k)| == 4 && Schema(k)[3].ty == RequiredText
    ensures k in {PaginateLevel2Kind, PaginateLevel3Kind, PaginateContentKind} ==>
      Schema(k)[3..] == [PageField]
  {
  }

  /** The content classes require the three keys as text, all but
      `BackToContentList` require an integer `content_item`, and only
      `ContentRead` also carries a `page`. */
  lemma ContentSchemas(k: Kind)
    requires k in {ContentDescriptionKind, ContentReadKind, BackToContentListKind, ContentMediaKind}
    ensures Schema(k)[..3] == ContentSchema
    ensures k != BackToContentListKind <==> |Schema(k)| > 3 && Schema(k)[3] == ItemField
    ensures HasField(k, "page") <==> k == ContentReadKind
  {
    if k != ContentReadKind {
      forall i | 0 <= i < |Schema(k)| ensures Schema(k)[i].name != "page" {
      }
    } else {
      assert Schema(k)[4].name == "page";
    }
  }

  // ------------------------------------------------------------ field values

  datatype FieldValue = OptText(opt: Option<string>) | Text(text: string) | Number(num: int)

  predicate Fits(v: FieldValue, ty: FieldType) {
    match ty
    case OptionalText => v.OptText?
    case RequiredText => v.Text?
    case Integer => v.Number?
  }

  predicate Conforms(vs: seq<FieldValue>, schema: seq<Field>) {
    |vs| == |schema| && forall i :: 0 <= i < |vs| ==> Fits(vs[i], schema[i].ty)
  }

  function ScopeFields(s: Scope): seq<FieldValue> {
    [OptText(s.level1), OptText(s.level2), OptText(s.level3)]
  }

  function ContentFields(c: ContentScope): seq<FieldValue> {
    [Text(c.level1), Text(c.level2), Text(c.level3)]
  }

  /** `model_dump()` of the token, in schema order. */
  function Fields(t: Token): seq<FieldValue> {
    match t
    case Base(s) => ScopeFields(s)
    case Level1(s, c) => ScopeFields(s) + [Text(c)]
    case Level2(s, c) => ScopeFields(s) + [Text(c)]
    case Level3(s, c) => ScopeFields(s) + [Text(c)]
    case PaginateLevel2(s, p) => ScopeFields(s) + [Number(p)]
    case PaginateLevel3(s, p) => ScopeFields(s) + [Number(p)]
    case PaginateContent(s, p) => ScopeFields(s) + [Number(p)]
    case BackLevel1(s) => ScopeFields(s)
    case BackLevel2(s) => ScopeFields(s)
    case BackLevel3(s) => ScopeFields(s)
    case ContentDescription(c, i) => ContentFields(c) + [Number(i)]
    case ContentRead(c, i, p) => ContentFields(c) + [Number(i), Number(p)]
    case BackToContentList(c) => ContentFields(c)
    case ContentMedia(c, i) => ContentFields(c) + [Number(i)]
    case Search(s) => ScopeFields(s)
    case ContentChoice(s, i) => ScopeFields(s) + [Text(i)]
  }

  /** A scope's three values, followed by conforming extra values. */
  lemma ScopeConforms(s: Scope, extra: seq<FieldValue>, extraSchema: seq<Field>)
    requires Conforms(extra, extraSchema)
    ensures Conforms(ScopeFields(s), ScopeSchema)
    ensures Conforms(ScopeFields(s) + extra, ScopeSchema + extraSchema)
  {
    var vs, schema := ScopeFields(s) + extra, ScopeSchema + extraSchema;
    forall i | 3 <= i < |vs|
      ensures Fits(vs[i], schema[i].ty)
    {
      assert vs[i] == extra[i - 3] && schema[i] == extraSchema[i - 3];
    }
  }

  /** A content scope's three values, followed by conforming extra values. */
  lemma ContentConforms(c: ContentScope, extra: seq<FieldValue>, extraSchema: seq<Field>)
    requires Conforms(extra, extraSchema)
    ensures Conforms(ContentFields(c), ContentSchema)
    ensures Conforms(ContentFields(c) + extra, ContentSchema + extraSchema)
  {
    var vs, schema := ContentFields(c) + extra, ContentSchema + extraSchema;
    forall i | 3 <= i < |vs|
      ensures Fits(vs[i], schema[i].ty)
    {
      assert vs[i] == extra[i - 3] && schema[i] == extraSchema[i - 3];
    }
  }

  /** `FieldsConform` for the tokens that carry a choice or nothing extra. */
  lemma ChoiceFieldsConform(t: Token)
    requires t.Base? || t.Level1? || t.Level2? || t.Level3? || t.Search? || t.ContentChoice?
    ensures Conforms(Fields(t), Schema(KindOf(t)))
  {
    match t
    case Base(s) => ScopeConforms(s, [], []);
    case Level1(s, c) => ScopeConforms(s, [Text(c)], [ChoiceField]);
    case Level2(s, c) => ScopeConforms(s, [Text(c)], [CategoryField]);
    case Level3(s, c) => ScopeConforms(s, [Text(c)], [TopicField]);
    case Search(s) => ScopeConforms(s, [], []);
    case ContentChoice(s, i) => ScopeConforms(s, [Text(i)], [ItemChoiceField]);
  }

  /** `FieldsConform` for the page and Back tokens of the menus. */
  lemma MenuFieldsConform(t: Token)
    requires t.PaginateLevel2? || t.PaginateLevel3? || t.PaginateContent? || t.BackLevel1? || t.BackLevel2? || t.BackLevel3?
    ensures Conforms(Fields(t), Schema(KindOf(t)))
  {
    match t
    case PaginateLevel2(s, p) => ScopeConforms(s, [Number(p)], [PageField]);
    case PaginateLevel3(s, p) => ScopeConforms(s, [Number(p)], [PageField]);
    case PaginateContent(s, p) => ScopeConforms(s, [Number(p)], [PageField]);
    case BackLevel1(s) => ScopeConforms(s, [], []);
    case BackLevel2(s) => ScopeConforms(s, [], []);
    case BackLevel3(s) => ScopeConforms(s, [], []);
  }

  /** `FieldsConform` for the tokens of one content item or list. */
  lemma ContentFieldsConform(t: Token)
    requires t.ContentDescription? || t.ContentRead? || t.BackToContentList? || t.ContentMedia?
    ensures Conforms(Fields(t), Schema(KindOf(t)))
  {
    match t
    case ContentDescription(c, i) => ContentConforms(c, [Number(i)], [ItemField]);
    case ContentRead(c, i, p) => ContentConforms(c, [Number(i), Number(p)], [ItemField, PageField]);
    case BackToContentList(c) => ContentConforms(c, [], []);
    case ContentMedia(c, i) => ContentConforms(c, [Number(i)], [ItemField]);
  }

  /** The values of a token have the types its class declares. */
  lemma FieldsConform(t: Token)
    ensures Conforms(Fields(t), Schema(KindOf(t)))
  {
    if t.Base? || t.Level1? || t.Level2? || t.Level3? || t.Search? || t.ContentChoice? {
      ChoiceFieldsConform(t);
    } else if t.ContentDescription? || t.ContentRead? || t.BackToContentList? || t.ContentMedia? {
      ContentFieldsConform(t);
    } else {
      MenuFieldsConform(t);
    }
  }

  /** The token a conforming value list describes. */
  function FromFields(k: Kind, vs: seq<FieldValue>): (t: Token)
    requires Conforms(vs, Schema(k))
    ensures KindOf(t) == k
  {
    var s := if |vs| >= 3 && k !in {ContentDescriptionKind, ContentReadKind, BackToContentListKind, ContentMediaKind}
      then Scope(vs[0].opt, vs[1].opt, vs[2].opt) else NoScope;
    var c := if |vs| >= 3 && k in {ContentDescriptionKind, ContentReadKind, BackToContentListKind, ContentMediaKind}
      then ContentScope(vs[0].text, vs[1].text, vs[2].text) else ContentScope("", "", "");
    match k
    case BaseKind => Base(s)
    case Level1Kind => Level1(s, vs[3].text)
    case Level2Kind => Level2(s, vs[3].text)
    case Level3Kind => Level3(s, vs[3].text)
    case PaginateLevel2Kind => PaginateLevel2(s, vs[3].num)
    case PaginateLevel3Kind => PaginateLevel3(s, vs[3].num)
    case PaginateContentKind => PaginateContent(s, vs[3].num)
    case BackLevel1Kind => BackLevel1(s)
    case BackLevel2Kind => BackLevel2(s)
    case BackLevel3Kind => BackLevel3(s)
    case ContentDescriptionKind => ContentDescription(c, vs[3].num)
    case ContentReadKind => ContentRead(c, vs[3].num, vs[4].num)
    case BackToContentListKind => BackToContentList(c)
    case ContentMediaKind => ContentMedia(c, vs[3].num)
    case SearchKind => Search(s)
    case ContentChoiceKind => ContentChoice(s, vs[3].text)
  }

  /** A token is determined by its kind and its field values. */
  lemma FromFieldsOfFields(t: Token)
    ensures Conforms(Fields(t), Schema(KindOf(t)))
    ensures FromFields(KindOf(t), Fields(t)) == t
  {
    FieldsConform(t);
  }

  // ----------------------------------------------------------------- packing

  /** `_encode_value`: `None` as the empty string, integers in decimal. */
  function Encode(v: FieldValue): string {
    match v
    case OptText(None) => ""
    case OptText(Some(s)) => s
    case Text(s) => s
    case Number(n) => IntToString(n)
  }

  function EncodeAll(vs: seq<FieldValue>): (r: seq<string>)
    ensures |r| == |vs| && forall i :: 0 <= i < |vs| ==> r[i] == Encode(vs[i])
  {
    seq(|vs|, i requires 0 <= i < |vs| => Encode(vs[i]))
  }

  /** No field of the token encodes to text holding the separator. */
  predicate NoSeparator(t: Token) {
    forall i :: 0 <= i < |Fields(t)| ==> Sep !in Encode(Fields(t)[i])
  }

  datatype PackError = Undeclared | SeparatorInValue | TooLong

  /** `CallbackData.pack()`: the prefix and the encoded fields joined by `:`;
      a value holding `:` or a result over 64 UTF-8 bytes is refused. */
  function Pack(t: Token): (r: Result<string, PackError>)
    ensures r.Ok? ==> Declared(KindOf(t)) && NoSeparator(t) && Utf8Length(r.value) <= MaxCallbackLength
    ensures r == Err(SeparatorInValue) <==> Declared(KindOf(t)) && !NoSeparator(t)
    ensures r == Err(TooLong) ==> Declared(KindOf(t)) && Utf8Length(Packed(t)) > MaxCallbackLength
  {
    match Prefix(KindOf(t))
    case None => Err(Undeclared)
    case Some(p) =>
      if !NoSeparator(t) then Err(SeparatorInValue)
      else if Utf8Length(Packed(t)) > MaxCallbackLength then Err(TooLong)
      else Ok(Packed(t))
  }

  /** The joined text of a declared token, before the length check. */
  function Packed(t: Token): string
    requires Declared(KindOf(t))
  {
    Join([Prefix(KindOf(t)).value] + EncodeAll(Fields(t)), Sep)
  }

  lemma PrefixHasNoSeparator(k: Kind)
    requires Declared(k)
    ensures Sep !in Prefix(k).value
  {
  }

  /** A declared token whose values hold no `:` packs unless it is too long. */
  lemma PackSucceeds(t: Token)
    requires Declared(KindOf(t)) && NoSeparator(t)
    ensures Pack(t).Ok? <==> Utf8Length(Packed(t)) <= MaxCallbackLength
    ensures Pack(t).Ok? ==> Pack(t).value == Packed(t)
  {
  }

  /** Integer fields never contain the separator: only text values can. */
  lemma NumbersHaveNoSeparator(n: int)
    ensures Sep !in Encode(Number(n))
  {
    IntToStringHasNo(n, Sep);
  }

  // --------------------------------------------------------------- unpacking

  datatype DecodeError = UnknownPrefix | ArityMismatch | PrefixMismatch | InvalidInteger | NotDeclared

  /** pydantic's reading of one raw part: the empty string is `None` for an
      optional key; an integer field takes integer text in pydantic's lax
      form (`Strings.ParseInt`) and refuses anything else. */
  function DecodeValue(ty: FieldType, s: string): (r: Result<FieldValue, DecodeError>)
    ensures r.Ok? ==> Fits(r.value, ty)
  {
    match ty
    case OptionalText => Ok(OptText(if s == "" then None else Some(s)))
    case RequiredText => Ok(Text(s))
    case Integer =>
      match ParseInt(s)
      case Some(n) => Ok(Number(n))
      case None => Err(InvalidInteger)
  }

  function DecodeAll(schema: seq<Field>, raw: seq<string>): (r: Result<seq<FieldValue>, DecodeError>)
    requires |schema| == |raw|
    ensures r.Ok? ==> Conforms(r.value, schema)
    decreases |raw|
  {
    if raw == [] then Ok([])
    else
      match DecodeValue(schema[0].ty, raw[0])
      case Err(e) => Err(e)
      case Ok(v) =>
        match DecodeAll(schema[1..], raw[1..])
        case Err(e) => Err(e)
        case Ok(vs) => Ok([v] + vs)
  }

  /** `Cls.unpack(data)`: split on `:`, check the arity, then the prefix,
      then read each part as its field's type. */
  function Unpack(k: Kind, data: string): (r: Result<Token, DecodeError>)
    ensures r.Ok? ==> KindOf(r.value) == k && Declared(k)
  {
    var parts := Split(data, Sep);
    if !Declared(k) then Err(NotDeclared)
    else if |parts| - 1 != |Schema(k)| then Err(ArityMismatch)
    else if parts[0] != Prefix(k).value then Err(PrefixMismatch)
    else
      match DecodeAll(Schema(k), parts[1..])
      case Err(e) => Err(e)
      case Ok(vs) => Ok(FromFields(k, vs))
  }

  /** The declared class whose prefix is `p`. */
  function KindByPrefix(p: string): (r: Option<Kind>)
    ensures r.Some? ==> Prefix(r.value) == Some(p)
  {
    if p == "base" then Some(BaseKind)
    else if p == "l1" then Some(Level1Kind)
    else if p == "l2" then Some(Level2Kind)
    else if p == "l3" then Some(Level3Kind)
    else if p == "pag2" then Some(PaginateLevel2Kind)
    else if p == "pag3" then Some(PaginateLevel3Kind)
    else if p == "pag_content" then Some(PaginateContentKind)
    else if p == "back1" then Some(BackLevel1Kind)
    else if p == "back2" then Some(BackLevel2Kind)
    else if p == "back3" then Some(BackLevel3Kind)
    else if p == "content_desc" then Some(ContentDescriptionKind)
    else if p == "content_read" then Some(ContentReadKind)
    else if p == "back_content_list" then Some(BackToContentListKind)
    else if p == "content_media" then Some(ContentMediaKind)
    else None
  }

  /** Distinct classes have distinct prefixes: a prefix names one class. */
  lemma PrefixesDistinct(k: Kind)
    requires Declared(k)
    ensures KindByPrefix(Prefix(k).value) == Some(k)
  {
  }

  /** The pressed button's data as the router sees it: only the filter of the
      class owning the data's prefix can accept it. */
  function Decode(data: string): (r: Result<Token, DecodeError>)
    ensures r.Ok? ==> Prefix(KindOf(r.value)) == Some(Split(data, Sep)[0])
  {
    match KindByPrefix(Split(data, Sep)[0])
    case None => Err(UnknownPrefix)
    case Some(k) => Unpack(k, data)
  }

  // -------------------------------------------------------------- round trip

  /** An optional key holding the empty string comes back as `None`. */
  function NormalizeOpt(o: Option<string>): Option<string> {
    if o == Some("") then None else o
  }

  function NormalizeScope(s: Scope): Scope {
    Scope(NormalizeOpt(s.level1), NormalizeOpt(s.level2), NormalizeOpt(s.level3))
  }

  /** The token with every empty optional key replaced by `None`. */
  function Normalize(t: Token): (r: Token)
    ensures KindOf(r) == KindOf(t)
  {
    match t
    case Base(s) => Base(NormalizeScope(s))
    case Level1(s, c) => Level1(NormalizeScope(s), c)
    case Level2(s, c) => Level2(NormalizeScope(s), c)
    case Level3(s, c) => Level3(NormalizeScope(s), c)
    case PaginateLevel2(s, p) => PaginateLevel2(NormalizeScope(s), p)
    case PaginateLevel3(s, p) => PaginateLevel3(NormalizeScope(s), p)
    case PaginateContent(s, p) => PaginateContent(NormalizeScope(s), p)
    case BackLevel1(s) => BackLevel1(NormalizeScope(s))
    case BackLevel2(s) => BackLevel2(NormalizeScope(s))
    case BackLevel3(s) => BackLevel3(NormalizeScope(s))
    case Search(s) => Search(NormalizeScope(s))
    case ContentChoice(s, i) => ContentChoice(NormalizeScope(s), i)
    case _ => t
  }

  function NormalizeValue(v: FieldValue): FieldValue {
    if v.OptText? then OptText(NormalizeOpt(v.opt)) else v
  }

  function NormalizeAll(vs: seq<FieldValue>): (r: seq<FieldValue>)
    ensures |r| == |vs| && forall i :: 0 <= i < |vs| ==> r[i] == NormalizeValue(vs[i])
    decreases |vs|
  {
    if vs == [] then [] else [NormalizeValue(vs[0])] + NormalizeAll(vs[1..])
  }

  /** No optional key holds the empty string. */
  predicate Canonical(t: Token) {
    Normalize(t) == t
  }

  /** Values without an optional key are left alone. */
  lemma {:induction false} NormalizeAllFixed(vs: seq<FieldValue>)
    requires forall i :: 0 <= i < |vs| ==> !vs[i].OptText?
    ensures NormalizeAll(vs) == vs
  {
    var r := NormalizeAll(vs);
    forall i | 0 <= i < |vs|
      ensures r[i] == vs[i]
    {
      assert r[i] == NormalizeValue(vs[i]);
    }
  }

  /** Normalising a scope's values normalises the scope; other values stay. */
  lemma {:induction false} NormalizeScopeFields(s: Scope, extra: seq<FieldValue>)
    requires forall i :: 0 <= i < |extra| ==> !extra[i].OptText?
    ensures NormalizeAll(ScopeFields(s) + extra) == ScopeFields(NormalizeScope(s)) + extra
  {
    var vs, target := ScopeFields(s) + extra, ScopeFields(NormalizeScope(s)) + extra;
    var r := NormalizeAll(vs);
    forall i | 0 <= i < |vs|
      ensures r[i] == target[i]
    {
      assert r[i] == NormalizeValue(vs[i]);
      if i == 0 {
        assert vs[i] == OptText(s.level1) && target[i] == OptText(NormalizeOpt(s.level1));
      } else if i == 1 {
        assert vs[i] == OptText(s.level2) && target[i] == OptText(NormalizeOpt(s.level2));
      } else if i == 2 {
        assert vs[i] == OptText(s.level3) && target[i] == OptText(NormalizeOpt(s.level3));
      } else {
        assert vs[i] == extra[i - 3] && target[i] == extra[i - 3];
      }
    }
  }

  /** A content scope holds no optional values. */
  lemma {:induction false} NormalizeContentFields(c: ContentScope, extra: seq<FieldValue>)
    requires forall i :: 0 <= i < |extra| ==> !extra[i].OptText?
    ensures NormalizeAll(ContentFields(c) + extra) == ContentFields(c) + extra
  {
    var vs := ContentFields(c) + extra;
    forall i | 0 <= i < |vs|
      ensures !vs[i].OptText?
    {
      if i >= 3 {
        assert vs[i] == extra[i - 3];
      }
    }
    NormalizeAllFixed(vs);
  }

  /** `NormalizeFields` for the tokens that carry a choice or nothing extra. */
  lemma {:induction false} ChoiceNormalizeFields(t: Token)
    requires t.Base? || t.Level1? || t.Level2? || t.Level3? || t.Search? || t.ContentChoice?
    ensures Fields(Normalize(t)) == NormalizeAll(Fields(t))
  {
    match t
    case Base(s) => NormalizeScopeFields(s, []);
    case Level1(s, c) => NormalizeScopeFields(s, [Text(c)]);
    case Level2(s, c) => NormalizeScopeFields(s, [Text(c)]);
    case Level3(s, c) => NormalizeScopeFields(s, [Text(c)]);
    case Search(s) => NormalizeScopeFields(s, []);
    case ContentChoice(s, i) => NormalizeScopeFields(s, [Text(i)]);
  }

  /** `NormalizeFields` for the tokens that name a piece of content. */
  lemma {:induction false} ContentNormalizeFields(t: Token)
    requires t.ContentDescription? || t.ContentRead? || t.BackToContentList? || t.ContentMedia?
    ensures Fields(Normalize(t)) == NormalizeAll(Fields(t))
  {
    match t
    case ContentDescription(c, i) => NormalizeContentFields(c, [Number(i)]);
    case ContentRead(c, i, p) => NormalizeContentFields(c, [Number(i), Number(p)]);
    case BackToContentList(c) => NormalizeContentFields(c, []);
    case ContentMedia(c, i) => NormalizeContentFields(c, [Number(i)]);
  }

  /** `NormalizeFields` for the paging tokens. */
  lemma {:induction false} PagingNormalizeFields(t: Token)
    requires t.PaginateLevel2? || t.PaginateLevel3? || t.PaginateContent?
    ensures Fields(Normalize(t)) == NormalizeAll(Fields(t))
  {
    match t
    case PaginateLevel2(s, p) => NormalizeScopeFields(s, [Number(p)]);
    case PaginateLevel3(s, p) => NormalizeScopeFields(s, [Number(p)]);
    case PaginateContent(s, p) => NormalizeScopeFields(s, [Number(p)]);
  }

  /** `NormalizeFields` for the back tokens. */
  lemma {:induction false} BackNormalizeFields(t: Token)
    requires t.BackLevel1? || t.BackLevel2? || t.BackLevel3?
    ensures Fields(Normalize(t)) == NormalizeAll(Fields(t))
  {
    match t
    case BackLevel1(s) => NormalizeScopeFields(s, []);
    case BackLevel2(s) => NormalizeScopeFields(s, []);
    case BackLevel3(s) => NormalizeScopeFields(s, []);
  }

  /** Dumping a normalised token gives the normalised dump. */
  lemma {:induction false} NormalizeFields(t: Token)
    ensures Fields(Normalize(t)) == NormalizeAll(Fields(t))
  {
    if t.Base? || t.Level1? || t.Level2? || t.Level3? || t.Search? || t.ContentChoice? {
      ChoiceNormalizeFields(t);
    } else if t.ContentDescription? || t.ContentRead? || t.BackToContentList? || t.ContentMedia? {
      ContentNormalizeFields(t);
    } else if t.PaginateLevel2? || t.PaginateLevel3? || t.PaginateContent? {
      PagingNormalizeFields(t);
    } else {
      BackNormalizeFields(t);
    }
  }

  lemma {:induction false} DecodeEncoded(schema: seq<Field>, vs: seq<FieldValue>)
    requires Conforms(vs, schema)
    ensures DecodeAll(schema, EncodeAll(vs)) == Ok(NormalizeAll(vs))
    decreases |vs|
  {
    if vs != [] {
      DecodeEncoded(schema[1..], vs[1..]);
      assert EncodeAll(vs)[1..] == EncodeAll(vs[1..]);
      DecodeValueEncoded(schema[0].ty, vs[0]);
    }
  }

  /** One value reads back as itself, an empty optional key as `None`. */
  lemma DecodeValueEncoded(ty: FieldType, v: FieldValue)
    requires Fits(v, ty)
    ensures DecodeValue(ty, Encode(v)) == Ok(NormalizeValue(v))
  {
    if v.Number? {
      ParseIntToString(v.num);
    }
  }

  /** Splitting the packed text on `:` gives back the prefix and the parts. */
  lemma SplitPacked(t: Token)
    requires Declared(KindOf(t)) && NoSeparator(t)
    ensures Split(Packed(t), Sep) == [Prefix(KindOf(t)).value] + EncodeAll(Fields(t))
  {
    var enc := EncodeAll(Fields(t));
    var parts := [Prefix(KindOf(t)).value] + enc;
    PrefixHasNoSeparator(KindOf(t));
    forall j | 0 <= j < |parts| ensures Sep !in parts[j] {
      if j > 0 { assert parts[j] == Encode(Fields(t)[j - 1]); }
    }
    SplitJoin(parts, Sep);
  }

  /** Unpacking a packed token gives it back, except that an optional key
      holding the empty string becomes `None`. */
  lemma PackUnpack(t: Token)
    requires Pack(t).Ok?
    ensures Unpack(KindOf(t), Pack(t).value) == Ok(Normalize(t))
    ensures Decode(Pack(t).value) == Ok(Normalize(t))
  {
    var k := KindOf(t);
    var parts := Split(Pack(t).value, Sep);
    SplitPacked(t);
    assert parts[0] == Prefix(k).value;
    assert parts[1..] == EncodeAll(Fields(t));
    FieldsConform(t);
    DecodeEncoded(Schema(k), Fields(t));
    NormalizeFields(t);
    FromFieldsOfFields(Normalize(t));
    PrefixesDistinct(k);
  }

  /** The round trip is exact for canonical tokens. */
  lemma PackUnpackCanonical(t: Token)
    requires Pack(t).Ok? && Canonical(t)
    ensures Decode(Pack(t).value) == Ok(t)
  {
    PackUnpack(t);
  }

  /** The Back token of a scope whose first key is the empty string packs
      to the prefix and three empty fields, and is not canonical. */
  lemma PackEmptyKey()
    ensures Pack(BackLevel1(Scope(Some(""), None, None))) == Ok("back1:::")
    ensures !Canonical(BackLevel1(Scope(Some(""), None, None)))
  {
    var t := BackLevel1(Scope(Some(""), None, None));
    assert Fields(t) == [OptText(Some("")), OptText(None), OptText(None)];
    assert EncodeAll(Fields(t)) == ["", "", ""];
    assert NoSeparator(t);
    assert Packed(t) == "back1:::" by {
      assert Join(["", ""], Sep) == ":";
      assert Join(["", "", ""], Sep) == "::";
      assert Join(["back1", "", "", ""], Sep) == "back1:::";
    }
    assert Utf8Length("back1:::") <= MaxCallbackLength;
    assert Normalize(t).scope.level1 == None;
  }

  /** A packable token holding an empty optional key does not survive the
      round trip: it decodes with that key set to `None`. */
  lemma EmptyKeyIsLost(t: Token)
    requires Pack(t).Ok? && !Canonical(t)
    ensures Decode(Pack(t).value).Ok? && Decode(Pack(t).value) != Ok(t)
    ensures Decode(Pack(t).value) == Ok(Normalize(t))
  {
    PackUnpack(t);
  }
}
