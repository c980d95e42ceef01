/** The content-file API serializer (`api/serializers.py`): the validator
    that decides between an uploaded file and an external link, the file
    size bound, the conversion of a loosely typed relation list into rows of
    `Category`, `Topic` or `Path`, and the relation rules of `create` and
    `update`. `json.loads` and the text form of values that are neither
    strings nor integers are parameters. */
module Serializers {
  import opened Wrappers
  import opened Strings
  import opened ContentModels

  // ------------------------------------------------------------------- JSON

  /** A parsed JSON value; a dictionary's entries are in insertion order
      with distinct keys, as `json.loads` builds them. */
  datatype Json =
    | JNull
    | JBool(b: bool)
    | JInt(i: int)
    | JFloat(r: real)
    | JStr(s: string)
    | JList(items: seq<Json>)
    | JDict(entries: seq<(string, Json)>)

  /** Python truthiness. */
  predicate Truthy(j: Json) {
    match j
    case JNull => false
    case JBool(b) => b
    case JInt(i) => i != 0
    case JFloat(r) => r != 0.0
    case JStr(s) => s != ""
    case JList(xs) => xs != []
    case JDict(es) => es != []
  }

  /** `d.get(key)`: `None` when the key is missing. */
  function Get(entries: seq<(string, Json)>, key: string): (r: Json)
    ensures r != JNull ==> exists k :: 0 <= k < |entries| && entries[k] == (key, r)
    decreases |entries|
  {
    if entries == [] then JNull
    else if entries[0].0 == key then entries[0].1
    else
      var r := Get(entries[1..], key);
      assert r != JNull ==> exists k :: 0 <= k < |entries| - 1 && entries[1..][k] == (key, r);
      r
  }

  /** `type(v).__name__`. */
  function TypeName(j: Json): string {
    match j
    case JNull => "NoneType"
    case JBool(_) => "bool"
    case JInt(_) => "int"
    case JFloat(_) => "float"
    case JStr(_) => "str"
    case JList(_) => "list"
    case JDict(_) => "dict"
  }

  /** `int(x)` for a float: truncation toward zero. */
  function Truncate(x: real): int {
    if x >= 0.0 then x.Floor else -((-x).Floor)
  }

  /** Truncation drops the fraction and keeps the sign. */
  lemma TruncateTowardZero(x: real)
    ensures x >= 0.0 ==> 0 <= Truncate(x) && Truncate(x) as real <= x < Truncate(x) as real + 1.0
    ensures x < 0.0 ==> Truncate(x) <= 0 && Truncate(x) as real - 1.0 < x <= Truncate(x) as real
  {
  }

  // --------------------------------------------------------- classification

  datatype SerializerError =
    | FieldError(field: string, message: string)
    | NotIterable(typeName: string)

  const DictMessage: string := "Объект должен содержать поле \"name\" или \"id\""
  const TypeMessage: string := "Ожидалось название (строка), ID (число) или объект с полем \"name\"/\"id\", получен "

  /** The search value of one item: a dictionary's `name`, else its `id`;
      a string as is; a number, `true` and `false` included (a `bool` is an
      `int` to `isinstance`), as `int`; anything else is refused. */
  function Classify(item: Json, field: string): (r: Result<Json, SerializerError>)
    ensures item.JDict? ==> (r.Err? <==> !Truthy(Get(item.entries, "name")) && !Truthy(Get(item.entries, "id")))
    ensures item.JDict? && Truthy(Get(item.entries, "name")) ==> r == Ok(Get(item.entries, "name"))
    ensures item.JDict? && !Truthy(Get(item.entries, "name")) && r.Ok? ==> r == Ok(Get(item.entries, "id"))
    ensures item.JStr? || item.JInt? ==> r == Ok(item)
    ensures item.JBool? ==> r == Ok(JInt(if item.b then 1 else 0))
    ensures item.JFloat? ==> r == Ok(JInt(Truncate(item.r)))
    ensures item.JNull? || item.JList? ==> r == Err(FieldError(field, TypeMessage + TypeName(item)))
    ensures r.Ok? ==> Truthy(r.value) || !item.JDict?
  {
    match item
    case JDict(es) =>
      var v := if Truthy(Get(es, "name")) then Get(es, "name") else Get(es, "id");
      if !Truthy(v) then Err(FieldError(field, DictMessage)) else Ok(v)
    case JStr(_) => Ok(item)
    case JInt(_) => Ok(item)
    case JBool(b) => Ok(JInt(if b then 1 else 0))
    case JFloat(x) => Ok(JInt(Truncate(x)))
    case _ => Err(FieldError(field, TypeMessage + TypeName(item)))
  }

  /** How a row is looked up. */
  datatype LookupKey = ByPk(pk: int) | ByName(name: string)

  /** By primary key for an integer or a string of digits, otherwise by
      name; a value that is not a string is compared as its text `show(v)`. */
  function KeyOf(v: Json, show: Json -> string): LookupKey {
    match v
    case JInt(i) => ByPk(i)
    case JBool(b) => ByPk(if b then 1 else 0)
    case JStr(s) => if IsDigits(s) then ByPk(ParseDigits(s)) else ByName(s)
    case _ => ByName(show(v))
  }

  /** A string names a row unless it is all digits; the decimal text of a
      key looks that key up. */
  lemma KeyOfStrings(s: string, n: nat, show: Json -> string)
    ensures KeyOf(JStr(s), show).ByName? <==> !IsDigits(s)
    ensures KeyOf(JStr(NatToString(n)), show) == ByPk(n)
    ensures KeyOf(JInt(n), show) == KeyOf(JStr(NatToString(n)), show)
  {
    ParseNatToString(n);
  }

  /** `str(v)` in the not-found message. */
  function Show(v: Json, show: Json -> string): string {
    match v
    case JInt(i) => IntToString(i)
    case JStr(s) => s
    case _ => show(v)
  }

  /** The row with the key, if any (`model.objects.get`). */
  function Lookup(rows: seq<Section>, key: LookupKey): (r: Option<Section>)
    ensures r.Some? ==> r.value in rows
    ensures r.Some? && key.ByPk? ==> r.value.id == key.pk
    ensures r.Some? && key.ByName? ==> r.value.name == key.name
    ensures r.None? ==> forall k :: 0 <= k < |rows| ==> !(if key.ByPk? then rows[k].id == key.pk else rows[k].name == key.name)
    decreases |rows|
  {
    if rows == [] then None
    else if (if key.ByPk? then rows[0].id == key.pk else rows[0].name == key.name) then Some(rows[0])
    else
      var r := Lookup(rows[1..], key);
      assert forall k :: 1 <= k < |rows| ==> rows[k] == rows[1..][k - 1];
      r
  }

  /** One related table: its rows, its model's name and the payload field. */
  datatype RelatedTable = RelatedTable(rows: seq<Section>, model: string, field: string)

  /** `_get_object_from_item`. */
  function Resolve(item: Json, t: RelatedTable, show: Json -> string): (r: Result<Section, SerializerError>)
    ensures r.Ok? ==> r.value in t.rows
    ensures Classify(item, t.field).Err? ==> r == Err(Classify(item, t.field).error)
    ensures Classify(item, t.field).Ok? ==>
      (r.Ok? <==> Lookup(t.rows, KeyOf(Classify(item, t.field).value, show)).Some?)
    ensures Classify(item, t.field).Ok? && r.Ok? ==>
      Lookup(t.rows, KeyOf(Classify(item, t.field).value, show)) == Some(r.value)
    ensures Classify(item, t.field).Ok? && r.Err? ==>
      r.error == FieldError(t.field, t.model + " \"" + Show(Classify(item, t.field).value, show) + "\" не найден")
  {
    match Classify(item, t.field)
    case Err(e) => Err(e)
    case Ok(v) =>
      match Lookup(t.rows, KeyOf(v, show))
      case None => Err(FieldError(t.field, t.model + " \"" + Show(v, show) + "\" не найден"))
      case Some(row) => Ok(row)
  }

  // ------------------------------------------------------------- conversion

  /** `for item in v`: a list's elements, a dictionary's keys, a string's
      characters; other values are not iterable. */
  function Elements(v: Json): (r: Result<seq<Json>, SerializerError>)
    ensures r.Err? <==> v.JNull? || v.JBool? || v.JInt? || v.JFloat?
    ensures v.JList? ==> r == Ok(v.items)
  {
    match v
    case JList(xs) => Ok(xs)
    case JDict(es) => Ok(seq(|es|, k requires 0 <= k < |es| => JStr(es[k].0)))
    case JStr(s) => Ok(seq(|s|, k requires 0 <= k < |s| => JStr([s[k]])))
    case _ => Err(NotIterable(TypeName(v)))
  }

  /** A string that starts, after white space, with `[` or `{`. */
  predicate LooksLikeJson(s: string) {
    StartsWith(Strip(s), "[") || StartsWith(Strip(s), "{")
  }

  /** The items one element stands for: a JSON list string stands for its
      elements, a JSON object string for the object, anything else for
      itself. */
  function ExpandItem(item: Json, parse: string -> Option<Json>): seq<Json> {
    if item.JStr? && LooksLikeJson(item.s) then
      match parse(item.s)
      case Some(JList(xs)) => xs
      case Some(JDict(es)) => [JDict(es)]
      case _ => [item]
    else [item]
  }

  function ExpandAll(items: seq<Json>, parse: string -> Option<Json>): seq<Json>
    decreases |items|
  {
    if items == [] then []
    else ExpandAll(items[..|items| - 1], parse) + ExpandItem(items[|items| - 1], parse)
  }

  /** Expansion keeps the order of the elements: it distributes over
      concatenation. */
  lemma {:induction false} ExpandAllAppend(a: seq<Json>, b: seq<Json>, parse: string -> Option<Json>)
    ensures ExpandAll(a + b, parse) == ExpandAll(a, parse) + ExpandAll(b, parse)
    decreases |b|
  {
    if b != [] {
      var b' := b[..|b| - 1];
      assert (a + b)[..|a + b| - 1] == a + b';
      ExpandAllAppend(a, b', parse);
    } else {
      assert a + b == a;
    }
  }

  /** Every item resolved in order; the first failure is the result. */
  function ResolveAll(items: seq<Json>, t: RelatedTable, show: Json -> string): Result<seq<Section>, SerializerError>
    decreases |items|
  {
    if items == [] then Ok([])
    else
      match ResolveAll(items[..|items| - 1], t, show)
      case Err(e) => Err(e)
      case Ok(rs) =>
        match Resolve(items[|items| - 1], t, show)
        case Err(e) => Err(e)
        case Ok(row) => Ok(rs + [row])
  }

  /** A successful conversion holds one row per item, the item's own. */
  lemma {:induction false} ResolveAllValues(items: seq<Json>, t: RelatedTable, show: Json -> string)
    ensures var r := ResolveAll(items, t, show);
      r.Ok? ==> |r.value| == |items| && forall k :: 0 <= k < |items| ==> Resolve(items[k], t, show) == Ok(r.value[k])
    decreases |items|
  {
    if items != [] {
      var n := |items| - 1;
      var init := items[..n];
      assert items == init + [items[n]];
      ResolveAllSnoc(init, items[n], t, show);
      ResolveAllValues(init, t, show);
      var prev := ResolveAll(init, t, show);
      var last := Resolve(items[n], t, show);
      if prev.Ok? && last.Ok? {
        var r := prev.value + [last.value];
        assert ResolveAll(items, t, show) == Ok(r);
        forall k | 0 <= k < n
          ensures Resolve(items[k], t, show) == Ok(r[k])
        {
          assert items[k] == init[k] && r[k] == prev.value[k];
        }
      }
    }
  }

  /** When every item resolves, so does the list. */
  lemma {:induction false} ResolveAllSucceeds(items: seq<Json>, t: RelatedTable, show: Json -> string)
    requires forall k :: 0 <= k < |items| ==> Resolve(items[k], t, show).Ok?
    ensures ResolveAll(items, t, show).Ok?
    decreases |items|
  {
    if items != [] {
      var n := |items| - 1;
      var init := items[..n];
      assert items == init + [items[n]];
      assert forall k :: 0 <= k < n ==> init[k] == items[k];
      ResolveAllSucceeds(init, t, show);
      ResolveAllSnoc(init, items[n], t, show);
    }
  }

  /** The list converts exactly when every item resolves, to the items'
      rows in order. */
  lemma ResolveAllOk(items: seq<Json>, t: RelatedTable, show: Json -> string)
    ensures var r := ResolveAll(items, t, show);
      (r.Ok? <==> forall k :: 0 <= k < |items| ==> Resolve(items[k], t, show).Ok?)
      && (r.Ok? ==> |r.value| == |items| && forall k :: 0 <= k < |items| ==> Resolve(items[k], t, show) == Ok(r.value[k]))
  {
    ResolveAllValues(items, t, show);
    if forall k :: 0 <= k < |items| ==> Resolve(items[k], t, show).Ok? {
      ResolveAllSucceeds(items, t, show);
    }
  }

  /** A failed conversion carries the error of the first item that does
      not resolve. */
  lemma {:induction false} ResolveAllFirstError(items: seq<Json>, t: RelatedTable, show: Json -> string)
    ensures var r := ResolveAll(items, t, show);
      r.Err? ==>
        exists k :: (0 <= k < |items| && Resolve(items[k], t, show) == Err(r.error)
                     && forall j :: 0 <= j < k ==> Resolve(items[j], t, show).Ok?)
    decreases |items|
  {
    if items != [] {
      var n := |items| - 1;
      var init := items[..n];
      assert items == init + [items[n]];
      ResolveAllSnoc(init, items[n], t, show);
      assert forall k :: 0 <= k < n ==> init[k] == items[k];
      var prev := ResolveAll(init, t, show);
      var last := Resolve(items[n], t, show);
      if prev.Err? {
        ResolveAllFirstError(init, t, show);
        var k :| 0 <= k < n && Resolve(init[k], t, show) == Err(prev.error)
                 && forall j :: 0 <= j < k ==> Resolve(init[j], t, show).Ok?;
        assert Resolve(items[k], t, show) == Err(prev.error);
      } else if last.Err? {
        ResolveAllValues(init, t, show);
        assert forall j :: 0 <= j < n ==> Resolve(items[j], t, show).Ok?;
      }
    }
  }

  /** The list converts exactly when every item resolves, to the items'
      rows in order; otherwise the error is that of the first item that
      does not resolve. */
  lemma ResolveAllMeaning(items: seq<Json>, t: RelatedTable, show: Json -> string)
    ensures var r := ResolveAll(items, t, show);
      (r.Ok? <==> forall k :: 0 <= k < |items| ==> Resolve(items[k], t, show).Ok?)
      && (r.Ok? ==> |r.value| == |items| && forall k :: 0 <= k < |items| ==> Resolve(items[k], t, show) == Ok(r.value[k]))
      && (r.Err? ==>
            exists k :: (0 <= k < |items| && Resolve(items[k], t, show) == Err(r.error)
                         && forall j :: 0 <= j < k ==> Resolve(items[j], t, show).Ok?))
  {
    ResolveAllOk(items, t, show);
    ResolveAllFirstError(items, t, show);
  }

  /** Once a prefix fails, nothing after it is looked at. */
  lemma {:induction false} ResolveAllStops(a: seq<Json>, b: seq<Json>, t: RelatedTable, show: Json -> string)
    requires ResolveAll(a, t, show).Err?
    ensures ResolveAll(a + b, t, show) == ResolveAll(a, t, show)
    decreases |b|
  {
    if b != [] {
      var b' := b[..|b| - 1];
      assert (a + b)[..|a + b| - 1] == a + b';
      ResolveAllStops(a, b', t, show);
    } else {
      assert a + b == a;
    }
  }

  /** `_convert_to_objects`: a falsy input is the empty list; a string is
      parsed as JSON, or stands for one name when it is not JSON; the
      elements are expanded and resolved in order. */
  function Convert(data: Json, t: RelatedTable, parse: string -> Option<Json>, show: Json -> string): Result<seq<Section>, SerializerError> {
    if !Truthy(data) then Ok([])
    else
      var list := if data.JStr? then parse(data.s).GetOr(JList([data])) else data;
      match Elements(list)
      case Err(e) => Err(e)
      case Ok(items) => ResolveAll(ExpandAll(items, parse), t, show)
  }

  /** An empty or missing list converts to no rows. */
  lemma ConvertFalsy(data: Json, t: RelatedTable, parse: string -> Option<Json>, show: Json -> string)
    requires !Truthy(data)
    ensures Convert(data, t, parse, show) == Ok([])
  {
  }

  /** A non-JSON string is one name (or digit key). */
  lemma ConvertPlainString(s: string, t: RelatedTable, parse: string -> Option<Json>, show: Json -> string)
    requires s != "" && parse(s).None?
    ensures Resolve(JStr(s), t, show).Ok? ==> Convert(JStr(s), t, parse, show) == Ok([Resolve(JStr(s), t, show).value])
    ensures Resolve(JStr(s), t, show).Err? ==> Convert(JStr(s), t, parse, show) == Err(Resolve(JStr(s), t, show).error)
  {
    var item := JStr(s);
    assert ExpandItem(item, parse) == [item];
    assert [item][..0] == [];
    assert ExpandAll([item], parse) == [item];
    assert Elements(JList([item])) == Ok([item]);
    assert Convert(item, t, parse, show) == ResolveAll([item], t, show);
    assert [item][..|[item]| - 1] == [];
    assert ResolveAll([], t, show) == Ok([]);
    if Resolve(item, t, show).Ok? {
      assert [] + [Resolve(item, t, show).value] == [Resolve(item, t, show).value];
    }
  }

  /** Two elements expand to the first's items followed by the second's. */
  lemma ExpandPair(x: Json, y: Json, parse: string -> Option<Json>)
    ensures ExpandAll([x, y], parse) == ExpandItem(x, parse) + ExpandItem(y, parse)
  {
    assert [x][..0] == [];
    assert ExpandAll([x], parse) == ExpandItem(x, parse);
    assert [x, y][..1] == [x];
  }

  /** A non-empty list converts through the expansion of its elements. */
  lemma ConvertList(items: seq<Json>, t: RelatedTable, parse: string -> Option<Json>, show: Json -> string)
    requires items != []
    ensures Convert(JList(items), t, parse, show) == ResolveAll(ExpandAll(items, parse), t, show)
  {
    assert Elements(JList(items)) == Ok(items);
  }

  /** A list whose elements are JSON list strings is flattened in order:
      the rows are those of the elements' elements, one after another. */
  lemma ConvertFlattens(xs: seq<Json>, ys: seq<Json>, sx: string, sy: string, t: RelatedTable,
                        parse: string -> Option<Json>, show: Json -> string)
    requires LooksLikeJson(sx) && parse(sx) == Some(JList(xs))
    requires LooksLikeJson(sy) && parse(sy) == Some(JList(ys))
    ensures Convert(JList([JStr(sx), JStr(sy)]), t, parse, show) == ResolveAll(xs + ys, t, show)
  {
    var items := [JStr(sx), JStr(sy)];
    ExpandPair(JStr(sx), JStr(sy), parse);
    ConvertList(items, t, parse, show);
  }

  /** Resolving one more item after a prefix. */
  lemma {:induction false} ResolveAllSnoc(a: seq<Json>, x: Json, t: RelatedTable, show: Json -> string)
    ensures ResolveAll(a + [x], t, show) ==
      match ResolveAll(a, t, show)
      case Err(e) => Err(e)
      case Ok(rs) =>
        match Resolve(x, t, show)
        case Err(e) => Err(e)
        case Ok(row) => Ok(rs + [row])
  {
    var items := a + [x];
    assert items[..|items| - 1] == a;
    assert items[|items| - 1] == x;
  }

  /** Cutting a list after its `j`-th element. */
  lemma SplitAfter<T>(done: seq<T>, batch: seq<T>, j: nat)
    requires j < |batch|
    ensures done + batch[..j + 1] == (done + batch[..j]) + [batch[j]]
    ensures (done + batch[..j + 1]) + batch[j + 1..] == done + batch
  {
    assert batch[..j + 1] == batch[..j] + [batch[j]];
    assert batch[..j + 1] + batch[j + 1..] == batch;
  }

  /** One more lookup in the inner loop: a failure is the failure of the
      whole batch, a success appends its row. */
  lemma {:induction false} ResolveBatchStep(done: seq<Json>, batch: seq<Json>, j: nat, found: seq<Section>, t: RelatedTable, show: Json -> string)
    requires j < |batch| && ResolveAll(done + batch[..j], t, show) == Ok(found)
    ensures Resolve(batch[j], t, show).Err? ==>
      ResolveAll(done + batch, t, show) == Err(Resolve(batch[j], t, show).error)
    ensures Resolve(batch[j], t, show).Ok? ==>
      ResolveAll(done + batch[..j + 1], t, show) == Ok(found + [Resolve(batch[j], t, show).value])
  {
    SplitAfter(done, batch, j);
    ResolveAllSnoc(done + batch[..j], batch[j], t, show);
    if Resolve(batch[j], t, show).Err? {
      ResolveAllStops(done + batch[..j + 1], batch[j + 1..], t, show);
    }
  }

  /** The serializer's inner loop: the rows of one element's expansion
      are looked up in turn after those already found; the first failure
      ends the conversion. */
  method ResolveBatch(done: seq<Json>, batch: seq<Json>, found: seq<Section>, t: RelatedTable, show: Json -> string)
    returns (r: Result<seq<Section>, SerializerError>)
    requires ResolveAll(done, t, show) == Ok(found)
    ensures r == ResolveAll(done + batch, t, show)
  {
    var result := found;
    var j := 0;
    assert done + batch[..0] == done;
    while j < |batch|
      invariant 0 <= j <= |batch|
      invariant ResolveAll(done + batch[..j], t, show) == Ok(result)
    {
      var obj := Resolve(batch[j], t, show);
      ResolveBatchStep(done, batch, j, result, t, show);
      if obj.Err? {
        return Err(obj.error);
      }
      result := result + [obj.value];
      j := j + 1;
    }
    assert batch[..j] == batch;
    r := Ok(result);
  }

  /** One more element adds its expansion after the earlier ones. */
  lemma ExpandStep(items: seq<Json>, i: nat, parse: string -> Option<Json>)
    requires i < |items|
    ensures ExpandAll(items[..i + 1], parse) == ExpandAll(items[..i], parse) + ExpandItem(items[i], parse)
  {
    assert items[..i + 1][..i] == items[..i];
  }

  /** A failure within the first elements is the failure of the whole list. */
  lemma StopsAt(items: seq<Json>, i: nat, t: RelatedTable, parse: string -> Option<Json>, show: Json -> string)
    requires i <= |items|
    requires ResolveAll(ExpandAll(items[..i], parse), t, show).Err?
    ensures ResolveAll(ExpandAll(items, parse), t, show) == ResolveAll(ExpandAll(items[..i], parse), t, show)
  {
    var head, tail := items[..i], items[i..];
    var a, b := ExpandAll(head, parse), ExpandAll(tail, parse);
    assert ExpandAll(items, parse) == a + b by {
      assert head + tail == items;
      ExpandAllAppend(head, tail, parse);
    }
    assert ResolveAll(a + b, t, show) == ResolveAll(a, t, show) by {
      ResolveAllStops(a, b, t, show);
    }
  }

  /** The serializer's outer loop over the elements. */
  method ResolveElements(items: seq<Json>, t: RelatedTable, parse: string -> Option<Json>, show: Json -> string)
    returns (r: Result<seq<Section>, SerializerError>)
    ensures r == ResolveAll(ExpandAll(items, parse), t, show)
  {
    var result: seq<Section> := [];
    var i := 0;
    while i < |items|
      invariant 0 <= i <= |items|
      invariant ResolveAll(ExpandAll(items[..i], parse), t, show) == Ok(result)
    {
      ExpandStep(items, i, parse);
      var step := ResolveBatch(ExpandAll(items[..i], parse), ExpandItem(items[i], parse), result, t, show);
      if step.Err? {
        StopsAt(items, i + 1, t, parse, show);
        return step;
      }
      result := step.value;
      i := i + 1;
    }
    assert items[..i] == items;
    r := Ok(result);
  }

  /** `_convert_to_objects` as the serializer runs it. */
  method ConvertToObjects(data: Json, t: RelatedTable, parse: string -> Option<Json>, show: Json -> string)
    returns (r: Result<seq<Section>, SerializerError>)
    ensures r == Convert(data, t, parse, show)
  {
    if !Truthy(data) {
      return Ok([]);
    }
    var list := data;
    if data.JStr? {
      var parsed := parse(data.s);
      list := if parsed.Some? then parsed.value else JList([data]);
    }
    var elements := Elements(list);
    if elements.Err? {
      return Err(elements.error);
    }
    r := ResolveElements(elements.value, t, parse, show);
  }

  // ------------------------------------------------------------- validation

  /** A payload value: null, text, or an uploaded file. An upload is truthy
      when it has a name. */
  datatype Value = Null | Text(text: string) | Upload(name: string, size: nat)

  predicate ValueTruthy(v: Value) {
    match v
    case Null => false
    case Text(s) => s != ""
    case Upload(n, _) => n != ""
  }

  /** `data.get(key)`. */
  function ValueOf(data: map<string, Value>, key: string): Value {
    if key in data then data[key] else Null
  }

  /** The link file type the validator compares against. */
  const LinkType: string := "LINK"

  predicate IsLink(data: map<string, Value>) {
    ValueOf(data, "file_type") == Text(LinkType)
  }

  const LinkMessage: string := "Для типа LINK необходимо указать URL"
  const FileMessage: string := "Для файловых типов необходимо загрузить файл"

  /** `validate`: a link needs a URL and drops any file; any other type
      needs a file and drops any URL; on update (an existing instance) a
      missing one is accepted. */
  function Validated(data: map<string, Value>, hasInstance: bool): (r: Result<map<string, Value>, SerializerError>)
    ensures IsLink(data) ==> (r.Err? <==> !ValueTruthy(ValueOf(data, "external_url")) && !hasInstance)
    ensures !IsLink(data) ==> (r.Err? <==> !ValueTruthy(ValueOf(data, "file")) && !hasInstance)
    ensures r.Err? ==> r.error == if IsLink(data) then FieldError("external_url", LinkMessage) else FieldError("file", FileMessage)
    ensures r.Ok? ==>
      (r.value.Keys >= data.Keys
       && forall k :: k in data && k != "file" && k != "external_url" ==> r.value[k] == data[k])
  {
    var url := ValueOf(data, "external_url");
    var file := ValueOf(data, "file");
    if IsLink(data) then
      if !ValueTruthy(url) && !hasInstance then Err(FieldError("external_url", LinkMessage))
      else if ValueTruthy(url) then Ok(data["file" := Null])
      else Ok(data)
    else
      if !ValueTruthy(file) && !hasInstance then Err(FieldError("file", FileMessage))
      else if ValueTruthy(file) then Ok(data["external_url" := Null])
      else Ok(data)
  }

  /** A validated payload never carries both a file and a URL, and on
      update a payload with neither passes through unchanged. */
  lemma ValidatedExclusive(data: map<string, Value>, hasInstance: bool)
    ensures var r := Validated(data, hasInstance);
      r.Ok? ==> !(ValueTruthy(ValueOf(r.value, "file")) && ValueTruthy(ValueOf(r.value, "external_url")))
    ensures hasInstance && !ValueTruthy(ValueOf(data, "file")) && !ValueTruthy(ValueOf(data, "external_url")) ==>
      Validated(data, hasInstance) == Ok(data)
  {
  }

  /** Validating twice changes nothing more. */
  lemma ValidatedIdempotent(data: map<string, Value>, hasInstance: bool)
    requires Validated(data, hasInstance).Ok?
    ensures Validated(Validated(data, hasInstance).value, hasInstance) == Validated(data, hasInstance)
  {
    var d := Validated(data, hasInstance).value;
    assert ValueOf(d, "file_type") == ValueOf(data, "file_type");
    if IsLink(data) && ValueTruthy(ValueOf(data, "external_url")) {
      assert ValueOf(d, "external_url") == ValueOf(data, "external_url");
      assert d["file" := Null] == d;
    } else if !IsLink(data) && ValueTruthy(ValueOf(data, "file")) {
      assert ValueOf(d, "file") == ValueOf(data, "file");
      assert d["external_url" := Null] == d;
    }
  }

  /** The serializer's `data` dictionary, which `validate` edits in place. */
  class Payload {
    var data: map<string, Value>

    constructor(data: map<string, Value>)
      ensures this.data == data
    {
      this.data := data;
    }

    method Validate(hasInstance: bool) returns (r: Result<(), SerializerError>)
      modifies this
      ensures Validated(old(data), hasInstance).Ok? ==> r == Ok(()) && data == Validated(old(data), hasInstance).value
      ensures Validated(old(data), hasInstance).Err? ==> r == Err(Validated(old(data), hasInstance).error) && data == old(data)
    {
      var fileType := ValueOf(data, "file_type");
      var file := ValueOf(data, "file");
      var url := ValueOf(data, "external_url");
      if fileType == Text(LinkType) {
        if !ValueTruthy(url) && !hasInstance {
          return Err(FieldError("external_url", LinkMessage));
        }
        if ValueTruthy(url) {
          data := data["file" := Null];
        }
      } else {
        if !ValueTruthy(file) && !hasInstance {
          return Err(FieldError("file", FileMessage));
        }
        if ValueTruthy(file) {
          data := data["external_url" := Null];
        }
      }
      r := Ok(());
    }
  }

  /** `validate_file`: only an upload strictly larger than the limit is
      refused; a falsy value passes. */
  function ValidateFile(value: Value, maxMb: nat): (r: Result<Value, string>)
    ensures r.Err? <==> ValueTruthy(value) && value.Upload? && value.size > maxMb * 1024 * 1024
    ensures r.Ok? ==> r.value == value
    ensures r.Err? ==> r.error == "File size exceeds the " + NatToString(maxMb) + " MB limit."
  {
    if ValueTruthy(value) && value.Upload? && value.size > maxMb * 1024 * 1024 then
      Err("File size exceeds the " + NatToString(maxMb) + " MB limit.")
    else Ok(value)
  }

  // ------------------------------------------------------- create and update

  /** The primary keys of a list of rows (`relation.set(rows)`). */
  function Ids(rows: seq<Section>): (r: set<int>)
    ensures forall s :: s in rows ==> s.id in r
    ensures forall id :: id in r ==> exists s :: s in rows && s.id == id
    ensures rows == [] ==> r == {}
  {
    set s | s in rows :: s.id
  }

  /** The three relation lists of a payload; `None` when the key is absent. */
  datatype RelationData = RelationData(categories: Option<Json>, topics: Option<Json>, paths: Option<Json>)

  datatype Tables = Tables(categories: RelatedTable, topics: RelatedTable, paths: RelatedTable)

  datatype Relations = Relations(categories: set<int>, topics: set<int>, paths: set<int>)

  /** One relation on update: kept when its key is absent, otherwise
      replaced by the converted list, even an empty one. */
  function RelationStep(current: set<int>, input: Option<Json>, t: RelatedTable,
                        parse: string -> Option<Json>, show: Json -> string): (r: Result<set<int>, SerializerError>)
    ensures input.None? ==> r == Ok(current)
    ensures input.Some? && !Truthy(input.value) ==> r == Ok({})
    ensures input.Some? && r.Ok? ==>
      (Convert(input.value, t, parse, show).Ok?
       && r.value == Ids(Convert(input.value, t, parse, show).value))
  {
    match input
    case None => Ok(current)
    case Some(data) =>
      match Convert(data, t, parse, show)
      case Err(e) => Err(e)
      case Ok(rows) => Ok(Ids(rows))
  }

  /** The relations after `update`, in the order the serializer sets them,
      with the error that stops it; the steps before the error stay done. */
  function UpdatedRelations(current: Relations, rel: RelationData, tables: Tables,
                            parse: string -> Option<Json>, show: Json -> string): (Relations, Result<(), SerializerError>)
  {
    match RelationStep(current.categories, rel.categories, tables.categories, parse, show)
    case Err(e) => (current, Err(e))
    case Ok(cs) =>
      match RelationStep(current.topics, rel.topics, tables.topics, parse, show)
      case Err(e) => (current.(categories := cs), Err(e))
      case Ok(ts) =>
        match RelationStep(current.paths, rel.paths, tables.paths, parse, show)
        case Err(e) => (Relations(cs, ts, current.paths), Err(e))
        case Ok(ps) => (Relations(cs, ts, ps), Ok(()))
  }

  /** An update without relation keys leaves every relation as it was; an
      update that supplies an empty list empties that relation. */
  lemma UpdateRelationRules(current: Relations, tables: Tables, parse: string -> Option<Json>, show: Json -> string)
    ensures UpdatedRelations(current, RelationData(None, None, None), tables, parse, show) == (current, Ok(()))
    ensures UpdatedRelations(current, RelationData(Some(JList([])), None, None), tables, parse, show)
      == (current.(categories := {}), Ok(()))
    ensures UpdatedRelations(current, RelationData(None, Some(JList([])), Some(JList([]))), tables, parse, show)
      == (current.(topics := {}, paths := {}), Ok(()))
  {
  }

  /** `setattr` for each item in turn. */
  function ApplyAttrs(attrs: map<string, Value>, updates: seq<(string, Value)>): map<string, Value>
    decreases |updates|
  {
    if updates == [] then attrs
    else ApplyAttrs(attrs, updates[..|updates| - 1])[updates[|updates| - 1].0 := updates[|updates| - 1].1]
  }

  /** The attributes after the loop are the old ones plus every updated key. */
  lemma {:induction false} ApplyAttrsKeys(attrs: map<string, Value>, updates: seq<(string, Value)>)
    ensures ApplyAttrs(attrs, updates).Keys == attrs.Keys + set i | 0 <= i < |updates| :: updates[i].0
    decreases |updates|
  {
    if updates != [] {
      var init := updates[..|updates| - 1];
      ApplyAttrsKeys(attrs, init);
      assert forall i :: 0 <= i < |init| ==> init[i] == updates[i];
      assert (set i | 0 <= i < |updates| :: updates[i].0)
        == (set i | 0 <= i < |init| :: init[i].0) + {updates[|updates| - 1].0};
    }
  }

  /** With distinct keys, as a dictionary's items are, every updated
      attribute holds its new value and every other keeps its old one. */
  lemma {:induction false} ApplyAttrsEffect(attrs: map<string, Value>, updates: seq<(string, Value)>)
    requires forall i, j :: 0 <= i < j < |updates| ==> updates[i].0 != updates[j].0
    ensures forall i :: 0 <= i < |updates| ==>
      updates[i].0 in ApplyAttrs(attrs, updates) && ApplyAttrs(attrs, updates)[updates[i].0] == updates[i].1
    ensures forall k :: k in attrs && (forall i :: 0 <= i < |updates| ==> updates[i].0 != k) ==>
      k in ApplyAttrs(attrs, updates) && ApplyAttrs(attrs, updates)[k] == attrs[k]
    ensures ApplyAttrs(attrs, updates).Keys == attrs.Keys + set i | 0 <= i < |updates| :: updates[i].0
    decreases |updates|
  {
    ApplyAttrsKeys(attrs, updates);
    if updates != [] {
      var init := updates[..|updates| - 1];
      var last := updates[|updates| - 1];
      ApplyAttrsEffect(attrs, init);
      var m := ApplyAttrs(attrs, init);
      assert ApplyAttrs(attrs, updates) == m[last.0 := last.1];
      forall i | 0 <= i < |updates|
        ensures updates[i].0 in ApplyAttrs(attrs, updates) && ApplyAttrs(attrs, updates)[updates[i].0] == updates[i].1
      {
        if i < |init| {
          assert init[i] == updates[i];
        }
      }
      forall k | k in attrs && (forall i :: 0 <= i < |updates| ==> updates[i].0 != k)
        ensures k in ApplyAttrs(attrs, updates) && ApplyAttrs(attrs, updates)[k] == attrs[k]
      {
        assert forall i :: 0 <= i < |init| ==> init[i] == updates[i];
        assert last == updates[|updates| - 1];
      }
    }
  }

  /** A stored `ContentFile` as the serializer sees it. */
  class FileRecord {
    var attrs: map<string, Value>
    var categories: set<int>
    var topics: set<int>
    var paths: set<int>

    constructor(attrs: map<string, Value>)
      ensures this.attrs == attrs && categories == {} && topics == {} && paths == {}
    {
      this.attrs := attrs;
      categories := {};
      topics := {};
      paths := {};
    }

    /** A new record whose relations are set from the converted lists,
        each only when its list is not empty. */
    constructor Created(attrs: map<string, Value>, cs: seq<Section>, ts: seq<Section>, ps: seq<Section>)
      ensures this.attrs == attrs && categories == Ids(cs) && topics == Ids(ts) && paths == Ids(ps)
    {
      this.attrs := attrs;
      categories := {};
      topics := {};
      paths := {};
      new;
      if cs != [] {
        categories := Ids(cs);
      }
      if ts != [] {
        topics := Ids(ts);
      }
      if ps != [] {
        paths := Ids(ps);
      }
    }

    /** `update`: every attribute is set and saved first; then each
        supplied relation is converted and replaced in turn. */
    method Update(updates: seq<(string, Value)>, rel: RelationData, tables: Tables,
                  parse: string -> Option<Json>, show: Json -> string) returns (r: Result<(), SerializerError>)
      modifies this
      ensures attrs == ApplyAttrs(old(attrs), updates)
      ensures var (after, res) := UpdatedRelations(Relations(old(categories), old(topics), old(paths)), rel, tables, parse, show);
        r == res && categories == after.categories && topics == after.topics && paths == after.paths
    {
      var i := 0;
      while i < |updates|
        invariant 0 <= i <= |updates|
        invariant attrs == ApplyAttrs(old(attrs), updates[..i])
        invariant categories == old(categories) && topics == old(topics) && paths == old(paths)
      {
        assert updates[..i + 1][..i] == updates[..i];
        attrs := attrs[updates[i].0 := updates[i].1];
        i := i + 1;
      }
      assert updates[..i] == updates;
      if rel.categories.Some? {
        var rows := ConvertToObjects(rel.categories.value, tables.categories, parse, show);
        if rows.Err? {
          return Err(rows.error);
        }
        categories := Ids(rows.value);
      }
      if rel.topics.Some? {
        var rows := ConvertToObjects(rel.topics.value, tables.topics, parse, show);
        if rows.Err? {
          return Err(rows.error);
        }
        topics := Ids(rows.value);
      }
      if rel.paths.Some? {
        var rows := ConvertToObjects(rel.paths.value, tables.paths, parse, show);
        if rows.Err? {
          return Err(rows.error);
        }
        paths := Ids(rows.value);
      }
      r := Ok(());
    }
  }

  /** The relations `create` gives a new record: the three lists (absent
      ones empty) are all converted before anything is stored, and the
      first failure, in the order categories, topics, paths, is the error. */
  function CreatedRelations(rel: RelationData, tables: Tables, parse: string -> Option<Json>, show: Json -> string)
    : Result<Relations, SerializerError>
  {
    match Convert(rel.categories.GetOr(JList([])), tables.categories, parse, show)
    case Err(e) => Err(e)
    case Ok(cs) =>
      match Convert(rel.topics.GetOr(JList([])), tables.topics, parse, show)
      case Err(e) => Err(e)
      case Ok(ts) =>
        match Convert(rel.paths.GetOr(JList([])), tables.paths, parse, show)
        case Err(e) => Err(e)
        case Ok(ps) => Ok(Relations(Ids(cs), Ids(ts), Ids(ps)))
  }

  /** Creating is updating an empty record, except that a failing
      conversion leaves no record behind instead of a partly updated one. */
  lemma CreateIsUpdateOfEmpty(rel: RelationData, tables: Tables, parse: string -> Option<Json>, show: Json -> string)
    ensures var empty := Relations({}, {}, {});
      var (after, res) := UpdatedRelations(empty, rel, tables, parse, show);
      (CreatedRelations(rel, tables, parse, show).Ok? <==> res.Ok?)
      && (res.Ok? ==> CreatedRelations(rel, tables, parse, show) == Ok(after))
      && (res.Err? ==> CreatedRelations(rel, tables, parse, show) == Err(res.error))
  {
    ConvertFalsy(JList([]), tables.categories, parse, show);
    ConvertFalsy(JList([]), tables.topics, parse, show);
    ConvertFalsy(JList([]), tables.paths, parse, show);
  }

  /** `create`: the lists are converted before the record exists; the new
      record then takes the attributes, and each relation is set only when
      its list is not empty. */
  method Create(attrs: map<string, Value>, rel: RelationData, tables: Tables,
                parse: string -> Option<Json>, show: Json -> string) returns (r: Result<FileRecord, SerializerError>)
    ensures r.Ok? <==> CreatedRelations(rel, tables, parse, show).Ok?
    ensures r.Err? ==> r.error == CreatedRelations(rel, tables, parse, show).error
    ensures r.Ok? ==>
      (fresh(r.value) && r.value.attrs == attrs
       && Relations(r.value.categories, r.value.topics, r.value.paths) == CreatedRelations(rel, tables, parse, show).value)
  {
    var categories := ConvertToObjects(rel.categories.GetOr(JList([])), tables.categories, parse, show);
    if categories.Err? {
      return Err(categories.error);
    }
    var topics := ConvertToObjects(rel.topics.GetOr(JList([])), tables.topics, parse, show);
    if topics.Err? {
      return Err(topics.error);
    }
    var paths := ConvertToObjects(rel.paths.GetOr(JList([])), tables.paths, parse, show);
    if paths.Err? {
      return Err(paths.error);
    }
    var record := new FileRecord.Created(attrs, categories.value, topics.value, paths.value);
    r := Ok(record);
  }
}
