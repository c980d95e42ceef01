/** The catalog's data model (`content/models.py`): the `Section` rows shared
    by `Path`, `Category` and `Topic`, with their slug defaulting, uniqueness
    and declared ordering; content files and their declared ordering; and
    the ratings table with its bounds, its `(content, user)` uniqueness and
    the average-rating annotation. */
module ContentModels {
  import opened Wrappers
  import opened Ordering

  // ---------------------------------------------------------------- sections

  /** One stored row of a `Section` subclass. */
  datatype Section = Section(id: int, name: string, slug: string, isActive: bool)

  /** `name`, `slug` and the primary key are each unique within one table. */
  predicate UniqueRows(rows: seq<Section>) {
    forall i, j :: 0 <= i < j < |rows| ==>
      rows[i].id != rows[j].id && rows[i].name != rows[j].name && rows[i].slug != rows[j].slug
  }

  /** Some other row already holds the row's name or slug. */
  predicate Clashes(rows: seq<Section>, row: Section) {
    exists i :: 0 <= i < |rows| && rows[i].id != row.id && (rows[i].name == row.name || rows[i].slug == row.slug)
  }

  datatype SaveError = IntegrityError

  /** Writing a row: it replaces the row with its primary key, or is
      appended; a clash with another row's name or slug is refused. */
  function Persist(rows: seq<Section>, row: Section): (r: Result<seq<Section>, SaveError>)
    ensures r.Err? <==> Clashes(rows, row)
    ensures r.Ok? ==> row in r.value
    ensures r.Ok? ==> (forall x :: x in rows && x.id != row.id ==> x in r.value)
                      && (forall x :: x in r.value ==> x == row || x in rows)
    ensures r.Ok? && UniqueRows(rows) ==> UniqueRows(r.value)
  {
    if Clashes(rows, row) then Err(IntegrityError)
    else
      match IndexOfId(rows, row.id)
      case Some(i) =>
        assert rows[i := row][i] == row;
        assert forall x :: x in rows && x.id != row.id ==> x in rows[i := row] by {
          forall x | x in rows && x.id != row.id ensures x in rows[i := row] {
            var k :| 0 <= k < |rows| && rows[k] == x;
            assert rows[i := row][k] == x;
          }
        }
        Ok(rows[i := row])
      case None => Ok(rows + [row])
  }

  /** The position of the row with primary key `id`. */
  function IndexOfId(rows: seq<Section>, id: int): (r: Option<nat>)
    ensures r.Some? ==> r.value < |rows| && rows[r.value].id == id
    ensures r.None? ==> forall i :: 0 <= i < |rows| ==> rows[i].id != id
    decreases |rows|
  {
    if rows == [] then None
    else if rows[|rows| - 1].id == id then Some(|rows| - 1)
    else IndexOfId(rows[..|rows| - 1], id)
  }

  /** A `Section` model instance being edited. */
  class SectionInstance {
    var id: int
    var name: string
    var slug: string
    var isActive: bool

    /** A new instance: `is_active` defaults to true. */
    constructor(id: int, name: string, slug: string)
      ensures this.id == id && this.name == name && this.slug == slug && isActive
    {
      this.id := id;
      this.name := name;
      this.slug := slug;
      isActive := true;
    }

    function Row(): Section
      reads this
    {
      Section(id, name, slug, isActive)
    }

    /** `save()`: a blank slug is first filled from the name, then the row
        is written. The slug stays filled even when the write is refused. */
    method Save(rows: seq<Section>, slugify: string -> string) returns (r: Result<seq<Section>, SaveError>)
      modifies this
      ensures old(slug) == "" ==> slug == slugify(name)
      ensures old(slug) != "" ==> slug == old(slug)
      ensures id == old(id) && name == old(name) && isActive == old(isActive)
      ensures r == Persist(rows, Row())
    {
      if slug == "" {
        slug := slugify(name);
      }
      r := Persist(rows, Row());
    }
  }

  /** The slug a row is stored with after `save()`. */
  function SavedSlug(slug: string, name: string, slugify: string -> string): string {
    if slug == "" then slugify(name) else slug
  }

  /** Saving twice stores the same slug as saving once. */
  lemma SavedSlugIdempotent(slug: string, name: string, slugify: string -> string)
    ensures SavedSlug(SavedSlug(slug, name, slugify), name, slugify) == SavedSlug(slug, name, slugify)
  {
  }

  /** `Section.Meta.ordering = ['name', 'slug']`. */
  function SectionKey(s: Section): Key {
    (s.name, s.slug)
  }

  function DeclaredOrder(rows: seq<Section>): seq<Section> {
    SortBy(rows, SectionKey)
  }

  /** The rows with `is_active = True`, in the order given. */
  function ActiveRows(rows: seq<Section>): (r: seq<Section>)
    ensures forall k :: 0 <= k < |r| ==> r[k].isActive
    ensures multiset(r) <= multiset(rows)
    decreases |rows|
  {
    if rows == [] then []
    else
      assert rows == [rows[0]] + rows[1..];
      (if rows[0].isActive then [rows[0]] else []) + ActiveRows(rows[1..])
  }

  lemma {:induction false} ActiveRowsOfPermutation(a: seq<Section>, b: seq<Section>)
    requires multiset(a) == multiset(b)
    ensures multiset(ActiveRows(a)) == multiset(ActiveRows(b))
    decreases |a|
  {
    ActiveRowsCount(a);
    ActiveRowsCount(b);
  }

  /** The active rows as a multiset: every active row, as often as stored. */
  lemma {:induction false} ActiveRowsCount(rows: seq<Section>)
    ensures forall x :: multiset(ActiveRows(rows))[x] == if x.isActive then multiset(rows)[x] else 0
    decreases |rows|
  {
    if rows != [] {
      ActiveRowsCount(rows[1..]);
      assert rows == [rows[0]] + rows[1..];
    }
  }

  lemma UniqueRowsKeyInjective(rows: seq<Section>, s: seq<Section>)
    requires UniqueRows(rows) && multiset(s) <= multiset(rows)
    ensures KeyInjective(s, SectionKey)
  {
    forall i, j | 0 <= i < |s| && 0 <= j < |s| && SectionKey(s[i]) == SectionKey(s[j])
      ensures s[i] == s[j]
    {
      assert s[i] in multiset(rows) && s[j] in multiset(rows);
      var p :| 0 <= p < |rows| && rows[p] == s[i];
      var q :| 0 <= q < |rows| && rows[q] == s[j];
    }
  }

  /** With unique names, the declared ordering fixes the order of any set of
      rows completely: it does not depend on how the rows are stored. */
  lemma DeclaredOrderDeterministic(a: seq<Section>, b: seq<Section>, table: seq<Section>)
    requires UniqueRows(table) && multiset(a) <= multiset(table) && multiset(a) == multiset(b)
    ensures DeclaredOrder(a) == DeclaredOrder(b)
  {
    var sa, sb := DeclaredOrder(a), DeclaredOrder(b);
    SortBySorted(a, SectionKey);
    SortBySorted(b, SectionKey);
    UniqueRowsKeyInjective(table, sa);
    SortedUnique(sa, sb, SectionKey);
  }

  // ------------------------------------------------------------ content files

  /** `ContentFile.FileType` values. */
  datatype FileType = PDF | IMAGE | TEXT | VIDEO | AUDIO | OTHER

  function FileTypeValue(t: FileType): string {
    match t
    case PDF => "PDF"
    case IMAGE => "IMAGE"
    case TEXT => "TEXT"
    case VIDEO => "VIDEO"
    case AUDIO => "AUDIO"
    case OTHER => "OTHER"
  }

  /** The value names the choice: distinct choices store distinct text. */
  lemma FileTypeValueInjective(s: FileType, t: FileType)
    requires FileTypeValue(s) == FileTypeValue(t)
    ensures s == t
  {
  }

  /** One `ContentFile` row with its three relation sets, as primary keys. */
  datatype ContentFile = ContentFile(
    id: int, name: string, fileType: FileType, isActive: bool,
    paths: set<int>, categories: set<int>, topics: set<int>)

  /** A new file: inactive until published, with no relations. */
  function NewContentFile(id: int, name: string, fileType: FileType): (f: ContentFile)
    ensures !f.isActive && f.paths == {} && f.categories == {} && f.topics == {}
    ensures f.id == id && f.name == name && f.fileType == fileType
  {
    ContentFile(id, name, fileType, false, {}, {}, {})
  }

  /** `ContentFile.Meta.ordering = ['name', 'file_type']`. */
  function FileKey(f: ContentFile): Key {
    (f.name, FileTypeValue(f.fileType))
  }

  // ----------------------------------------------------------------- ratings

  /** One `ContentRating` row; `user` is null once that user is deleted. */
  datatype Rating = Rating(content: int, user: Option<int>, value: int)

  /** The table's constraints: every value within the validators' bounds,
      and at most one rating per `(content, user)` among non-null users. */
  predicate RatingsValid(rows: seq<Rating>, minRating: int, maxRating: int) {
    (forall i :: 0 <= i < |rows| ==> minRating <= rows[i].value <= maxRating)
    && (forall i, j :: 0 <= i < j < |rows| && rows[i].user.Some? && rows[i].content == rows[j].content
          ==> rows[i].user != rows[j].user)
  }

  datatype RatingError = OutOfRange | AlreadyRated

  predicate HasRated(rows: seq<Rating>, content: int, user: int) {
    exists i :: 0 <= i < |rows| && rows[i].content == content && rows[i].user == Some(user)
  }

  /** A validated save of a new rating: the value validators, then the
      unique constraint, which a null user never violates. */
  function AddRating(rows: seq<Rating>, minRating: int, maxRating: int, r: Rating): (res: Result<seq<Rating>, RatingError>)
    ensures res.Ok? ==> res.value == rows + [r]
    ensures res == Err(OutOfRange) <==> !(minRating <= r.value <= maxRating)
    ensures res == Err(AlreadyRated) <==> minRating <= r.value <= maxRating && r.user.Some? && HasRated(rows, r.content, r.user.value)
  {
    if !(minRating <= r.value <= maxRating) then Err(OutOfRange)
    else if r.user.Some? && HasRated(rows, r.content, r.user.value) then Err(AlreadyRated)
    else Ok(rows + [r])
  }

  lemma AddRatingKeepsValid(rows: seq<Rating>, minRating: int, maxRating: int, r: Rating)
    requires RatingsValid(rows, minRating, maxRating)
    requires AddRating(rows, minRating, maxRating, r).Ok?
    ensures RatingsValid(AddRating(rows, minRating, maxRating, r).value, minRating, maxRating)
  {
    var s := rows + [r];
    forall i, j | 0 <= i < j < |s| && s[i].user.Some? && s[i].content == s[j].content
      ensures s[i].user != s[j].user
    {
    }
  }

  /** `on_delete=SET_NULL`: the deleted user's ratings stay, with no user. */
  function DeleteUser(rows: seq<Rating>, user: int): (r: seq<Rating>)
    ensures |r| == |rows|
    ensures forall i :: 0 <= i < |r| ==> r[i].content == rows[i].content && r[i].value == rows[i].value
    ensures forall i :: 0 <= i < |r| ==> r[i].user == (if rows[i].user == Some(user) then None else rows[i].user)
  {
    seq(|rows|, i requires 0 <= i < |rows| => if rows[i].user == Some(user) then rows[i].(user := None) else rows[i])
  }

  /** Nulling a user keeps the constraints: null users are never constrained. */
  lemma DeleteUserKeepsValid(rows: seq<Rating>, minRating: int, maxRating: int, user: int)
    requires RatingsValid(rows, minRating, maxRating)
    ensures RatingsValid(DeleteUser(rows, user), minRating, maxRating)
    ensures forall c :: !HasRated(DeleteUser(rows, user), c, user)
  {
  }

  /** `on_delete=CASCADE`: the deleted file's ratings go with it. */
  function DeleteContent(rows: seq<Rating>, content: int): (r: seq<Rating>)
    ensures forall i :: 0 <= i < |r| ==> r[i].content != content
    ensures forall x :: x in r <==> x in rows && x.content != content
    decreases |rows|
  {
    if rows == [] then []
    else (if rows[0].content == content then [] else [rows[0]]) + DeleteContent(rows[1..], content)
  }

  lemma {:induction false} DeleteContentSubsequence(rows: seq<Rating>, content: int)
    ensures |DeleteContent(rows, content)| <= |rows|
    ensures forall i :: 0 <= i < |DeleteContent(rows, content)| ==>
      exists j :: i <= j < |rows| && rows[j] == DeleteContent(rows, content)[i]
    decreases |rows|
  {
    if rows != [] {
      DeleteContentSubsequence(rows[1..], content);
    }
  }

  /** A cascade keeps the constraints. */
  lemma {:induction false} DeleteContentKeepsValid(rows: seq<Rating>, minRating: int, maxRating: int, content: int)
    requires RatingsValid(rows, minRating, maxRating)
    ensures RatingsValid(DeleteContent(rows, content), minRating, maxRating)
    decreases |rows|
  {
    if rows != [] {
      var tail := DeleteContent(rows[1..], content);
      DeleteContentKeepsValid(rows[1..], minRating, maxRating, content);
      if rows[0].content != content {
        var x := rows[0];
        assert DeleteContent(rows, content) == [x] + tail;
        forall j | 0 <= j < |tail| && x.user.Some? && x.content == tail[j].content
          ensures x.user != tail[j].user
        {
          assert tail[j] in rows[1..];
          var k :| 0 <= k < |rows[1..]| && rows[1..][k] == tail[j];
          assert rows[k + 1] == tail[j];
        }
        ConsValid(x, tail, minRating, maxRating);
      }
    }
  }

  /** A valid table stays valid with a row in front that is within bounds
      and clashes with none of it. */
  lemma ConsValid(x: Rating, tail: seq<Rating>, minRating: int, maxRating: int)
    requires RatingsValid(tail, minRating, maxRating) && minRating <= x.value <= maxRating
    requires forall j :: 0 <= j < |tail| && x.user.Some? && x.content == tail[j].content ==> x.user != tail[j].user
    ensures RatingsValid([x] + tail, minRating, maxRating)
  {
    var s := [x] + tail;
    forall i, j | 0 <= i < j < |s| && s[i].user.Some? && s[i].content == s[j].content
      ensures s[i].user != s[j].user
    {
      if i > 0 {
        assert s[i] == tail[i - 1] && s[j] == tail[j - 1];
      } else {
        assert s[j] == tail[j - 1];
      }
    }
  }

  /** `Avg('ratings__rating')` kept as its sum and count. */
  datatype Mean = Mean(sum: int, count: nat)

  function RatingSum(rows: seq<Rating>, content: int): (m: Mean)
    decreases |rows|
  {
    if rows == [] then Mean(0, 0)
    else
      var rest := RatingSum(rows[..|rows| - 1], content);
      var last := rows[|rows| - 1];
      if last.content == content then Mean(rest.sum + last.value, rest.count + 1) else rest
  }

  /** `annotate_rating()`: the file's mean rating, null with no ratings. */
  function AnnotateRating(rows: seq<Rating>, content: int): (r: Option<Mean>)
    ensures r.Some? ==> r.value.count > 0
  {
    var m := RatingSum(rows, content);
    if m.count == 0 then None else Some(m)
  }

  /** The file has a rating exactly when its count is positive. */
  lemma {:induction false} RatingCountPositive(rows: seq<Rating>, content: int)
    ensures RatingSum(rows, content).count > 0 <==> exists i :: 0 <= i < |rows| && rows[i].content == content
    decreases |rows|
  {
    if rows != [] {
      var n := |rows| - 1;
      RatingCountPositive(rows[..n], content);
      if exists i :: 0 <= i < n && rows[..n][i].content == content {
        var i :| 0 <= i < n && rows[..n][i].content == content;
        assert rows[i].content == content;
      }
      if exists i :: 0 <= i < |rows| && rows[i].content == content {
        var i :| 0 <= i < |rows| && rows[i].content == content;
        if i < n { assert rows[..n][i].content == content; }
      }
    }
  }

  /** In a valid table the sum lies between the bounds times the count, so
      the mean lies within the rating bounds. */
  lemma {:induction false} RatingSumBounds(rows: seq<Rating>, minRating: int, maxRating: int, content: int)
    requires forall i :: 0 <= i < |rows| ==> minRating <= rows[i].value <= maxRating
    ensures minRating * RatingSum(rows, content).count <= RatingSum(rows, content).sum
    ensures RatingSum(rows, content).sum <= maxRating * RatingSum(rows, content).count
    decreases |rows|
  {
    if rows != [] {
      var n := |rows| - 1;
      RatingSumBounds(rows[..n], minRating, maxRating, content);
      var m := RatingSum(rows[..n], content);
      assert minRating * (m.count + 1) == minRating * m.count + minRating;
      assert maxRating * (m.count + 1) == maxRating * m.count + maxRating;
    }
  }

  /** The annotation is null exactly for a file nobody rated. */
  lemma AnnotateRatingNone(rows: seq<Rating>, content: int)
    ensures AnnotateRating(rows, content).None? <==> forall i :: 0 <= i < |rows| ==> rows[i].content != content
  {
    RatingCountPositive(rows, content);
  }
}
