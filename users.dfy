/** The user models (`users/models.py`): the bot user's display string and
    inactivity test, and the staff-user manager that creates staff and
    superusers keyed by a unique email. Times are whole seconds. */
module Users {
  import opened Wrappers
  import opened Strings

  /** Seconds in a day (`timedelta(days=1)`). */
  const Day: int := 86400

  /** `is_inactive`'s default number of days. */
  const DefaultInactiveDays: int := 10

  /** A row of `BotUser`; `username` and `first_name` are nullable. */
  datatype BotUser = BotUser(
    telegramId: int,
    username: Option<string>,
    firstName: Option<string>,
    lastActive: int,
    isActive: bool,
    createdAt: int)

  /** `__str__`: `@username (id)`, else `first_name (id)`, else the id. */
  function Display(u: BotUser): string {
    if Present(u.username) then "@" + u.username.value + " (" + IntToString(u.telegramId) + ")"
    else if Present(u.firstName) then u.firstName.value + " (" + IntToString(u.telegramId) + ")"
    else IntToString(u.telegramId)
  }

  /** The last position of `c` in `s`. */
  function LastIndex(s: string, c: char): (r: Option<nat>)
    ensures r.Some? ==> r.value < |s| && s[r.value] == c && c !in s[r.value + 1..]
    ensures r.None? ==> c !in s
    decreases |s|
  {
    if s == [] then None
    else if s[|s| - 1] == c then Some(|s| - 1)
    else
      var r := LastIndex(s[..|s| - 1], c);
      assert s == s[..|s| - 1] + [s[|s| - 1]];
      if r.Some? then
        assert s[r.value + 1..] == s[..|s| - 1][r.value + 1..] + [s[|s| - 1]];
        r
      else r
  }

  /** The text of the id at the end of a display string: between the last
      `(` and the closing `)`, or the whole string when there is none. */
  function TrailingId(s: string): string {
    if |s| > 0 && s[|s| - 1] == ')' then
      match LastIndex(s[..|s| - 1], '(')
      case Some(k) => s[k + 1..|s| - 1]
      case None => s
    else s
  }

  lemma LastIndexAfter(p: string, q: string, c: char)
    requires c !in q
    ensures LastIndex(p + [c] + q, c) == Some(|p|)
  {
    var s := p + [c] + q;
    assert s[|p|] == c;
    assert s[|p| + 1..] == q;
  }

  /** A name followed by an id in brackets reads back as that id. */
  lemma TrailingIdBracketed(name: string, id: string)
    requires '(' !in id
    ensures TrailingId(name + " (" + id + ")") == id
  {
    var s := name + " (" + id + ")";
    assert s[..|s| - 1] == (name + " ") + ['('] + id;
    LastIndexAfter(name + " ", id, '(');
    assert s[|name + " "| + 1..|s| - 1] == id;
  }

  /** Whichever form the display takes, the user's id reads back from its
      end. */
  lemma DisplayNamesId(u: BotUser)
    ensures ParseInt(TrailingId(Display(u))) == Some(u.telegramId)
  {
    var id := IntToString(u.telegramId);
    ParseIntToString(u.telegramId);
    IntToStringHasNo(u.telegramId, '(');
    if Present(u.username) {
      TrailingIdBracketed("@" + u.username.value, id);
    } else if Present(u.firstName) {
      TrailingIdBracketed(u.firstName.value, id);
    } else {
      IntToStringHasNo(u.telegramId, ')');
      assert id[|id| - 1] in id;
    }
  }

  /** `is_inactive(days)`: at least `days` whole days since the last
      activity (`timedelta.days` rounds down). */
  predicate IsInactive(u: BotUser, now: int, days: int) {
    (now - u.lastActive) / Day >= days
  }

  /** Whole days are counted down, so the test is a plain threshold on the
      last activity. */
  lemma InactiveThreshold(u: BotUser, now: int, days: int)
    ensures IsInactive(u, now, days) <==> u.lastActive <= now - days * Day
  {
    var x := now - u.lastActive;
    assert x == Day * (x / Day) + x % Day;
    if x / Day >= days {
      assert Day * (x / Day) >= Day * days;
    } else {
      assert Day * (x / Day) <= Day * (days - 1);
    }
  }

  /** Inactivity only grows as time passes. */
  lemma InactiveStays(u: BotUser, now: int, later: int, days: int)
    requires now <= later && IsInactive(u, now, days)
    ensures IsInactive(u, later, days)
  {
    InactiveThreshold(u, now, days);
    InactiveThreshold(u, later, days);
  }

  // ------------------------------------------------------------ staff users

  /** A staff account; `password` holds the hashed password. `username` is
      the field `StaffUser` inherits from `AbstractUser`, declared unique. */
  datatype StaffUser = StaffUser(
    username: string,
    email: string,
    password: string,
    isStaff: bool,
    isSuperuser: bool,
    firstName: string,
    lastName: string)

  /** The keyword arguments passed on to the model; absent flags are `None`,
      and an absent `username` is the field's default `""`. */
  datatype Extras = Extras(username: string, isStaff: Option<bool>, isSuperuser: Option<bool>, firstName: string, lastName: string)

  /** The keyword arguments `createsuperuser` passes: the required names only. */
  function NamesOnly(firstName: string, lastName: string): Extras {
    Extras("", None, None, firstName, lastName)
  }

  /** `MissingEmail` is the `ValueError`; the other two are the database's
      unique constraints, raised by `save()` as `IntegrityError`. */
  datatype StaffError = MissingEmail | DuplicateEmail | DuplicateUsername

  const MissingEmailMessage: string := "У пользователя должен быть email"

  /** Staff log in by email, which is unique. */
  predicate UniqueEmails(users: seq<StaffUser>) {
    forall i, j :: 0 <= i < j < |users| ==> users[i].email != users[j].email
  }

  /** The inherited `username` column is unique too. */
  predicate UniqueUsernames(users: seq<StaffUser>) {
    forall i, j :: 0 <= i < j < |users| ==> users[i].username != users[j].username
  }

  predicate EmailTaken(users: seq<StaffUser>, email: string) {
    exists k :: 0 <= k < |users| && users[k].email == email
  }

  predicate UsernameTaken(users: seq<StaffUser>, username: string) {
    exists k :: 0 <= k < |users| && users[k].username == username
  }

  /** The row `create_user` builds: normalised email, hashed password, staff
      status forced on, the other keyword arguments as given. */
  function Account(email: string, password: Option<string>, extras: Extras, hash: Option<string> -> string): StaffUser {
    StaffUser(extras.username, email, hash(password), true, extras.isSuperuser.GetOr(false), extras.firstName, extras.lastName)
  }

  /** The account `create_user` stores, or why it refuses: no email, an
      email already in use, or a username already in use. Staff status is
      always granted. When both unique columns clash, the email is reported. */
  function NewStaffUser(users: seq<StaffUser>, email: Option<string>, password: Option<string>, extras: Extras,
                        normalize: string -> string, hash: Option<string> -> string): (r: Result<StaffUser, StaffError>)
    ensures r == Err(MissingEmail) <==> !Present(email)
    ensures r == Err(DuplicateEmail) <==> Present(email) && EmailTaken(users, normalize(email.value))
    ensures r == Err(DuplicateUsername) <==>
      Present(email) && !EmailTaken(users, normalize(email.value)) && UsernameTaken(users, extras.username)
    ensures r.Ok? ==>
      (r.value.isStaff && r.value.email == normalize(email.value) && r.value.password == hash(password)
       && r.value.username == extras.username
       && r.value.isSuperuser == extras.isSuperuser.GetOr(false)
       && r.value.firstName == extras.firstName && r.value.lastName == extras.lastName)
  {
    if !Present(email) then Err(MissingEmail)
    else
      var normalized := normalize(email.value);
      if EmailTaken(users, normalized) then Err(DuplicateEmail)
      else if UsernameTaken(users, extras.username) then Err(DuplicateUsername)
      else Ok(Account(normalized, password, extras, hash))
  }

  /** `create_user` as evidently intended, with `USERNAME_FIELD = "email"`:
      the username is not a column (`username = None` on the model), so
      only the email has to be unique. */
  function NewStaffUserIntended(users: seq<StaffUser>, email: Option<string>, password: Option<string>, extras: Extras,
                                normalize: string -> string, hash: Option<string> -> string): (r: Result<StaffUser, StaffError>)
    ensures r == Err(MissingEmail) <==> !Present(email)
    ensures r == Err(DuplicateEmail) <==> Present(email) && EmailTaken(users, normalize(email.value))
    ensures r != Err(DuplicateUsername)
  {
    if !Present(email) then Err(MissingEmail)
    else
      var normalized := normalize(email.value);
      if EmailTaken(users, normalized) then Err(DuplicateEmail)
      else Ok(Account(normalized, password, extras, hash))
  }

  /** As written, every account created without a username stores `""`, so
      once one exists, creating another with a fresh email fails on the
      username, where the intended manager succeeds. */
  lemma SecondRegistrationFails(a: string, b: string, password: Option<string>, firstName: string, lastName: string,
                                normalize: string -> string, hash: Option<string> -> string)
    requires a != "" && b != "" && normalize(a) != normalize(b)
    ensures var extras := NamesOnly(firstName, lastName);
      var first := NewStaffUser([], Some(a), password, extras, normalize, hash);
      first.Ok? && first.value.username == ""
      && NewStaffUser([first.value], Some(b), password, extras, normalize, hash) == Err(DuplicateUsername)
      && NewStaffUserIntended([first.value], Some(b), password, extras, normalize, hash).Ok?
  {
    var extras := NamesOnly(firstName, lastName);
    var first := NewStaffUser([], Some(a), password, extras, normalize, hash);
    assert !EmailTaken([], normalize(a));
    assert !UsernameTaken([], "");
    assert first.Ok?;
    assert [first.value][0].username == "";
    assert !EmailTaken([first.value], normalize(b)) by {
      assert [first.value][0].email == normalize(a);
    }
  }

  /** The intended manager accepts every fresh email, and the table it
      builds keeps emails unique. */
  lemma IntendedRegistrationsSucceed(users: seq<StaffUser>, email: Option<string>, password: Option<string>, extras: Extras,
                                     normalize: string -> string, hash: Option<string> -> string)
    requires UniqueEmails(users)
    ensures var r := NewStaffUserIntended(users, email, password, extras, normalize, hash);
      (r.Ok? <==> Present(email) && !EmailTaken(users, normalize(email.value)))
      && (r.Ok? ==> UniqueEmails(users + [r.value]) && r.value.email == normalize(email.value))
  {
    var r := NewStaffUserIntended(users, email, password, extras, normalize, hash);
    if r.Ok? {
      var t := users + [r.value];
      forall i, j | 0 <= i < j < |t|
        ensures t[i].email != t[j].email
      {
        if j == |users| {
          assert t[i] == users[i];
        } else {
          assert t[i] == users[i] && t[j] == users[j];
        }
      }
    }
  }

  /** `create_superuser`'s `setdefault`s: both flags become `True` unless
      the caller gave them. */
  function SuperuserExtras(extras: Extras): (r: Extras)
    ensures r.isStaff == Some(extras.isStaff.GetOr(true)) && r.isSuperuser == Some(extras.isSuperuser.GetOr(true))
    ensures r.username == extras.username && r.firstName == extras.firstName && r.lastName == extras.lastName
  {
    extras.(isStaff := Some(extras.isStaff.GetOr(true)), isSuperuser := Some(extras.isSuperuser.GetOr(true)))
  }

  /** A superuser is staff even when the caller passed `is_staff=False`,
      and is a superuser unless the caller said otherwise; it is created
      exactly when the email is given and neither unique column clashes. */
  lemma SuperuserFlags(users: seq<StaffUser>, email: Option<string>, password: Option<string>, extras: Extras,
                       normalize: string -> string, hash: Option<string> -> string)
    ensures var r := NewStaffUser(users, email, password, SuperuserExtras(extras), normalize, hash);
      (r.Ok? <==> Present(email) && !EmailTaken(users, normalize(email.value)) && !UsernameTaken(users, extras.username))
      && (r.Ok? ==> r.value.isStaff && (r.value.isSuperuser <==> extras.isSuperuser != Some(false)))
  {
  }

  /** The account a login email names, if any. */
  function FindByEmail(users: seq<StaffUser>, email: string): (r: Option<nat>)
    ensures r.Some? ==> r.value < |users| && users[r.value].email == email
    ensures r.None? <==> !EmailTaken(users, email)
    decreases |users|
  {
    if users == [] then None
    else if users[|users| - 1].email == email then Some(|users| - 1)
    else
      var r := FindByEmail(users[..|users| - 1], email);
      assert forall k :: 0 <= k < |users| - 1 ==> users[..|users| - 1][k] == users[k];
      r
  }

  /** With unique emails the login lookup names the only matching account. */
  lemma FindByEmailUnique(users: seq<StaffUser>, email: string, k: nat)
    requires UniqueEmails(users) && k < |users| && users[k].email == email
    ensures FindByEmail(users, email) == Some(k)
  {
  }

  /** The `StaffUser` table with its manager. */
  class StaffRegistry {
    var users: seq<StaffUser>

    predicate Valid()
      reads this
    {
      UniqueEmails(users) && UniqueUsernames(users)
    }

    constructor()
      ensures users == [] && Valid()
    {
      users := [];
    }

    /** `create_user`: refuse a falsy email, build the account with the
        normalised email and hashed password, make it staff and save it;
        the save fails on a taken email or a taken username. */
    method CreateUser(email: Option<string>, password: Option<string>, extras: Extras,
                      normalize: string -> string, hash: Option<string> -> string) returns (r: Result<StaffUser, StaffError>)
      requires Valid()
      modifies this
      ensures Valid()
      ensures r == NewStaffUser(old(users), email, password, extras, normalize, hash)
      ensures r.Ok? ==> users == old(users) + [r.value]
      ensures r.Err? ==> users == old(users)
    {
      if !Present(email) {
        return Err(MissingEmail);
      }
      var normalized := normalize(email.value);
      var user := StaffUser(extras.username, normalized, hash(password), extras.isStaff.GetOr(false),
                            extras.isSuperuser.GetOr(false), extras.firstName, extras.lastName);
      user := user.(isStaff := true);
      if EmailTaken(users, normalized) {
        return Err(DuplicateEmail);
      }
      if UsernameTaken(users, user.username) {
        return Err(DuplicateUsername);
      }
      users := users + [user];
      r := Ok(user);
    }

    /** `create_superuser`: default both flags to `True`, then
        `create_user`. */
    method CreateSuperuser(email: Option<string>, password: Option<string>, extras: Extras,
                           normalize: string -> string, hash: Option<string> -> string) returns (r: Result<StaffUser, StaffError>)
      requires Valid()
      modifies this
      ensures Valid()
      ensures r == NewStaffUser(old(users), email, password, SuperuserExtras(extras), normalize, hash)
      ensures r.Ok? ==> users == old(users) + [r.value]
      ensures r.Err? ==> users == old(users)
    {
      var defaults := extras;
      if defaults.isStaff.None? {
        defaults := defaults.(isStaff := Some(true));
      }
      if defaults.isSuperuser.None? {
        defaults := defaults.(isSuperuser := Some(true));
      }
      r := CreateUser(email, password, defaults, normalize, hash);
    }
  }
}
