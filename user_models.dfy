/**
 * The custom `User` model: its display name rules, its `clean` validation
 * (phone prefix, email uniqueness), `save` (which validates first) and
 * `invalidate_all_sessions` (which clears the single-session token).
 */
module UserModels {
  import opened Wrappers
  import opened Text
  import opened BaseModels

  datatype User = User(
    pk: Id,
    phoneNumber: string,
    firstName: string,
    lastName: string,
    email: Option<string>,
    isVerified: bool,
    currentTokenId: Option<string>)

  datatype UserError =
    | PhoneBlank    // `phone_number` is a required field
    | PhonePrefix   // "Phone number must start with 998"
    | EmailTaken    // "A user with this email already exists."
    | PhoneTaken    // `phone_number` is unique
    | NotSaved      // an update of a row that does not exist

  /** `User.__str__`. */
  function Str(u: User): string
  {
    if u.firstName != "" && u.lastName != "" then u.firstName + " " + u.lastName else u.phoneNumber
  }

  /** The `full_name` property. */
  function FullName(u: User): string
  {
    var n := Strip(u.firstName + " " + u.lastName);
    if n != "" then n else u.phoneNumber
  }

  /**
   * `full_name` is "first last" with surrounding whitespace removed, and the
   * phone number when that leaves nothing, i.e. exactly when both names are
   * blank or whitespace.
   */
  lemma FullNameSpec(u: User)
    ensures var n := u.firstName + " " + u.lastName;
      && (AllSpace(n) ==> FullName(u) == u.phoneNumber)
      && (!AllSpace(n) ==>
            (FullName(u) == Strip(n) && FullName(u) != ""
             && !IsSpace(FullName(u)[0]) && !IsSpace(FullName(u)[|FullName(u)| - 1])))
  {
    var n := u.firstName + " " + u.lastName;
    StripEmptyIff(n);
  }

  /**
   * When both names are non-empty and carry no whitespace at their outer
   * ends, `__str__` and `full_name` agree; when either is empty `__str__` is
   * the phone number.
   */
  lemma StrMatchesFullName(u: User)
    ensures u.firstName == "" || u.lastName == "" ==> Str(u) == u.phoneNumber
    ensures u.firstName != "" && u.lastName != ""
      && !IsSpace(u.firstName[0]) && !IsSpace(u.lastName[|u.lastName| - 1])
      ==> Str(u) == FullName(u)
  {
    var n := u.firstName + " " + u.lastName;
    if u.firstName != "" && u.lastName != "" && !IsSpace(u.firstName[0]) && !IsSpace(u.lastName[|u.lastName| - 1]) {
      assert n[0] == u.firstName[0];
      assert n[|n| - 1] == u.lastName[|u.lastName| - 1];
      StripKeeps(n);
    }
  }

  /**
   * `BaseUserManager.normalize_email`, which `AbstractUser.clean` applies to
   * the instance: a missing email becomes "", and an address that contains
   * '@' is stripped and the part after its last '@' lower-cased; an address
   * without '@' is kept as it is, unstripped.
   */
  function NormalizeEmail(e: Option<string>): (r: string)
    ensures e.None? ==> r == ""
    ensures e.Some? && '@' !in e.value ==> r == e.value
  {
    var s := if e.Some? then e.value else "";
    var t := Strip(s);
    var i := RFind(t, '@');
    if i < 0 then s else t[..i] + "@" + Lower(t[i + 1..])
  }

  /** Replacing what follows the last '@' by its lower-case form keeps that '@' the last one. */
  lemma RFindAfterLower(t: string, i: int)
    requires 0 <= i < |t| && t[i] == '@' && RFind(t, '@') == i
    ensures var r := t[..i] + "@" + Lower(t[i + 1..]);
      RFind(r, '@') == i && r[..i] == t[..i] && r[i + 1..] == Lower(t[i + 1..])
  {
    var r := t[..i] + "@" + Lower(t[i + 1..]);
    assert r[i] == '@';
    forall j | i < j < |r|
      ensures r[j] != '@'
    {
      assert r[j] == LowerChar(t[j]);
    }
    assert r[i + 1..] == Lower(t[i + 1..]);
  }

  /** Lower-casing the domain of a stripped address keeps whitespace off both its ends. */
  lemma LoweredEdges(t: string, i: int)
    requires t != [] && !IsSpace(t[0]) && !IsSpace(t[|t| - 1])
    requires 0 <= i < |t| && t[i] == '@'
    ensures var r := t[..i] + "@" + Lower(t[i + 1..]);
      r != [] && !IsSpace(r[0]) && !IsSpace(r[|r| - 1])
  {
    var d := t[i + 1..];
    var r := t[..i] + "@" + Lower(d);
    assert r[0] == if i > 0 then t[0] else '@';
    if d != [] {
      assert r[|r| - 1] == Lower(d)[|d| - 1] == LowerChar(t[|t| - 1]);
    }
  }

  /** The normalisation of an address that is its own strip and whose last '@' is at `i`. */
  lemma NormalizeStripped(r: string, i: int)
    requires Strip(r) == r && 0 <= i && RFind(r, '@') == i
    ensures NormalizeEmail(Some(r)) == r[..i] + "@" + Lower(r[i + 1..])
  {
  }

  /** After lower-casing, nothing past position `i` is an upper-case letter. */
  lemma LoweredDomain(t: string, i: int)
    requires 0 <= i < |t|
    ensures var r := t[..i] + "@" + Lower(t[i + 1..]);
      forall j :: i < j < |r| ==> !('A' <= r[j] <= 'Z')
  {
    var d := t[i + 1..];
    var r := t[..i] + "@" + Lower(d);
    forall j | i < j < |r|
      ensures !('A' <= r[j] <= 'Z')
    {
      assert r[j] == Lower(d)[j - i - 1];
    }
  }

  /**
   * A normalised address with an '@' (a stripped `t` whose last '@' is at
   * `i`, its domain lower-cased) normalises to itself.
   */
  lemma NormalizedAgain(t: string, i: int)
    requires t != [] && !IsSpace(t[0]) && !IsSpace(t[|t| - 1])
    requires 0 <= i < |t| && t[i] == '@' && RFind(t, '@') == i
    ensures var r := t[..i] + "@" + Lower(t[i + 1..]);
      && NormalizeEmail(Some(r)) == r
      && forall j :: i < j < |r| ==> !('A' <= r[j] <= 'Z')
  {
    var d := t[i + 1..];
    var r := t[..i] + "@" + Lower(d);
    RFindAfterLower(t, i);
    LoweredEdges(t, i);
    StripKeeps(r);
    NormalizeStripped(r, i);
    assert Lower(r[i + 1..]) == Lower(d) by {
      LowerIdempotent(d);
    }
    assert r[..i] + "@" + Lower(r[i + 1..]) == r;
    LoweredDomain(t, i);
  }

  /**
   * Normalising an already normalised email changes nothing, so a stored
   * (normalised) email is what a later `clean` compares against; and in a
   * normalised address nothing after the last '@' is upper-case.
   */
  lemma NormalizeEmailIdempotent(e: Option<string>)
    ensures var r := NormalizeEmail(e);
      && NormalizeEmail(Some(r)) == r
      && ('@' in r ==> forall j :: RFind(r, '@') < j < |r| ==> !('A' <= r[j] <= 'Z'))
  {
    var s := if e.Some? then e.value else "";
    var t := Strip(s);
    var i := RFind(t, '@');
    StripHas(s, '@');
    if i >= 0 {
      RFindAfterLower(t, i);
      NormalizedAgain(t, i);
    }
  }

  /** The instance as `super().clean()` leaves it: its email normalised. */
  function Normalized(u: User): User
  {
    u.(email := Some(NormalizeEmail(u.email)))
  }

  /** Another user (a different pk) already holds this user's non-empty email. */
  predicate EmailTakenBy(u: User, users: map<Id, User>)
  {
    u.email.Some? && u.email.value != ""
    && exists k :: k in users && k != u.pk && users[k].email == u.email
  }

  /** Another user (a different pk) already holds this user's phone number. */
  predicate PhoneTakenBy(u: User, users: map<Id, User>)
  {
    exists k :: k in users && k != u.pk && users[k].phoneNumber == u.phoneNumber
  }

  /**
   * `User.clean`, which normalises the email first and then raises on the
   * first rule broken.
   */
  function Clean(u: User, users: map<Id, User>): Option<UserError>
  {
    var n := Normalized(u);
    if n.phoneNumber != "" && !StartsWith(n.phoneNumber, "998") then Some(PhonePrefix)
    else if EmailTakenBy(n, users) then Some(EmailTaken)
    else None
  }

  /**
   * `clean` passes exactly when the phone is empty or starts with 998 and no
   * other user holds the normalised email; a bad prefix is reported before
   * the email; the user's own stored row never counts against it; and
   * cleaning the normalised instance gives the same verdict.
   */
  lemma CleanSpec(u: User, users: map<Id, User>, own: User)
    ensures Clean(u, users) == None <==>
      (u.phoneNumber == "" || StartsWith(u.phoneNumber, "998")) && !EmailTakenBy(Normalized(u), users)
    ensures u.phoneNumber != "" && !StartsWith(u.phoneNumber, "998") ==> Clean(u, users) == Some(PhonePrefix)
    ensures Clean(u, users[u.pk := own]) == Clean(u, users)
    ensures Clean(Normalized(u), users) == Clean(u, users)
  {
    var n := Normalized(u);
    var m := users[u.pk := own];
    if EmailTakenBy(n, users) {
      var k :| k in users && k != u.pk && users[k].email == n.email;
      assert m[k] == users[k];
    }
    if EmailTakenBy(n, m) {
      var k :| k in m && k != u.pk && m[k].email == n.email;
      assert users[k] == m[k];
    }
    NormalizeEmailIdempotent(u.email);
    assert Normalized(n) == n;
  }

  /**
   * Two accounts whose emails differ only in the case of the domain collide:
   * with "bob@example.com" stored, "bob@EXAMPLE.com" is refused.
   */
  lemma DomainCaseCollides()
    ensures var stored := User(1, "998901112233", "", "", Some("a@b"), false, None);
      var u := User(2, "998904445566", "", "", Some("a@B"), false, None);
      Clean(u, map[1 := stored]) == Some(EmailTaken)
  {
    var e := "a@B";
    StripKeeps(e);
    assert RFind(e, '@') == 1;
    assert Lower(e[2..]) == "b";
    assert e[..1] + "@" + "b" == "a@b";
    assert NormalizeEmail(Some(e)) == "a@b";
    var stored := User(1, "998901112233", "", "", Some("a@b"), false, None);
    var u := User(2, "998904445566", "", "", Some("a@B"), false, None);
    assert StartsWith(u.phoneNumber, "998") by {
      assert u.phoneNumber[..3] == "998";
    }
    var users := map[1 := stored];
    assert 1 in users && 1 != u.pk && users[1].email == Normalized(u).email;
  }

  /**
   * `full_clean` as far as this model goes: the required phone field, then
   * `clean`, then the uniqueness of the phone number.
   */
  function FullCleanError(u: User, users: map<Id, User>): Option<UserError>
  {
    if u.phoneNumber == "" then Some(PhoneBlank)
    else if Clean(u, users).Some? then Clean(u, users)
    else if PhoneTakenBy(u, users) then Some(PhoneTaken)
    else None
  }

  /** An email as `clean` leaves it: the normalisation of some input. */
  ghost predicate NormalEmail(e: Option<string>)
  {
    exists raw :: e == Some(NormalizeEmail(raw))
  }

  /**
   * What every stored user satisfies: keys are pks, phones valid and unique,
   * emails normalised, non-empty emails unique.
   */
  ghost predicate UsersValid(users: map<Id, User>)
  {
    && (forall k :: k in users ==> users[k].pk == k)
    && (forall k :: k in users ==> users[k].phoneNumber != "" && StartsWith(users[k].phoneNumber, "998"))
    && (forall k :: k in users ==> NormalEmail(users[k].email))
    && PhonesUnique(users)
    && EmailsUnique(users)
  }

  ghost predicate PhonesUnique(users: map<Id, User>)
  {
    forall k, j :: k in users && j in users && k != j ==> users[k].phoneNumber != users[j].phoneNumber
  }

  /** No two users hold the same non-empty email. */
  ghost predicate EmailsUnique(users: map<Id, User>)
  {
    forall k, j :: k in users && j in users && k != j && users[k].email.Some? && users[k].email.value != ""
      ==> users[k].email != users[j].email
  }

  /** A stored user saved again unchanged passes validation: its own email and phone do not count. */
  lemma StoredUserRevalidates(users: map<Id, User>, k: Id)
    requires UsersValid(users) && k in users
    ensures FullCleanError(users[k], users) == None
  {
    var raw :| users[k].email == Some(NormalizeEmail(raw));
    NormalizeEmailIdempotent(raw);
    assert Normalized(users[k]) == users[k];
  }

  /**
   * Writing a user with a valid phone and a normalised email that no other
   * user holds keeps the directory valid.
   */
  lemma SaveKeepsValid(users: map<Id, User>, n: User)
    requires UsersValid(users)
    requires n.phoneNumber != "" && StartsWith(n.phoneNumber, "998") && NormalEmail(n.email)
    requires !EmailTakenBy(n, users) && !PhoneTakenBy(n, users)
    ensures UsersValid(users[n.pk := n])
  {
    PhonesStayUnique(users, n);
    EmailsStayUnique(users, n);
  }

  lemma PhonesStayUnique(users: map<Id, User>, n: User)
    requires PhonesUnique(users) && !PhoneTakenBy(n, users)
    ensures PhonesUnique(users[n.pk := n])
  {
  }

  lemma EmailsStayUnique(users: map<Id, User>, n: User)
    requires EmailsUnique(users) && !EmailTakenBy(n, users)
    ensures EmailsUnique(users[n.pk := n])
  {
  }

  /** Clearing a stored user's token keeps the directory valid. */
  lemma ClearTokenKeepsValid(users: map<Id, User>, k: Id)
    requires UsersValid(users) && k in users
    ensures UsersValid(users[k := users[k].(currentTokenId := None)])
  {
    var x := users[k].(currentTokenId := None);
    PhonesStayUnique(users, x);
    EmailsStayUnique(users, x);
  }

  class UserDirectory {
    var users: map<Id, User>

    ghost predicate Valid()
      reads this
    {
      UsersValid(users)
    }

    constructor ()
      ensures Valid() && users == map[]
    {
      users := map[];
    }

    /**
     * `User.save`: `full_clean` first, which normalises the instance's email
     * in any case, and the normalised row is written only if it passes.
     */
    method Save(u: User) returns (instance: User, err: Option<UserError>)
      requires Valid()
      modifies this
      ensures Valid()
      ensures instance == Normalized(u)
      ensures err == FullCleanError(u, old(users))
      ensures err.None? ==> users == old(users)[u.pk := instance]
      ensures err.Some? ==> users == old(users)
    {
      instance := Normalized(u);
      err := FullCleanError(u, users);
      if err.None? {
        assert NormalEmail(instance.email);
        SaveKeepsValid(users, instance);
        users := users[u.pk := instance];
      }
    }

    /**
     * `invalidate_all_sessions`: the instance's token is cleared and its
     * email normalised in any case; the row's token column is written only
     * when the instance passes `full_clean` and its row exists, and no other
     * column changes.
     */
    method InvalidateAllSessions(u: User) returns (cleared: User, err: Option<UserError>)
      requires Valid()
      modifies this
      ensures Valid()
      ensures cleared == Normalized(u).(currentTokenId := None)
      ensures err.None? <==> FullCleanError(u.(currentTokenId := None), old(users)).None? && u.pk in old(users)
      ensures err.None? ==> users == old(users)[u.pk := old(users)[u.pk].(currentTokenId := None)]
      ensures err.Some? ==> users == old(users)
    {
      cleared := Normalized(u.(currentTokenId := None));
      err := FullCleanError(u.(currentTokenId := None), users);
      if err.None? {
        if u.pk in users {
          ClearTokenKeepsValid(users, u.pk);
          users := users[u.pk := users[u.pk].(currentTokenId := None)];
        } else {
          err := Some(NotSaved);
        }
      }
    }
  }
}
