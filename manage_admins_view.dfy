/**
 * The administrators page: the list of administrators, adding one with its
 * checks, editing another or oneself, deleting (never oneself), and the
 * PIN-guarded wipe of all data.
 */
module ManageAdminsView {
  import opened Wrappers
  import opened Tables
  import opened Database
  import opened CreateOrderView

  /** The add form's fields, `""` when left blank. */
  datatype NewAdminForm = NewAdminForm(
    username: string, password: string, fullName: string, phone: string, email: string,
    securityQuestion: string, securityAnswer: string, permission: AdminPermission)

  datatype AddRefusal = MissingRequired | MissingSecurity | UsernameTaken

  datatype AddOutcome = AddRefused(reason: AddRefusal) | AdminAdded(admin: User)

  function UserName(u: User): Id { u.username }

  /**
   * The checks before an add, in order: username, password and full name must
   * be filled in, then the security question and answer, then the username
   * must be new.
   */
  function ValidateNewAdmin(form: NewAdminForm, users: seq<User>): (r: Option<AddRefusal>)
    ensures r == Some(MissingRequired) <==> form.username == "" || form.password == "" || form.fullName == ""
    ensures r == Some(MissingSecurity) <==>
      form.username != "" && form.password != "" && form.fullName != "" &&
      (form.securityQuestion == "" || form.securityAnswer == "")
    ensures r.None? ==> form.username !in Keys(users, UserName)
    ensures r.None? <==>
      form.username != "" && form.password != "" && form.fullName != "" &&
      form.securityQuestion != "" && form.securityAnswer != "" &&
      forall i :: 0 <= i < |users| ==> users[i].username != form.username
  {
    if form.username == "" || form.password == "" || form.fullName == "" then Some(MissingRequired)
    else if form.securityQuestion == "" || form.securityAnswer == "" then Some(MissingSecurity)
    else if FindIndex(users, UserName, form.username).Some? then Some(UsernameTaken)
    else None
  }

  /** The record an accepted add stores: an active administrator with the chosen permission. */
  function AdminRecord(form: NewAdminForm): User
  {
    User("", form.username, form.password, form.fullName, Admin,
         Some(form.phone), Some(form.email), Some(form.securityQuestion), Some(form.securityAnswer),
         true, Some(form.permission), 0)
  }

  /**
   * Adding an administrator: a refused add writes nothing; an accepted one
   * appends one active administrator, who can then log in with the chosen
   * username and password.
   */
  method HandleAddAdmin(db: LocalDatabase, form: NewAdminForm, now: int) returns (r: AddOutcome)
    modifies db`users
    ensures ValidateNewAdmin(form, old(db.users)).Some? ==>
      r == AddRefused(ValidateNewAdmin(form, old(db.users)).value) && db.users == old(db.users)
    ensures ValidateNewAdmin(form, old(db.users)).None? ==>
      r.AdminAdded? && r.admin == AdminRecord(form).(id := r.admin.id, createdAt := now) &&
      r.admin.id !in Keys(old(db.users), UserKey) && db.users == old(db.users) + [r.admin]
    ensures r.AdminAdded? ==> db.Login(form.username, form.password) == Some(r.admin)
    ensures old(db.Valid()) ==> db.Valid()
  {
    var refusal := ValidateNewAdmin(form, db.users);
    if refusal.Some? {
      return AddRefused(refusal.value);
    }
    ghost var before := db.users;
    var created := db.AddUser(AdminRecord(form), now);
    r := AdminAdded(created);
    FirstMatchIsNew(before, created, form.username, form.password);
  }

  /** When no stored user has the username, the login match is the user just appended. */
  lemma FirstMatchIsNew(users: seq<User>, added: User, username: string, password: string)
    requires forall i :: 0 <= i < |users| ==> users[i].username != username
    requires added.username == username && added.password == password && added.isActive
    ensures FindFirst(users + [added], (u: User) => u.username == username && u.password == password && u.isActive)
      == Some(|users|)
  {
    var s := users + [added];
    var p := (u: User) => u.username == username && u.password == password && u.isActive;
    var r := FindFirst(s, p);
    assert p(s[|users|]);
    assert r.Some?;
  }

  /** An accepted add keeps usernames unique. */
  lemma AddKeepsUsernamesUnique(users: seq<User>, form: NewAdminForm, added: User)
    requires DistinctKeys(users, UserName)
    requires ValidateNewAdmin(form, users).None? && added.username == form.username
    ensures DistinctKeys(users + [added], UserName)
  {
    AppendFreshDistinct(users, UserName, added);
  }

  /** The edit dialog writes username, password, full name, phone and permission, and nothing else. */
  function EditAdminPatch(e: User): UserPatch
  {
    UserPatch(Set(e.username), Set(e.password), Set(e.fullName), Keep, Set(e.phone), Keep, Keep, Keep, Keep,
              Set(e.adminPermission))
  }

  /**
   * Saving the edit dialog for another administrator (nothing when no one is
   * being edited): the stored record takes the dialog's username, password,
   * full name, phone and permission; its email, security question and answer,
   * role and active flag stay.
   */
  method HandleEditAdmin(db: LocalDatabase, editing: Option<User>) returns (r: Option<User>)
    modifies db`users
    ensures editing.None? || editing.value.id !in Keys(old(db.users), UserKey) <==> r.None?
    ensures r.None? ==> db.users == old(db.users)
    ensures r.Some? ==> var e := editing.value;
      var i := FindIndex(old(db.users), UserKey, e.id).value;
      var o := old(db.users)[i];
      r.value == o.(username := e.username, password := e.password, fullName := e.fullName,
                    phone := e.phone, adminPermission := e.adminPermission) &&
      r.value.email == o.email && r.value.securityQuestion == o.securityQuestion &&
      r.value.securityAnswer == o.securityAnswer && r.value.role == o.role && r.value.isActive == o.isActive &&
      db.users == old(db.users)[i := r.value]
    ensures old(db.Valid()) ==> db.Valid()
  {
    if editing.None? {
      return None;
    }
    r := db.UpdateUser(editing.value.id, EditAdminPatch(editing.value));
  }

  /** The self-edit dialog writes the profile and recovery fields, but not role, permission or active flag. */
  function EditSelfPatch(e: User): UserPatch
  {
    UserPatch(Set(e.username), Set(e.password), Set(e.fullName), Keep, Set(e.phone), Set(e.email),
              Set(e.securityQuestion), Set(e.securityAnswer), Keep, Keep)
  }

  /**
   * Saving one's own profile (nothing without a dialog or a signed-in user):
   * the signed-in user's record takes the dialog's username, password, full
   * name, phone, email and security question and answer; role, permission and
   * active flag stay.
   */
  method HandleEditSelf(db: LocalDatabase, editing: Option<User>, current: Option<User>) returns (r: Option<User>)
    modifies db`users
    ensures editing.None? || current.None? ==> r.None? && db.users == old(db.users)
    ensures editing.Some? && current.Some? ==> (r.None? <==> current.value.id !in Keys(old(db.users), UserKey))
    ensures r.None? ==> db.users == old(db.users)
    ensures r.Some? ==> var e := editing.value;
      var i := FindIndex(old(db.users), UserKey, current.value.id).value;
      var o := old(db.users)[i];
      r.value == o.(username := e.username, password := e.password, fullName := e.fullName, phone := e.phone,
                    email := e.email, securityQuestion := e.securityQuestion, securityAnswer := e.securityAnswer) &&
      r.value.role == o.role && r.value.adminPermission == o.adminPermission && r.value.isActive == o.isActive &&
      db.users == old(db.users)[i := r.value]
    ensures old(db.Valid()) ==> db.Valid()
  {
    if editing.None? || current.None? {
      return None;
    }
    r := db.UpdateUser(current.value.id, EditSelfPatch(editing.value));
  }

  /**
   * Deleting an administrator: one's own id is refused outright; otherwise,
   * once confirmed, the store's delete runs.
   */
  method HandleDeleteAdmin(db: LocalDatabase, id: Id, current: Option<User>, confirmed: bool) returns (deleted: bool)
    modifies db`users
    ensures current.Some? && current.value.id == id ==> !deleted && db.users == old(db.users)
    ensures deleted <==> !(current.Some? && current.value.id == id) && confirmed && id in Keys(old(db.users), UserKey)
    ensures db.users == if !(current.Some? && current.value.id == id) && confirmed
      then WithoutKey(old(db.users), UserKey, id) else old(db.users)
    ensures old(db.Valid()) ==> db.Valid()
  {
    if current.Some? && current.value.id == id {
      return false;
    }
    deleted := false;
    if confirmed {
      deleted := db.DeleteUser(id);
    }
  }

  /** The PIN that unlocks wiping all data. */
  const WipePin := "0000"

  /** "Wrong PIN". */
  const WrongPinMessage := "الرمز السري غير صحيح"

  /**
   * Wiping all data: a PIN other than `"0000"` sets the error and clears
   * nothing; with the right PIN and confirmation every table is emptied.
   */
  method HandleDeleteAllData(db: LocalDatabase, pin: string, confirmed: bool) returns (error: Option<string>)
    modifies db`users, db`groups, db`products, db`customers, db`orders, db`items, db`notifications
    ensures pin != WipePin ==> error == Some(WrongPinMessage)
    ensures pin == WipePin ==> error.None?
    ensures !(pin == WipePin && confirmed) ==>
      db.users == old(db.users) && db.groups == old(db.groups) && db.products == old(db.products) &&
      db.customers == old(db.customers) && db.orders == old(db.orders) && db.items == old(db.items) &&
      db.notifications == old(db.notifications)
    ensures pin == WipePin && confirmed ==>
      db.users == [] && db.groups == [] && db.products == [] && db.customers == [] &&
      db.orders == [] && db.items == [] && db.notifications == []
    ensures old(db.Valid()) ==> db.Valid()
  {
    if pin != WipePin {
      return Some(WrongPinMessage);
    }
    error := None;
    if confirmed {
      db.ClearAllData();
    }
  }
}
