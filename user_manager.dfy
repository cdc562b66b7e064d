/** The user list screen (`src/components/UserManager.js`): staff accounts in a
    local list edited through a form whose role defaults to `staff`.
    `Date.now()` is the `freshId` argument and the answer to `window.confirm`
    the `confirmed` argument. */
module UserManager {
  import opened Common

  datatype User = User(
    id: int, username: string, name: string, role: string, phone: string,
    salesCount: int, history: seq<string>)

  datatype UserForm = UserForm(username: string, name: string, phone: string, role: string)

  const BlankUserForm := UserForm("", "", "", "staff")

  /** The component's state; `editingId` is `null` outside edit mode. */
  datatype UserScreen = UserScreen(
    users: seq<User>, form: UserForm, editingId: Option<int>, selected: Option<User>)

  predicate UniqueUserIds(us: seq<User>) {
    forall i, j :: 0 <= i < j < |us| ==> us[i].id != us[j].id
  }

  function UserIds(us: seq<User>): set<int> {
    set u | u in us :: u.id
  }

  /** `{ ...u, ...form }`. */
  function MergeUserForm(u: User, form: UserForm): User {
    u.(username := form.username, name := form.name, phone := form.phone, role := form.role)
  }

  function ApplyUserForm(us: seq<User>, id: int, form: UserForm): (r: seq<User>)
    ensures |r| == |us|
    ensures forall i :: 0 <= i < |r| ==> r[i] == if us[i].id == id then MergeUserForm(us[i], form) else us[i]
  {
    seq(|us|, i requires 0 <= i < |us| => if us[i].id == id then MergeUserForm(us[i], form) else us[i])
  }

  function NotUser(id: int): User -> bool {
    (u: User) => u.id != id
  }

  /** `handleSubmit`: with a (truthy) `editingId` the form is merged into that
      user; otherwise a user with no sales and no history is appended. Either
      way the form goes back to blank with role `staff` and edit mode ends. */
  function SubmitUser(s: UserScreen, freshId: int): (r: UserScreen)
    ensures r.form == BlankUserForm && r.form.role == "staff"
    ensures r.editingId.None? && r.selected == s.selected
  {
    var users :=
      if TruthyInt(s.editingId) then ApplyUserForm(s.users, s.editingId.value, s.form)
      else s.users + [User(freshId, s.form.username, s.form.name, s.form.role, s.form.phone, 0, [])];
    UserScreen(users, BlankUserForm, None, s.selected)
  }

  /** `handleEdit`: load the user into the form and enter edit mode. */
  function EditUser(s: UserScreen, u: User): (r: UserScreen)
    ensures r.form == UserForm(u.username, u.name, u.phone, u.role) && r.editingId == Some(u.id)
    ensures r.users == s.users && r.selected == s.selected
  {
    s.(form := UserForm(u.username, u.name, u.phone, u.role), editingId := Some(u.id))
  }

  /** `handleDelete`: when confirmed, drop the users with that id and clear the
      selection if it is one of them. */
  function DeleteUser(s: UserScreen, id: int, confirmed: bool): (r: UserScreen)
    ensures !confirmed ==> r == s
    ensures confirmed ==> forall u :: u in r.users <==> u in s.users && u.id != id
    ensures confirmed ==> Subsequence(r.users, s.users)
    ensures confirmed ==>
      r.selected == if s.selected.Some? && s.selected.value.id == id then None else s.selected
    ensures r.form == s.form && r.editingId == s.editingId
  {
    if !confirmed then s
    else
      var selected := if s.selected.Some? && s.selected.value.id == id then None else s.selected;
      FilterSubsequence(s.users, NotUser(id));
      s.(users := Filter(s.users, NotUser(id)), selected := selected)
  }

  /** Edit mode rewrites the form fields of the edited user only and keeps its
      sales count and history. */
  lemma SubmitEditUserFacts(s: UserScreen, freshId: int)
    requires TruthyInt(s.editingId)
    ensures var r := SubmitUser(s, freshId);
      && |r.users| == |s.users|
      && forall i :: 0 <= i < |r.users| ==>
           var (u, v) := (s.users[i], r.users[i]);
           && v.id == u.id && v.salesCount == u.salesCount && v.history == u.history
           && (u.id == s.editingId.value ==>
                 UserForm(v.username, v.name, v.phone, v.role) == s.form)
           && (u.id != s.editingId.value ==> v == u)
  {
  }

  /** Add mode appends exactly one user, with no sales, and keeps ids unique
      when the fresh id is new. */
  lemma SubmitAddUserFacts(s: UserScreen, freshId: int)
    requires !TruthyInt(s.editingId)
    ensures var r := SubmitUser(s, freshId);
      && r.users == s.users + [User(freshId, s.form.username, s.form.name, s.form.role, s.form.phone, 0, [])]
      && (UniqueUserIds(s.users) && freshId !in UserIds(s.users) ==> UniqueUserIds(r.users))
  {
    if UniqueUserIds(s.users) && freshId !in UserIds(s.users) {
      forall i | 0 <= i < |s.users| ensures s.users[i].id != freshId {
        assert s.users[i] in s.users;
      }
    }
  }

  /** Editing a listed user and submitting the form untouched leaves the list
      as it was. */
  lemma EditSubmitUserRoundTrip(s: UserScreen, u: User, freshId: int)
    requires u in s.users && UniqueUserIds(s.users) && u.id != 0
    ensures SubmitUser(EditUser(s, u), freshId).users == s.users
  {
    var r := SubmitUser(EditUser(s, u), freshId);
    forall i | 0 <= i < |s.users| ensures r.users[i] == s.users[i] {
      if s.users[i].id == u.id {
        var k :| 0 <= k < |s.users| && s.users[k] == u;
        assert k == i;
      }
    }
  }

  /** Deleting the user just added under a new id restores the list. */
  lemma AddDeleteUserRoundTrip(s: UserScreen, freshId: int)
    requires !TruthyInt(s.editingId) && freshId !in UserIds(s.users)
    ensures DeleteUser(SubmitUser(s, freshId), freshId, true).users == s.users
  {
    var added := SubmitUser(s, freshId).users;
    assert forall u :: u in s.users ==> u.id != freshId;
    FilterDropsOne(added, NotUser(freshId), |s.users|);
    assert added[..|s.users|] + added[|s.users| + 1..] == s.users;
  }

  /** A confirmed delete keeps the other users in their order. */
  lemma DeleteUserKeepsOrder(s: UserScreen, id: int, i: nat)
    requires UniqueUserIds(s.users) && i < |s.users| && s.users[i].id == id
    ensures DeleteUser(s, id, true).users == s.users[..i] + s.users[i + 1..]
  {
    FilterDropsOne(s.users, NotUser(id), i);
  }
}
