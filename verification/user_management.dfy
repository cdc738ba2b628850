/** The user list of the settings page
    (src/components/settings/UserManagement.tsx): the users shown (the given
    ones, or three sample accounts), the search over name and e-mail, and the
    buttons that pick a user for the edit or delete dialog. */
module UserManagement {
  import opened Common

  /** An account of the cashier application. */
  datatype User = User(id: string, name: string, email: string, role: string, isActive: bool)

  /** The sample accounts shown when no users are given. */
  function DefaultUsers(): seq<User> {
    [User("1", "Budi Santoso", "budi@warungku.id", "Admin", true),
     User("2", "Siti Rahayu", "siti@warungku.id", "Kasir", true),
     User("3", "Agus Wijaya", "agus@warungku.id", "Kasir", false)]
  }

  /** `displayUsers`: the given users, unless there are none. */
  function DisplayUsers(users: seq<User>): (r: seq<User>)
    ensures users != [] ==> r == users
    ensures users == [] ==> r == DefaultUsers()
    ensures r != []
  {
    if |users| > 0 then users else DefaultUsers()
  }

  /** The search matches the user's name or e-mail, ignoring case. */
  predicate Matches(u: User, searchQuery: string) {
    IncludesIgnoringCase(u.name, searchQuery) || IncludesIgnoringCase(u.email, searchQuery)
  }

  /** `filteredUsers`: the displayed users the search matches, in their
      order. */
  function FilteredUsers(users: seq<User>, searchQuery: string): (r: seq<User>)
    ensures forall i :: 0 <= i < |r| ==> r[i] in DisplayUsers(users) && Matches(r[i], searchQuery)
    ensures forall i :: 0 <= i < |DisplayUsers(users)| && Matches(DisplayUsers(users)[i], searchQuery) ==>
              DisplayUsers(users)[i] in r
    ensures Subseq(r, DisplayUsers(users))
  {
    Filter(DisplayUsers(users), (u: User) => Matches(u, searchQuery))
  }

  /** An empty search shows every displayed user, in order. */
  lemma EmptySearchShowsAll(users: seq<User>)
    ensures FilteredUsers(users, "") == DisplayUsers(users)
  {
    var shown := DisplayUsers(users);
    forall i | 0 <= i < |shown| ensures Matches(shown[i], "") {
      EmptyQueryMatches(shown[i].name);
    }
    FilterKeepsAll(shown, (u: User) => Matches(u, ""));
  }

  /** The table's status badge. */
  function StatusLabel(u: User): (text: string)
    ensures text == "Aktif" <==> u.isActive
    ensures text == "Nonaktif" <==> !u.isActive
  {
    if u.isActive then "Aktif" else "Nonaktif"
  }

  /** The page's state: the users it was given, which dialogs are open, the
      user picked for the edit or delete dialog and the search text. */
  class Screen {
    const users: seq<User>
    var isAddUserOpen: bool
    var isEditUserOpen: bool
    var isDeleteUserOpen: bool
    var selectedUser: Option<User>
    var searchQuery: string

    /** The page opens with the add dialog already open. */
    constructor (users: seq<User>)
      ensures this.users == users
      ensures isAddUserOpen && !isEditUserOpen && !isDeleteUserOpen
      ensures selectedUser == None && searchQuery == ""
    {
      this.users := users;
      isAddUserOpen := true;
      isEditUserOpen := false;
      isDeleteUserOpen := false;
      selectedUser := None;
      searchQuery := "";
    }

    /** The rows of the table. */
    function Rows(): (r: seq<User>)
      reads this
      ensures Subseq(r, DisplayUsers(users))
    {
      FilteredUsers(users, searchQuery)
    }

    /** Typing in the search box. */
    method SetSearchQuery(q: string)
      modifies this
      ensures searchQuery == q
      ensures isAddUserOpen == old(isAddUserOpen) && isEditUserOpen == old(isEditUserOpen)
      ensures isDeleteUserOpen == old(isDeleteUserOpen) && selectedUser == old(selectedUser)
    {
      searchQuery := q;
    }

    /** `handleEditUser`: picks the user and opens the edit dialog; the other
        dialogs and the search are untouched. */
    method HandleEditUser(u: User)
      modifies this
      ensures selectedUser == Some(u) && isEditUserOpen
      ensures isAddUserOpen == old(isAddUserOpen) && isDeleteUserOpen == old(isDeleteUserOpen)
      ensures searchQuery == old(searchQuery)
    {
      selectedUser := Some(u);
      isEditUserOpen := true;
    }

    /** `handleDeleteUser`: picks the user and opens the delete dialog. */
    method HandleDeleteUser(u: User)
      modifies this
      ensures selectedUser == Some(u) && isDeleteUserOpen
      ensures isAddUserOpen == old(isAddUserOpen) && isEditUserOpen == old(isEditUserOpen)
      ensures searchQuery == old(searchQuery)
    {
      selectedUser := Some(u);
      isDeleteUserOpen := true;
    }

    /** `setIsAddUserOpen`: the add dialog's trigger, its "Batal" button and
        its own close control. */
    method SetAddUserOpen(open: bool)
      modifies this
      ensures isAddUserOpen == open
      ensures isEditUserOpen == old(isEditUserOpen) && isDeleteUserOpen == old(isDeleteUserOpen)
      ensures selectedUser == old(selectedUser) && searchQuery == old(searchQuery)
    {
      isAddUserOpen := open;
    }

    /** `setIsEditUserOpen`: the edit dialog's "Batal" button and its own
        close control; the picked user stays. */
    method SetEditUserOpen(open: bool)
      modifies this
      ensures isEditUserOpen == open
      ensures isAddUserOpen == old(isAddUserOpen) && isDeleteUserOpen == old(isDeleteUserOpen)
      ensures selectedUser == old(selectedUser) && searchQuery == old(searchQuery)
    {
      isEditUserOpen := open;
    }

    /** `setIsDeleteUserOpen`: the delete dialog's "Batal" button and its own
        close control; the picked user stays. */
    method SetDeleteUserOpen(open: bool)
      modifies this
      ensures isDeleteUserOpen == open
      ensures isAddUserOpen == old(isAddUserOpen) && isEditUserOpen == old(isEditUserOpen)
      ensures selectedUser == old(selectedUser) && searchQuery == old(searchQuery)
    {
      isDeleteUserOpen := open;
    }
  }
}
