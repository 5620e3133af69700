/** The `users` table (username TEXT PRIMARY KEY, password TEXT) and the three
    statements the app runs against it. The table is an abstract map from
    username to password; the SQLite connection is not modelled. */
module Credentials {
  import opened Opt

  /** One password per username: the primary key makes the table a map. */
  type UserTable = map<string, string>

  /** A row as `fetchone` returns it. */
  datatype UserRow = UserRow(username: string, password: string)

  /** The table seen as the relation that SQL statements range over. */
  ghost function Rows(users: UserTable): set<UserRow>
  {
    set u | u in users :: UserRow(u, users[u])
  }

  /** `SELECT * FROM users WHERE username = ? AND password = ?`, first row. */
  function ValidateLogin(users: UserTable, username: string, password: string): (row: Option<UserRow>)
    ensures row.Some? <==> UserRow(username, password) in Rows(users)
    ensures row.Some? ==> row.value == UserRow(username, password)
  {
    if username in users && users[username] == password then
      Some(UserRow(username, password))
    else
      None
  }

  /** `SELECT * FROM users WHERE username = ?`, first row. */
  function ValidateSignup(users: UserTable, username: string): (row: Option<UserRow>)
    ensures row.None? <==> forall r :: r in Rows(users) ==> r.username != username
    ensures row.Some? ==> row.value in Rows(users) && row.value.username == username
  {
    if username in users then
      assert UserRow(username, users[username]) in Rows(users);
      Some(UserRow(username, users[username]))
    else
      None
  }

  datatype InsertResult = Inserted(users: UserTable) | IntegrityError

  /** `INSERT INTO users (username, password) VALUES (?, ?)`: a second row with
      the same username violates the primary key and raises IntegrityError. */
  function Insert(users: UserTable, username: string, password: string): (r: InsertResult)
    ensures r.Inserted? <==> forall row :: row in Rows(users) ==> row.username != username
    ensures r.Inserted? ==> Rows(r.users) == Rows(users) + {UserRow(username, password)}
  {
    if username in users then
      assert UserRow(username, users[username]) in Rows(users);
      IntegrityError
    else
      RowsAfterInsert(users, username, password);
      Inserted(users[username := password])
  }

  lemma RowsAfterInsert(users: UserTable, username: string, password: string)
    requires username !in users
    ensures Rows(users[username := password]) == Rows(users) + {UserRow(username, password)}
  {
    var after := users[username := password];
    forall row | row in Rows(after)
      ensures row in Rows(users) + {UserRow(username, password)}
    {
      var u :| u in after && row == UserRow(u, after[u]);
      if u != username {
        assert UserRow(u, users[u]) in Rows(users);
      }
    }
    forall row | row in Rows(users)
      ensures row in Rows(after)
    {
      var u :| u in users && row == UserRow(u, users[u]);
      assert UserRow(u, after[u]) in Rows(after);
    }
    assert UserRow(username, after[username]) in Rows(after);
  }

  /** Usernames are unique in every table: no two rows share a username. */
  lemma PrimaryKey(users: UserTable, r1: UserRow, r2: UserRow)
    requires r1 in Rows(users) && r2 in Rows(users)
    requires r1.username == r2.username
    ensures r1 == r2
  {
  }
}
