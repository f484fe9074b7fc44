/** lib/auth.ts: credential lookup in a constant user table. Passwords are
    compared as plain strings; what leaves the module never carries one. */
module Auth {
  import opened Common

  datatype Role = UserRole | Admin
  datatype Plan = Free | Basic | Standard

  /** `User`: what callers get back. */
  datatype User = User(id: string, email: string, name: string, role: Role, membershipPlan: Plan)

  /** `User & { password: string }`: a table entry. */
  datatype Account = Account(id: string, email: string, password: string, name: string, role: Role, membershipPlan: Plan)

  const Accounts: seq<Account> := [
    Account("1", "test@blogtalk.io", "test123", "테스트 사용자", UserRole, Basic),
    Account("2", "admin@blogtalk.io", "admin123", "관리자", Admin, Standard),
    Account("3", "redmodel11@naver.com", "dlaldud112!", "실제 사용자", UserRole, Standard)
  ]

  /** `const { password: _, ...rest } = account`. */
  function WithoutPassword(a: Account): (u: User)
    ensures u.id == a.id && u.email == a.email && u.name == a.name
    ensures u.role == a.role && u.membershipPlan == a.membershipPlan
  {
    User(a.id, a.email, a.name, a.role, a.membershipPlan)
  }

  /** An entry matches an email and, when one is given, a password. */
  predicate Matches(a: Account, email: string, password: Option<string>) {
    a.email == email && (password.None? || a.password == password.value)
  }

  /** `Array.find`: the index of the first matching entry from `k` on. */
  function FindFrom(table: seq<Account>, email: string, password: Option<string>, k: nat): (r: Option<nat>)
    requires k <= |table|
    decreases |table| - k
    ensures r.Some? ==> k <= r.value < |table| && Matches(table[r.value], email, password)
    ensures r.Some? ==> forall j :: k <= j < r.value ==> !Matches(table[j], email, password)
    ensures r.None? <==> forall j :: k <= j < |table| ==> !Matches(table[j], email, password)
  {
    if k == |table| then None
    else if Matches(table[k], email, password) then Some(k)
    else FindFrom(table, email, password, k + 1)
  }

  function Find(email: string, password: Option<string>): Option<User> {
    match FindFrom(Accounts, email, password, 0)
    case Some(i) => Some(WithoutPassword(Accounts[i]))
    case None => None
  }

  /** authenticateUser. */
  function AuthenticateUser(email: string, password: string): Option<User> {
    Find(email, Some(password))
  }

  /** getUserByEmail. */
  function GetUserByEmail(email: string): Option<User> {
    Find(email, None)
  }

  /** No two entries share an email. */
  lemma EmailsDistinct()
    ensures forall i, j :: 0 <= i < j < |Accounts| ==> Accounts[i].email != Accounts[j].email
  {
  }

  /** A user comes back exactly when some entry has both the email and the
      password, and it is that entry without its password. */
  lemma AuthenticateSpec(email: string, password: string)
    ensures AuthenticateUser(email, password).Some? <==>
              exists i :: 0 <= i < |Accounts| && Accounts[i].email == email && Accounts[i].password == password
    ensures forall i :: 0 <= i < |Accounts| && Accounts[i].email == email && Accounts[i].password == password ==>
              AuthenticateUser(email, password) == Some(WithoutPassword(Accounts[i]))
  {
    var r := FindFrom(Accounts, email, Some(password), 0);
    if r.Some? {
      assert Matches(Accounts[r.value], email, Some(password));
    }
    EmailsDistinct();
  }

  /** The lookup by email ignores passwords: it finds the entry with that
      email, if any. */
  lemma GetUserByEmailSpec(email: string)
    ensures GetUserByEmail(email).Some? <==> exists i :: 0 <= i < |Accounts| && Accounts[i].email == email
    ensures forall i :: 0 <= i < |Accounts| && Accounts[i].email == email ==>
              GetUserByEmail(email) == Some(WithoutPassword(Accounts[i]))
  {
    var r := FindFrom(Accounts, email, None, 0);
    if r.Some? {
      assert Matches(Accounts[r.value], email, None);
    }
    EmailsDistinct();
  }

  /** A successful login yields the same user as the lookup by email. */
  lemma AuthenticateAgreesWithLookup(email: string, password: string)
    requires AuthenticateUser(email, password).Some?
    ensures AuthenticateUser(email, password) == GetUserByEmail(email)
  {
    AuthenticateSpec(email, password);
    var i :| 0 <= i < |Accounts| && Accounts[i].email == email && Accounts[i].password == password;
    GetUserByEmailSpec(email);
  }

  /** The fixture logins. */
  lemma KnownLogins()
    ensures AuthenticateUser("admin@blogtalk.io", "admin123") == Some(User("2", "admin@blogtalk.io", "관리자", Admin, Standard))
    ensures AuthenticateUser("admin@blogtalk.io", "test123").None?
  {
    AuthenticateSpec("admin@blogtalk.io", "admin123");
    AuthenticateSpec("admin@blogtalk.io", "test123");
  }
}
