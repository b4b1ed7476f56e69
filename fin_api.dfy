/**
 * The in-memory account book of the service: the `users` array and the
 * state changes each route handler makes to it. Every handler except
 * registration first resolves the account named by the `cpf` header and
 * fails with `NotRegistered` when there is none; the HTTP layer (status
 * codes, JSON bodies) is reduced to the `Error` returned.
 */
module FinApi {
  import opened Wrappers
  import opened Ledger

  datatype Error =
    | NotRegistered      // "Usuário não cadastrado."
    | AlreadyRegistered  // "Usuário já cadastrado."
    | InsufficientFunds  // "Saldo insuficiente."

  /**
   * A registered user. `cpf` and `id` are written once, at registration;
   * `name` is replaced by `PUT /account` and `statement` grows by appends.
   */
  class Account {
    const cpf: string
    var name: string
    const id: string
    var statement: seq<Operation>

    constructor (cpf: string, name: string, id: string)
      ensures this.cpf == cpf && this.name == name && this.id == id
      ensures statement == []
    {
      this.cpf := cpf;
      this.name := name;
      this.id := id;
      statement := [];
    }
  }

  /**
   * Position of the first account registered under `cpf`, the one
   * `users.find` returns; `None` when no account has that cpf.
   */
  function IndexOf(users: seq<Account>, cpf: string): (r: Option<nat>)
    ensures r.Some? ==> r.value < |users| && users[r.value].cpf == cpf
    ensures r.Some? ==> forall j :: 0 <= j < r.value ==> users[j].cpf != cpf
    ensures r.None? <==> forall j :: 0 <= j < |users| ==> users[j].cpf != cpf
    decreases |users|
  {
    if users == [] then None
    else if users[0].cpf == cpf then Some(0)
    else
      match IndexOf(users[1..], cpf)
      case None => None
      case Some(k) => Some(k + 1)
  }

  /** A position holding `cpf` with no earlier one is the position `IndexOf` finds. */
  lemma FirstMatch(users: seq<Account>, cpf: string, m: nat)
    requires m < |users| && users[m].cpf == cpf
    requires forall j :: 0 <= j < m ==> users[j].cpf != cpf
    ensures IndexOf(users, cpf) == Some(m)
  {
  }

  /** No two accounts share a cpf. */
  predicate UniqueCpfs(users: seq<Account>)
  {
    forall i, j :: 0 <= i < j < |users| ==> users[i].cpf != users[j].cpf
  }

  /** Removing the account at `k` leaves every other cpf resolving to the same account. */
  lemma RemoveAtKeepsOthers(users: seq<Account>, k: nat, cpf: string)
    requires k < |users| && users[k].cpf != cpf
    ensures IndexOf(users[..k] + users[k + 1..], cpf).Some? <==> IndexOf(users, cpf).Some?
    ensures IndexOf(users, cpf).Some? ==>
              (users[..k] + users[k + 1..])[IndexOf(users[..k] + users[k + 1..], cpf).value]
              == users[IndexOf(users, cpf).value]
  {
    var rest := users[..k] + users[k + 1..];
    forall j | 0 <= j < |rest|
      ensures rest[j] == users[if j < k then j else j + 1]
    {
      if j < k {
        assert rest[j] == users[..k][j];
      } else {
        assert rest[j] == users[k + 1..][j - k];
      }
    }
    match IndexOf(users, cpf)
    case None =>
      assert forall j :: 0 <= j < |rest| ==> rest[j].cpf != cpf;
    case Some(m) =>
      var m' := if m < k then m else m - 1;
      assert rest[m'] == users[m];
      assert forall j :: 0 <= j < m' ==> rest[j].cpf != cpf;
      FirstMatch(rest, cpf, m');
  }

  /**
   * Delete as written removes `users[0]`: when the caller's account is not
   * the first one, it stays registered at its shifted position and the
   * first account disappears instead.
   */
  lemma AsWrittenDeleteRemovesFirstAccount(users: seq<Account>, k: nat)
    requires UniqueCpfs(users) && 0 < k < |users|
    ensures IndexOf(users, users[k].cpf) == Some(k)
    ensures IndexOf(users[1..], users[k].cpf) == Some(k - 1)
    ensures IndexOf(users[1..], users[0].cpf).None?
  {
  }

  /** The application: the module-level `users` array and its route handlers. */
  class App {
    var users: seq<Account>

    /** The cpf stays a key: the invariant every handler keeps. */
    ghost predicate Valid()
      reads this
    {
      UniqueCpfs(users)
    }

    constructor ()
      ensures Valid() && users == []
    {
      users := [];
    }

    /**
     * `verifyAccountExists`: the first account whose cpf equals the header,
     * or `None` ("not registered").
     */
    method FindUser(cpf: string) returns (r: Option<Account>)
      ensures r.Some? <==> exists j :: 0 <= j < |users| && users[j].cpf == cpf
      ensures r.Some? ==> r.value.cpf == cpf && IndexOf(users, cpf).Some?
                          && r.value == users[IndexOf(users, cpf).value]
    {
      var i := 0;
      while i < |users|
        invariant 0 <= i <= |users|
        invariant forall j :: 0 <= j < i ==> users[j].cpf != cpf
      {
        if users[i].cpf == cpf {
          return Some(users[i]);
        }
        i := i + 1;
      }
      return None;
    }

    /**
     * `POST /newaccount`. The `.some` existence test is the same first-match
     * search as `FindUser`; `id` is the generated identifier.
     */
    method NewAccount(cpf: string, name: string, id: string) returns (r: Outcome<Error>)
      requires Valid()
      modifies this
      ensures Valid()
      ensures r == (if IndexOf(old(users), cpf).Some? then Fail(AlreadyRegistered) else Pass)
      ensures r.Fail? ==> users == old(users)
      ensures r.Pass? ==>
                && |users| == |old(users)| + 1
                && users[..|old(users)|] == old(users)
                && fresh(users[|old(users)|])
                && users[|old(users)|].name == name
                && users[|old(users)|].id == id
                && users[|old(users)|].statement == []
                && IndexOf(users, cpf) == Some(|old(users)|)
    {
      var existing := FindUser(cpf);
      if existing.Some? {
        return Fail(AlreadyRegistered);
      }
      var account := new Account(cpf, name, id);
      users := users + [account];
      r := Pass;
    }

    /** `GET /statement`: the whole statement, oldest first. */
    method GetStatement(cpf: string) returns (r: Result<seq<Operation>, Error>)
      ensures IndexOf(users, cpf).None? ==> r == Failure(NotRegistered)
      ensures IndexOf(users, cpf).Some? ==> r == Success(users[IndexOf(users, cpf).value].statement)
    {
      var user := FindUser(cpf);
      if user.None? {
        return Failure(NotRegistered);
      }
      r := Success(user.value.statement);
    }

    /**
     * `GET /statement/date`: the operations of the given calendar day, in
     * statement order; `None` is a date that does not parse.
     */
    method GetStatementByDate(cpf: string, date: Option<Day>) returns (r: Result<seq<Operation>, Error>)
      ensures IndexOf(users, cpf).None? ==> r == Failure(NotRegistered)
      ensures IndexOf(users, cpf).Some? ==>
                r == Success(FilterByDay(users[IndexOf(users, cpf).value].statement, date))
    {
      var user := FindUser(cpf);
      if user.None? {
        return Failure(NotRegistered);
      }
      r := Success(FilterByDay(user.value.statement, date));
    }

    /** `GET /balance`: credits minus everything else on the caller's statement. */
    method GetBalance(cpf: string) returns (r: Result<int, Error>)
      ensures IndexOf(users, cpf).None? ==> r == Failure(NotRegistered)
      ensures IndexOf(users, cpf).Some? ==>
                r == Success(Credits(users[IndexOf(users, cpf).value].statement)
                             - Debits(users[IndexOf(users, cpf).value].statement))
    {
      var user := FindUser(cpf);
      if user.None? {
        return Failure(NotRegistered);
      }
      r := Success(Balance(user.value.statement));
    }

    /** `GET /account`: the caller's account record. */
    method GetAccount(cpf: string) returns (r: Result<Account, Error>)
      ensures IndexOf(users, cpf).None? ==> r == Failure(NotRegistered)
      ensures IndexOf(users, cpf).Some? ==> r == Success(users[IndexOf(users, cpf).value])
      ensures r.Success? ==> r.value in users && r.value.cpf == cpf
    {
      var user := FindUser(cpf);
      if user.None? {
        return Failure(NotRegistered);
      }
      r := Success(user.value);
    }

    /**
     * `POST /deposit`: appends a credit dated `today` to the caller's
     * statement, whatever the amount.
     */
    method Deposit(cpf: string, description: string, amount: int, today: Day) returns (r: Outcome<Error>)
      requires Valid()
      modifies users
      ensures Valid() && users == old(users)
      ensures r == (if IndexOf(users, cpf).Some? then Pass else Fail(NotRegistered))
      ensures forall i :: 0 <= i < |users| ==> users[i].name == old(users[i].name)
      ensures forall i :: 0 <= i < |users| ==>
                users[i].statement ==
                  if users[i].cpf == cpf
                  then old(users[i].statement) + [Operation(description, amount, today, CREDIT)]
                  else old(users[i].statement)
      ensures forall i :: 0 <= i < |users| && users[i].cpf == cpf ==>
                Balance(users[i].statement) == Balance(old(users[i].statement)) + amount
    {
      var user := FindUser(cpf);
      if user.None? {
        return Fail(NotRegistered);
      }
      var account := user.value;
      BalanceAppend(account.statement, Operation(description, amount, today, CREDIT));
      account.statement := account.statement + [Operation(description, amount, today, CREDIT)];
      r := Pass;
    }

    /**
     * `POST /withdraw`: refused when the balance is below `amount`;
     * otherwise appends a debit dated `today`.
     */
    method Withdraw(cpf: string, description: string, amount: int, today: Day) returns (r: Outcome<Error>)
      requires Valid()
      modifies users
      ensures Valid() && users == old(users)
      ensures r == if IndexOf(users, cpf).None? then Fail(NotRegistered)
                   else if Balance(old(users[IndexOf(users, cpf).value].statement)) < amount
                   then Fail(InsufficientFunds)
                   else Pass
      ensures forall i :: 0 <= i < |users| ==> users[i].name == old(users[i].name)
      ensures forall i :: 0 <= i < |users| ==>
                users[i].statement ==
                  if users[i].cpf == cpf && r.Pass?
                  then old(users[i].statement) + [Operation(description, amount, today, DEBIT)]
                  else old(users[i].statement)
      ensures r.Pass? ==> forall i :: 0 <= i < |users| && users[i].cpf == cpf ==>
                Balance(users[i].statement) == Balance(old(users[i].statement)) - amount
                && Balance(users[i].statement) >= 0
    {
      var user := FindUser(cpf);
      if user.None? {
        return Fail(NotRegistered);
      }
      var account := user.value;
      var balance := Balance(account.statement);
      if balance < amount {
        return Fail(InsufficientFunds);
      }
      BalanceAppend(account.statement, Operation(description, amount, today, DEBIT));
      account.statement := account.statement + [Operation(description, amount, today, DEBIT)];
      r := Pass;
    }

    /** `PUT /account`: replaces the caller's name and nothing else. */
    method UpdateAccount(cpf: string, name: string) returns (r: Outcome<Error>)
      requires Valid()
      modifies users
      ensures Valid() && users == old(users)
      ensures r == (if IndexOf(users, cpf).Some? then Pass else Fail(NotRegistered))
      ensures forall i :: 0 <= i < |users| ==>
                users[i].name == if users[i].cpf == cpf then name else old(users[i].name)
      ensures forall i :: 0 <= i < |users| ==> users[i].statement == old(users[i].statement)
    {
      var user := FindUser(cpf);
      if user.None? {
        return Fail(NotRegistered);
      }
      user.value.name := name;
      r := Pass;
    }

    /**
     * `DELETE /account` as written: `users.splice(user, 1)` receives the
     * account object as its start position; converted to a number that is
     * NaN, which `splice` reads as 0, so the first registered account is
     * removed whoever the caller is. Answers with the remaining accounts.
     */
    method DeleteAccountAsWritten(cpf: string) returns (r: Result<seq<Account>, Error>)
      requires Valid()
      modifies this
      ensures Valid()
      ensures IndexOf(old(users), cpf).None? ==> r == Failure(NotRegistered) && users == old(users)
      ensures IndexOf(old(users), cpf).Some? ==> users == old(users)[1..] && r == Success(users)
    {
      var user := FindUser(cpf);
      if user.None? {
        return Failure(NotRegistered);
      }
      users := users[1..];
      r := Success(users);
    }

    /**
     * `DELETE /account` as intended: removes the caller's own account, and
     * every other account stays registered under its cpf.
     */
    method DeleteAccount(cpf: string) returns (r: Result<seq<Account>, Error>)
      requires Valid()
      modifies this
      ensures Valid()
      ensures IndexOf(old(users), cpf).None? ==> r == Failure(NotRegistered) && users == old(users)
      ensures IndexOf(old(users), cpf).Some? ==>
                var k := IndexOf(old(users), cpf).value;
                users == old(users)[..k] + old(users)[k + 1..] && r == Success(users)
      ensures IndexOf(users, cpf).None?
      ensures forall other :: other != cpf ==>
                (IndexOf(users, other).Some? <==> IndexOf(old(users), other).Some?)
    {
      var i := 0;
      while i < |users|
        invariant 0 <= i <= |users|
        invariant forall j :: 0 <= j < i ==> users[j].cpf != cpf
      {
        if users[i].cpf == cpf {
          break;
        }
        i := i + 1;
      }
      if i == |users| {
        return Failure(NotRegistered);
      }
      ghost var before := users;
      users := users[..i] + users[i + 1..];
      forall other | other != cpf
        ensures IndexOf(users, other).Some? <==> IndexOf(before, other).Some?
      {
        RemoveAtKeepsOthers(before, i, other);
      }
      assert forall j :: 0 <= j < |users| ==> users[j] == before[if j < i then j else j + 1];
      r := Success(users);
    }
  }

  /** Two deposits, then a refused and an accepted withdrawal, on a fresh application. */
  method BalanceSession()
  {
    var app := new App();
    var ok := app.NewAccount("111", "Alice", "id-1");
    var alice := app.users[0];
    assert app.users == [alice] && alice.cpf == "111" && Balance(alice.statement) == 0;
    ok := app.NewAccount("111", "Alice", "id-2");
    assert ok == Fail(AlreadyRegistered);
    ok := app.Deposit("111", "salary", 100, 1);
    ok := app.Deposit("111", "gift", 50, 2);
    assert Balance(alice.statement) == 150;
    ok := app.Withdraw("111", "rent", 200, 2);
    assert ok == Fail(InsufficientFunds);
    ok := app.Withdraw("111", "rent", 150, 2);
    assert ok == Pass;
    var balance := app.GetBalance("111");
    assert balance == Success(0);
  }

  /** Deleting the second account as written takes the first one away instead. */
  method DeleteSession()
  {
    var app := new App();
    var ok := app.NewAccount("111", "Alice", "id-1");
    ok := app.NewAccount("222", "Bob", "id-2");
    assert ok == Pass;
    AsWrittenDeleteRemovesFirstAccount(app.users, 1);
    var gone := app.DeleteAccountAsWritten("222");
    var bob := app.GetAccount("222");
    var alice := app.GetAccount("111");
    assert bob.Success? && alice == Failure(NotRegistered);
  }
}
