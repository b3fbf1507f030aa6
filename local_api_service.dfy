/** The in-memory backend: a fixed table of users and their accounts. */
module LocalApi {
  import opened Wrappers
  import opened Lists

  /** An account; its balance is the one field the backend changes. */
  datatype Account = Account(id: string, main: bool, balance: real)
  datatype User = User(id: string, firstname: string, lastname: string, password: string, accounts: seq<Account>)
  datatype Credentials = Credentials(id: string, password: string)
  datatype CredentialsResult = CredentialsResult(granted: bool)
  datatype Transfer = Transfer(senderId: string, recipientId: string, amount: real)
  datatype TransferResult = TransferResult(result: bool)

  const SenderNotFoundMessage: string := "The sender cannot be found"
  const RecipientNotFoundMessage: string := "The recipient cannot be found"
  const NegativeAmountMessage: string := "The amount to send cannot be negative"

  /** The table the service starts with. */
  const SeedUsers: seq<User> := [
    User("1234", "Pierre", "Brisette", "p@sswOrd",
         [Account("1", true, 2354.23), Account("2", false, 235.22)]),
    User("5678", "Gustave", "Charbonneau", "T0pSecr3t",
         [Account("3", false, 24.53), Account("4", true, 10032.21)])
  ]

  /** No two users share an identifier. */
  predicate UniqueIds(users: seq<User>) {
    forall i, j :: 0 <= i < j < |users| ==> users[i].id != users[j].id
  }

  function HasId(id: string): User -> bool {
    (u: User) => u.id == id
  }

  function IsMain(a: Account): bool { a.main }

  /** Position of the user `getUserById` finds, `|users|` when there is none. */
  function UserIndex(users: seq<User>, id: string): (k: nat)
    ensures k <= |users|
    ensures forall j :: 0 <= j < k ==> users[j].id != id
    ensures k < |users| ==> users[k].id == id
  {
    var k := FirstIndex(users, HasId(id));
    assert forall j :: 0 <= j < k ==> !HasId(id)(users[j]);
    k
  }

  /** Position of a user's main account, `|accounts|` when none is flagged. */
  function MainIndex(accounts: seq<Account>): (k: nat)
    ensures k <= |accounts|
    ensures forall j :: 0 <= j < k ==> !accounts[j].main
    ensures k < |accounts| ==> accounts[k].main
  {
    FirstIndex(accounts, IsMain)
  }

  /** `getUserById`: the first user carrying the identifier, or none. */
  function GetUserById(users: seq<User>, id: string): (r: Option<User>)
    ensures r.None? <==> forall i :: 0 <= i < |users| ==> users[i].id != id
    ensures r.Some? ==> exists k :: 0 <= k < |users| && users[k] == r.value && r.value.id == id &&
                          forall j :: 0 <= j < k ==> users[j].id != id
  {
    var k := UserIndex(users, id);
    if k < |users| then Some(users[k]) else None
  }

  /** `login`: the found user's password must equal the one given; an unknown identifier is refused. */
  function LoginOn(users: seq<User>, credentials: Credentials): (r: CredentialsResult)
    ensures r.granted ==> exists i :: 0 <= i < |users| && users[i].id == credentials.id &&
                                      users[i].password == credentials.password
    ensures (forall i :: 0 <= i < |users| ==> users[i].id != credentials.id) ==> !r.granted
  {
    var user := GetUserById(users, credentials.id);
    CredentialsResult(user.Some? && user.value.password == credentials.password)
  }

  /** With unique identifiers, access is granted exactly when some user has that identifier and password. */
  lemma LoginGrantedIff(users: seq<User>, credentials: Credentials)
    requires UniqueIds(users)
    ensures LoginOn(users, credentials).granted <==>
              exists i :: 0 <= i < |users| && users[i].id == credentials.id &&
                          users[i].password == credentials.password
  {
    if i :| 0 <= i < |users| && users[i].id == credentials.id && users[i].password == credentials.password {
      assert UserIndex(users, credentials.id) == i;
    }
  }

  lemma SeedUsersUnique()
    ensures UniqueIds(SeedUsers)
  {
  }

  /** Each seed user logs in with their own password, and not with the other's. */
  lemma SeedLoginScenario()
    ensures LoginOn(SeedUsers, Credentials("1234", "p@sswOrd")).granted
    ensures LoginOn(SeedUsers, Credentials("5678", "T0pSecr3t")).granted
    ensures !LoginOn(SeedUsers, Credentials("1234", "T0pSecr3t")).granted
    ensures !LoginOn(SeedUsers, Credentials("0000", "p@sswOrd")).granted
  {
    assert UserIndex(SeedUsers, "1234") == 0;
    assert UserIndex(SeedUsers, "5678") == 1 by {
      assert SeedUsers[0].id[0] != "5678"[0];
    }
    assert UserIndex(SeedUsers, "0000") == 2 by {
      assert SeedUsers[0].id[0] != "0000"[0];
      assert SeedUsers[1].id[0] != "0000"[0];
    }
    assert SeedUsers[0].password[0] != "T0pSecr3t"[0];
  }

  /** `accounts`: the found user's accounts, or the empty list for an unknown identifier. */
  function AccountsOn(users: seq<User>, id: string): (r: seq<Account>)
    ensures (forall i :: 0 <= i < |users| ==> users[i].id != id) ==> r == []
    ensures forall k :: (0 <= k < |users| && users[k].id == id &&
                         forall j :: 0 <= j < k ==> users[j].id != id) ==> r == users[k].accounts
  {
    match GetUserById(users, id)
    case Some(user) => user.accounts
    case None => []
  }

  /** The table with one account's balance replaced. */
  function SetBalance(users: seq<User>, i: nat, j: nat, balance: real): (r: seq<User>)
    requires i < |users| && j < |users[i].accounts|
  {
    var user := users[i];
    users[i := user.(accounts := user.accounts[j := user.accounts[j].(balance := balance)])]
  }

  function AccountsTotal(accounts: seq<Account>): real {
    if accounts == [] then 0.0 else accounts[0].balance + AccountsTotal(accounts[1..])
  }

  /** The sum of every balance of every user. */
  function Total(users: seq<User>): real {
    if users == [] then 0.0 else AccountsTotal(users[0].accounts) + Total(users[1..])
  }

  lemma {:induction false} AccountsTotalUpdate(accounts: seq<Account>, j: nat, balance: real)
    requires j < |accounts|
    ensures AccountsTotal(accounts[j := accounts[j].(balance := balance)])
              == AccountsTotal(accounts) - accounts[j].balance + balance
  {
    var updated := accounts[j := accounts[j].(balance := balance)];
    if j == 0 {
      assert updated[1..] == accounts[1..];
    } else {
      assert updated[1..] == accounts[1..][j - 1 := accounts[j].(balance := balance)];
      AccountsTotalUpdate(accounts[1..], j - 1, balance);
    }
  }

  lemma {:induction false} TotalUpdate(users: seq<User>, i: nat, user: User)
    requires i < |users|
    ensures Total(users[i := user]) == Total(users) - AccountsTotal(users[i].accounts) + AccountsTotal(user.accounts)
  {
    var updated := users[i := user];
    if i == 0 {
      assert updated[1..] == users[1..];
    } else {
      assert updated[1..] == users[1..][i - 1 := user];
      TotalUpdate(users[1..], i - 1, user);
    }
  }

  /** Replacing one balance changes the total by exactly the difference. */
  lemma SetBalanceTotal(users: seq<User>, i: nat, j: nat, balance: real)
    requires i < |users| && j < |users[i].accounts|
    ensures Total(SetBalance(users, i, j, balance)) == Total(users) - users[i].accounts[j].balance + balance
  {
    var user := users[i];
    AccountsTotalUpdate(user.accounts, j, balance);
    TotalUpdate(users, i, user.(accounts := user.accounts[j := user.accounts[j].(balance := balance)]));
  }

  /**
   * What `transfer` computes on a table: the answer and the table afterwards.
   * The debit is applied first and the credit reads the debited table, as the
   * two in-place updates do when both main accounts are the same object.
   */
  function TransferOn(users: seq<User>, t: Transfer): (Result<TransferResult>, seq<User>) {
    var s := UserIndex(users, t.senderId);
    var r := UserIndex(users, t.recipientId);
    if s == |users| then (Err(SenderNotFoundMessage), users)
    else if r == |users| then (Err(RecipientNotFoundMessage), users)
    else if t.amount < 0.0 then (Err(NegativeAmountMessage), users)
    else
      var sa := MainIndex(users[s].accounts);
      var ra := MainIndex(users[r].accounts);
      if sa == |users[s].accounts| || ra == |users[r].accounts| || users[s].accounts[sa].balance - t.amount < 0.0 then
        (Ok(TransferResult(false)), users)
      else
        var debited := SetBalance(users, s, sa, users[s].accounts[sa].balance - t.amount);
        (Ok(TransferResult(true)), SetBalance(debited, r, ra, debited[r].accounts[ra].balance + t.amount))
  }

  predicate KnownId(users: seq<User>, id: string) {
    exists i :: 0 <= i < |users| && users[i].id == id
  }

  predicate HasMain(accounts: seq<Account>) {
    exists j :: 0 <= j < |accounts| && accounts[j].main
  }

  /** The errors come in a fixed order (sender, recipient, sign of the amount) and leave the table as it was. */
  lemma TransferErrors(users: seq<User>, t: Transfer)
    ensures TransferOn(users, t).0 == Err(SenderNotFoundMessage) <==> !KnownId(users, t.senderId)
    ensures TransferOn(users, t).0 == Err(RecipientNotFoundMessage) <==>
              KnownId(users, t.senderId) && !KnownId(users, t.recipientId)
    ensures TransferOn(users, t).0 == Err(NegativeAmountMessage) <==>
              KnownId(users, t.senderId) && KnownId(users, t.recipientId) && t.amount < 0.0
    ensures TransferOn(users, t).0.Err? ==> TransferOn(users, t).1 == users
  {
    var s := UserIndex(users, t.senderId);
    var r := UserIndex(users, t.recipientId);
    assert s < |users| <==> KnownId(users, t.senderId);
    assert r < |users| <==> KnownId(users, t.recipientId);
    assert SenderNotFoundMessage[4] != RecipientNotFoundMessage[4];
    assert SenderNotFoundMessage[4] != NegativeAmountMessage[4];
    assert RecipientNotFoundMessage[4] != NegativeAmountMessage[4];
  }

  /**
   * With both users known and a non-negative amount, the transfer is refused
   * exactly when a main account is missing or the sender's main balance is
   * below the amount, and a refusal changes no balance.
   */
  lemma TransferRefusals(users: seq<User>, t: Transfer)
    requires KnownId(users, t.senderId) && KnownId(users, t.recipientId) && t.amount >= 0.0
    ensures TransferOn(users, t).0.Ok?
    ensures var sender := users[UserIndex(users, t.senderId)];
            var recipient := users[UserIndex(users, t.recipientId)];
            !TransferOn(users, t).0.value.result <==>
              (!HasMain(sender.accounts) || !HasMain(recipient.accounts) ||
               sender.accounts[MainIndex(sender.accounts)].balance < t.amount)
    ensures !TransferOn(users, t).0.value.result ==> TransferOn(users, t).1 == users
  {
    var s := UserIndex(users, t.senderId);
    var r := UserIndex(users, t.recipientId);
    assert s < |users| && r < |users|;
    assert MainIndex(users[s].accounts) < |users[s].accounts| <==> HasMain(users[s].accounts);
    assert MainIndex(users[r].accounts) < |users[r].accounts| <==> HasMain(users[r].accounts);
  }

  /** A transfer never creates or destroys money: the sum of all balances is unchanged. */
  lemma TransferConservesTotal(users: seq<User>, t: Transfer)
    ensures Total(TransferOn(users, t).1) == Total(users)
  {
    var s := UserIndex(users, t.senderId);
    var r := UserIndex(users, t.recipientId);
    if s < |users| && r < |users| && t.amount >= 0.0 {
      var sa := MainIndex(users[s].accounts);
      var ra := MainIndex(users[r].accounts);
      if sa < |users[s].accounts| && ra < |users[r].accounts| && users[s].accounts[sa].balance - t.amount >= 0.0 {
        var debited := SetBalance(users, s, sa, users[s].accounts[sa].balance - t.amount);
        SetBalanceTotal(users, s, sa, users[s].accounts[sa].balance - t.amount);
        SetBalanceTotal(debited, r, ra, debited[r].accounts[ra].balance + t.amount);
      }
    }
  }

  /** A successful transfer between two different users: only the two main accounts move, by the amount. */
  lemma TransferMovesMainBalances(users: seq<User>, t: Transfer)
    requires TransferOn(users, t).0 == Ok(TransferResult(true))
    requires t.senderId != t.recipientId
    ensures var s := UserIndex(users, t.senderId);
            var r := UserIndex(users, t.recipientId);
            var after := TransferOn(users, t).1;
            && s < |users| && r < |users| && s != r && |after| == |users|
            && (forall i :: 0 <= i < |users| ==>
                  after[i].(accounts := []) == users[i].(accounts := []) &&
                  |after[i].accounts| == |users[i].accounts|)
            && (forall i, j :: 0 <= i < |users| && 0 <= j < |users[i].accounts| ==>
                  after[i].accounts[j] ==
                    if i == s && j == MainIndex(users[s].accounts) then
                      users[i].accounts[j].(balance := users[i].accounts[j].balance - t.amount)
                    else if i == r && j == MainIndex(users[r].accounts) then
                      users[i].accounts[j].(balance := users[i].accounts[j].balance + t.amount)
                    else users[i].accounts[j])
  {
  }

  /** A transfer rewrites balances only: every user keeps their identifier, so unique identifiers stay unique. */
  lemma TransferKeepsIds(users: seq<User>, t: Transfer)
    ensures |TransferOn(users, t).1| == |users|
    ensures forall i :: 0 <= i < |users| ==> TransferOn(users, t).1[i].id == users[i].id
    ensures UniqueIds(users) ==> UniqueIds(TransferOn(users, t).1)
  {
  }

  /** A transfer to oneself that succeeds leaves the table exactly as it was. */
  lemma SelfTransferChangesNothing(users: seq<User>, t: Transfer)
    requires t.senderId == t.recipientId
    ensures TransferOn(users, t).1 == users
  {
    var s := UserIndex(users, t.senderId);
    if s < |users| && t.amount >= 0.0 {
      var sa := MainIndex(users[s].accounts);
      if sa < |users[s].accounts| && users[s].accounts[sa].balance - t.amount >= 0.0 {
        var debited := SetBalance(users, s, sa, users[s].accounts[sa].balance - t.amount);
        assert debited[s].accounts[sa].balance + t.amount == users[s].accounts[sa].balance;
        var credited := SetBalance(debited, s, sa, users[s].accounts[sa].balance);
        assert credited[s].accounts == users[s].accounts;
        assert credited == users;
      }
    }
  }

  /** Pierre sends 100.0 to Gustave: 2254.23 remains on account 1 and account 4 holds 10132.21. */
  lemma SeedTransferScenario()
    ensures TransferOn(SeedUsers, Transfer("1234", "5678", 100.0)) ==
              (Ok(TransferResult(true)),
               [User("1234", "Pierre", "Brisette", "p@sswOrd",
                     [Account("1", true, 2254.23), Account("2", false, 235.22)]),
                User("5678", "Gustave", "Charbonneau", "T0pSecr3t",
                     [Account("3", false, 24.53), Account("4", true, 10132.21)])])
  {
    assert UserIndex(SeedUsers, "1234") == 0;
    assert UserIndex(SeedUsers, "5678") == 1 by {
      assert SeedUsers[0].id[0] != "5678"[0];
    }
    assert MainIndex(SeedUsers[0].accounts) == 0;
    assert MainIndex(SeedUsers[1].accounts) == 1;
    var debited := SetBalance(SeedUsers, 0, 0, 2354.23 - 100.0);
    assert debited[0].accounts == [Account("1", true, 2254.23), Account("2", false, 235.22)];
    assert debited[1] == SeedUsers[1];
    var credited := SetBalance(debited, 1, 1, 10032.21 + 100.0);
    assert credited[1].accounts == [Account("3", false, 24.53), Account("4", true, 10132.21)];
    assert credited[0] == debited[0];
    assert credited[0] == User("1234", "Pierre", "Brisette", "p@sswOrd",
                               [Account("1", true, 2254.23), Account("2", false, 235.22)]);
    assert credited[1] == User("5678", "Gustave", "Charbonneau", "T0pSecr3t",
                               [Account("3", false, 24.53), Account("4", true, 10132.21)]);
    assert |credited| == 2;
    assert credited == [credited[0], credited[1]];
    assert TransferOn(SeedUsers, Transfer("1234", "5678", 100.0)) == (Ok(TransferResult(true)), credited);
  }

  class LocalApiService {
    /** The user table; `transfer` rewrites balances in it. */
    var users: seq<User>

    /** Identifiers stay unique, so a login is decided by the one user carrying the identifier. */
    ghost predicate Valid()
      reads this
    {
      UniqueIds(users)
    }

    constructor ()
      ensures Valid()
      ensures users == SeedUsers
    {
      users := SeedUsers;
      SeedUsersUnique();
    }

    /** `login`: granted exactly when some user has both the identifier and the password. */
    method Login(credentials: Credentials) returns (r: CredentialsResult)
      requires Valid()
      ensures r == LoginOn(users, credentials)
      ensures r.granted <==> exists i :: 0 <= i < |users| && users[i].id == credentials.id &&
                                         users[i].password == credentials.password
    {
      r := LoginOn(users, credentials);
      LoginGrantedIff(users, credentials);
    }

    /** `accounts`: the accounts of the user with the identifier, or none for an unknown one. */
    method Accounts(id: string) returns (r: seq<Account>)
      requires Valid()
      ensures r == AccountsOn(users, id)
      ensures forall i :: 0 <= i < |users| && users[i].id == id ==> r == users[i].accounts
      ensures (forall i :: 0 <= i < |users| ==> users[i].id != id) ==> r == []
    {
      r := AccountsOn(users, id);
    }

    /**
     * `transfer`: checks the two users and the amount, then debits the
     * sender's main account and credits the recipient's in the table.
     */
    method Transfer(t: Transfer) returns (r: Result<TransferResult>)
      requires Valid()
      modifies this
      ensures Valid()
      ensures (r, users) == TransferOn(old(users), t)
      ensures Total(users) == Total(old(users))
    {
      TransferConservesTotal(users, t);
      TransferKeepsIds(users, t);
      var s := UserIndex(users, t.senderId);
      if s == |users| {
        return Err(SenderNotFoundMessage);
      }
      var rc := UserIndex(users, t.recipientId);
      if rc == |users| {
        return Err(RecipientNotFoundMessage);
      }
      if t.amount < 0.0 {
        return Err(NegativeAmountMessage);
      }
      var sa := MainIndex(users[s].accounts);
      var ra := MainIndex(users[rc].accounts);
      if sa == |users[s].accounts| || ra == |users[rc].accounts| || users[s].accounts[sa].balance - t.amount < 0.0 {
        return Ok(TransferResult(false));
      }
      users := SetBalance(users, s, sa, users[s].accounts[sa].balance - t.amount);
      users := SetBalance(users, rc, ra, users[rc].accounts[ra].balance + t.amount);
      return Ok(TransferResult(true));
    }
  }
}
