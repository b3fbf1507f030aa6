/** The account screen's state holder. */
module AccountUi {
  import opened Wrappers
  import opened Text
  import opened Lists
  import opened Models
  import opened StatusCodes
  import opened Store

  /** The sealed `AccountState`. */
  datatype AccountState = Loading | Success(balance: real) | Error(message: string)

  const UserIdentifierNotFoundMessage: string := "User identifier not found."
  const MainAccountNotFoundMessage: string := "Main account not found."

  function IsMain(a: AccountResultModel): bool { a.isAccountMain }

  /**
   * `findMainAccountBalance`: the balance of the first account flagged main;
   * none when no account is flagged.
   */
  function FindMainAccountBalance(accounts: seq<AccountResultModel>): (r: Option<real>)
    ensures r.None? <==> forall i :: 0 <= i < |accounts| ==> !accounts[i].isAccountMain
    ensures r.Some? ==> exists k :: 0 <= k < |accounts| && accounts[k].isAccountMain &&
                          r.value == accounts[k].accountBalance &&
                          forall j :: 0 <= j < k ==> !accounts[j].isAccountMain
  {
    match FirstOrNull(accounts, IsMain)
    case Some(a) => Some(a.accountBalance)
    case None => None
  }

  /** The test's two-account list: the main account's 2354.23 is picked. */
  lemma MainBalanceScenario()
    ensures FindMainAccountBalance([AccountResultModel("1", true, 2354.23),
                                    AccountResultModel("2", false, 235.22)]) == Some(2354.23)
  {
    var accounts := [AccountResultModel("1", true, 2354.23), AccountResultModel("2", false, 235.22)];
    assert FirstIndex(accounts, IsMain) == 0;
  }

  /** The balance `loadAccountData` extracts: none for an empty list, else the main account's. */
  function MainBalanceOf(r: AccountsResultModel): Option<real> {
    if |r.accounts| > 0 then FindMainAccountBalance(r.accounts) else None
  }

  /** The empty-list guard changes nothing: the extracted balance is always the main account's. */
  lemma MainBalanceOfIsFindMain(r: AccountsResultModel)
    ensures MainBalanceOf(r) == FindMainAccountBalance(r.accounts)
  {
  }

  /** The `when` of `handleAccountState`: the state a status code and a found balance lead to. */
  function AccountStateFor(code: int, balance: Option<real>): AccountState {
    if 0 <= code <= 2 then Error(SentinelMessage(code))
    else if code == 200 then (if balance.Some? then Success(balance.value) else Error(MainAccountNotFoundMessage))
    else Error(RangeMessage(code))
  }

  /** The store after `handleAccountState`: the balance is written only on Success. */
  function StoreAfterAccountState(store: Store, code: int, balance: Option<real>): Store {
    if code == 200 && balance.Some? then store[KeyMainAccountBalance := FloatValue(balance.value)] else store
  }

  /**
   * What the states mean: Success carries the found balance and happens
   * exactly for status 200 with a main account; 200 without one is "Main
   * account not found."; every other code from 0 to 999, 3 included, is
   * reported with its own number (and, from 3 on, the name of its HTTP class);
   * exactly the negative and over-999 codes get the retry message.
   */
  lemma AccountStateMeaning(code: int, balance: Option<real>)
    ensures AccountStateFor(code, balance).Success? <==> code == 200 && balance.Some?
    ensures AccountStateFor(code, balance).Success? ==> AccountStateFor(code, balance).balance == balance.value
    ensures code == 200 && balance.None? ==> AccountStateFor(code, balance) == Error(MainAccountNotFoundMessage)
    ensures AccountStateFor(code, balance) == Error(RetryMessage) <==> (code < 0 || code > 999)
    ensures 0 <= code <= 999 && code != 200 ==>
              AccountStateFor(code, balance).Error? && Prefix + Decimal(code) + ": " <= AccountStateFor(code, balance).message
    ensures 3 <= code <= 999 && code != 200 ==>
              AccountStateFor(code, balance) == Error(CodeMessage(code, ClassLabel(code / 100)))
  {
    if 0 <= code <= 2 {
      CodeMessageIsNotRetry(code, SentinelName(code));
    } else if code == 200 {
      assert MainAccountNotFoundMessage[0] != RetryMessage[0];
    } else if 3 <= code <= 999 {
      CodeMessageIsNotRetry(code, ClassLabel(code / 100));
    }
  }

  /** The store changes only for status 200 with a main account, and then only the balance key. */
  lemma StoreWrittenOnlyOnSuccess(store: Store, code: int, balance: Option<real>)
    ensures StoreAfterAccountState(store, code, balance) != store ==> AccountStateFor(code, balance).Success?
    ensures forall k :: k != KeyMainAccountBalance ==>
              (k in store <==> k in StoreAfterAccountState(store, code, balance))
    ensures forall k :: k != KeyMainAccountBalance && k in store ==>
              StoreAfterAccountState(store, code, balance)[k] == store[k]
    ensures AccountStateFor(code, balance).Success? ==>
              StoreAfterAccountState(store, code, balance)[KeyMainAccountBalance]
                == FloatValue(AccountStateFor(code, balance).balance)
  {
    AccountStateMeaning(code, balance);
  }

  /** The state and store after one fetch: an empty stream never runs the collect body. */
  function AfterLoad(state: AccountState, store: Store, stream: Option<AccountsResultModel>): (AccountState, Store) {
    match stream
    case None => (state, store)
    case Some(r) =>
      (AccountStateFor(r.accountStatusCode, MainBalanceOf(r)),
       StoreAfterAccountState(store, r.accountStatusCode, MainBalanceOf(r)))
  }

  /** The test's fetch of an empty list with status 200 ends in "Main account not found." and writes nothing. */
  lemma EmptyAccountListScenario(state: AccountState, store: Store)
    ensures AfterLoad(state, store, Some(AccountsResultModel(200, []))) == (Error(MainAccountNotFoundMessage), store)
  {
  }

  class AccountViewModel {
    var state: AccountState
    /** The identifier read from the store at start-up, if any. */
    var userIdentifier: Option<string>
    /** The persisted store of the "my_prefs" preferences file. */
    var store: Store
    var navigateToTransferEvents: nat
    /** Every identifier handed to the repository, in order. */
    ghost var requests: seq<string>

    /**
     * The `init` block: Loading, then the stored identifier; with one, the
     * accounts are loaded for it, without one the state is "User identifier
     * not found." and nothing is fetched.
     */
    constructor (prefs: Store, fetchAccountData: string -> Option<AccountsResultModel>)
      ensures userIdentifier == GetString(prefs, KeyUserIdentifier)
      ensures navigateToTransferEvents == 0
      ensures userIdentifier.None? ==>
                state == Error(UserIdentifierNotFoundMessage) && store == prefs && requests == []
      ensures userIdentifier.Some? ==>
                && (state, store) == AfterLoad(Loading, prefs, fetchAccountData(userIdentifier.value))
                && requests == [userIdentifier.value]
    {
      state := Loading;
      store := prefs;
      userIdentifier := GetString(prefs, KeyUserIdentifier);
      navigateToTransferEvents := 0;
      requests := [];
      new;
      if userIdentifier.Some? {
        LoadAccountData(userIdentifier.value, fetchAccountData);
      } else {
        state := Error(UserIdentifierNotFoundMessage);
      }
    }

    /** `handleAccountState`: the state for the code; the balance is stored only on Success. */
    method HandleAccountState(code: int, balance: Option<real>)
      modifies this`state, this`store
      ensures state == AccountStateFor(code, balance)
      ensures store == StoreAfterAccountState(old(store), code, balance)
    {
      state := AccountStateFor(code, balance);
      if code == 200 && balance.Some? {
        store := store[KeyMainAccountBalance := FloatValue(balance.value)];
      }
    }

    /** `loadAccountData`: one fetch for the identifier; each emission goes through `handleAccountState`. */
    method LoadAccountData(id: string, fetchAccountData: string -> Option<AccountsResultModel>)
      modifies this`state, this`store, this`requests
      ensures (state, store) == AfterLoad(old(state), old(store), fetchAccountData(id))
      ensures requests == old(requests) + [id]
    {
      requests := requests + [id];
      var stream := fetchAccountData(id);
      if stream.Some? {
        var result := stream.value;
        var balance := if |result.accounts| > 0 then FindMainAccountBalance(result.accounts) else None;
        HandleAccountState(result.accountStatusCode, balance);
      }
    }

    method NavigateToTransfer()
      modifies this`navigateToTransferEvents
      ensures navigateToTransferEvents == old(navigateToTransferEvents) + 1
    {
      navigateToTransferEvents := navigateToTransferEvents + 1;
    }

    /**
     * `onButtonReloadClicked`: Loading, then a fresh load when an identifier is
     * known; without one nothing else happens and the state stays Loading.
     */
    method OnButtonReloadClicked(fetchAccountData: string -> Option<AccountsResultModel>)
      modifies this`state, this`store, this`requests
      ensures userIdentifier.None? ==> state == Loading && store == old(store) && requests == old(requests)
      ensures userIdentifier.Some? ==>
                && (state, store) == AfterLoad(Loading, old(store), fetchAccountData(userIdentifier.value))
                && requests == old(requests) + [userIdentifier.value]
    {
      state := Loading;
      if userIdentifier.Some? {
        LoadAccountData(userIdentifier.value, fetchAccountData);
      }
    }
  }
}
