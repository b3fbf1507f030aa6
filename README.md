# Aura banking demo — verified model

Aura is a small Android banking client. A user logs in, sees the balance of
their main account, and sends money to another user. A small in-memory
backend stands in for the server. This project models the parts of the
client that make decisions, and the backend, in Dafny:

- **View models** (`LoginUi`, `AccountUi`, `TransferUi`). Each screen's
  state holder is a class with the Kotlin fields it reassigns: the screen
  state, the input fields, the button flag, the persisted key-value store
  and a count of navigation events. A ghost log records what was asked of
  the repository, so that "the repository is called only if ..." can be
  stated. Each status-code `when` is a pure function, and its meaning is
  proved as a lemma.
- **The shared status-code ladder** (`StatusCodes`). It holds the sentinel
  messages for codes 0, 1 and 2, and the range ladder `3..99`,
  `100..199`, `201..299`, ..., `600..999`, `else`. `RangeMessage` is
  proved equal to a reference definition that names a code by its hundreds
  digit, the way HTTP classes are named in section 15 of RFC 9110. Because
  decimal rendering parses back (`Text.DecimalRoundTrip`), each message
  identifies its code.
- **The transfer pre-check** (`TransferUi.TransferViewModel.CheckDataBeforeTransfer`).
  It has six ordered, short-circuiting validations. It is proved against
  `PreCheckError`, the message of the first failing check, and
  `PreCheckPassesIff` relates that to the six conditions stated without
  order.
- **Repositories** (`LoginRepository`, `AccountRepository`,
  `TransferRepository`). Each normalises one network call in four cases,
  with the sentinel codes 0 and 1; the fallback (code 2) is shown
  unreachable. A network call is `Network.ApiCall`: it either throws, or
  returns an optional body and an optional code. A repository's flow is an
  `Option`: `None` means the exception was caught and nothing was emitted.
- **Response conversion** (`ApiResponse`). `AccountsApiResponse.toDomainModel`
  maps the account list field by field, keeping the order and the length.
- **The in-memory backend** (`LocalApi`). It covers `getUserById`,
  `login` and `accounts` as lookups over the user table. `transfer` is a
  method of `LocalApiService` that rewrites the table. It is proved against
  `TransferOn`, and lemmas show four things about `TransferOn`:
  - the errors come in a fixed order;
  - a refusal changes nothing;
  - the total over all balances is conserved;
  - only the two main accounts move, and a transfer to oneself leaves the
    table as it was.

Money is `real`. The persisted store (Android's SharedPreferences) is a
`map<string, StoreValue>`. Repositories and network clients are function
parameters: their I/O is not modelled.

An empty repository flow leaves only the account screen in Loading,
because it `collect`s. Login and transfer take `firstOrNull()` of the flow,
so an empty flow gives `(false, null)` (the retry message) and `(false, 3)`
("HTTP status code 3: error in function makeTransfer"). A missing stored
identifier reaches the transfer pre-check as the string "null", not as an
empty string, because the constructor calls `toString()` on it, so the
first validation does not catch it (`TransferUi.MissingStoredIdentifierIsNull`).

## Model

| member | source | states |
|---|---|---|
| Lists.FirstIndex | app/src/main/java/com/aura/ui/account/AccountViewModel.kt:126 | the index is that of the first element satisfying the predicate, every earlier element fails it, and it is the length when none satisfies it |
| Lists.FirstOrNull | app/src/main/java/com/aura/data/service/LocalApiService.kt:74-76 | null exactly when no element satisfies the predicate; otherwise the first element that does |
| Text.IsNotBlank | app/src/main/java/com/aura/ui/login/LoginViewModel.kt:69 | `isNotBlank`: some character lies outside the JVM whitespace set; the empty string is blank (`Text.EmptyIsBlank`), so both buttons start disabled |
| Store.GetString | app/src/main/java/com/aura/ui/transfer/TransferViewModel.kt:116-119 | `getString(key, null)`: the stored string, or none when the key is absent (a value of the other kind also reads as none; see Left out) |
| Store.GetFloat | app/src/main/java/com/aura/ui/transfer/TransferViewModel.kt:127-131 | `getFloat(key, default)`: the stored number, or the default when the key is absent |
| Store.NullableToString | app/src/main/java/com/aura/ui/transfer/TransferViewModel.kt:77 | `toString()` of a nullable string: the string itself, or "null"; used by `TransferUi.MissingStoredIdentifierIsNull` |
| Text.DecimalRoundTrip | app/src/main/java/com/aura/ui/login/LoginViewModel.kt:171 | parsing the digits of `$code` gives the code back |
| Text.DecimalInjective | app/src/main/java/com/aura/ui/login/LoginViewModel.kt:171 | different codes render as different digit strings |
| StatusCodes.RangeMessage | app/src/main/java/com/aura/ui/login/LoginViewModel.kt:171-178 | every code 3..999 other than 200 gets "HTTP status code \<code\>: \<name of its HTTP class by hundreds\>"; every code outside 3..999 gets the retry message |
| StatusCodes.CodeMessageIsNotRetry | app/src/main/java/com/aura/ui/login/LoginViewModel.kt:171-178 | no code message equals the retry message |
| StatusCodes.CodeMessageIdentifiesCode | app/src/main/java/com/aura/ui/login/LoginViewModel.kt:171-177 | equal code messages carry equal codes |
| StatusCodes.RangeMessageIdentifiesCode | app/src/main/java/com/aura/ui/transfer/TransferViewModel.kt:281-300 | the range ladder gives distinct codes distinct messages |
| ApiResponse.AccountToDomain | app/src/main/java/com/aura/data/apiResponse/AccountApiResponse.kt:25-29 | one response account to one domain account, field for field; its pointwise effect is the ensures of `ApiResponse.AccountsToDomain` |
| ApiResponse.AccountsToDomain | app/src/main/java/com/aura/data/apiResponse/AccountApiResponse.kt:24-30 | same length; the i-th domain account has the i-th response account's id, main flag and balance |
| ApiResponse.AccountsToDomainModel | app/src/main/java/com/aura/data/apiResponse/AccountApiResponse.kt:21-32 | the status code is carried unchanged; the accounts are the response's, in order, with none dropped or merged |
| ApiResponse.AccountsToDomainRoundTrip | app/src/main/java/com/aura/data/apiResponse/AccountApiResponse.kt:24-31 | the response body is recovered from the domain list, so zero or several main accounts pass through unchanged |
| LoginRepository.LoginResult | app/src/main/java/com/aura/data/repository/LoginRepository.kt:38-64 | granted exactly when a body grants it; the server's code is kept when present, else 1 with a body and 0 without |
| LoginRepository.FetchLoginData | app/src/main/java/com/aura/data/repository/LoginRepository.kt:24-72 | posts exactly the given credentials; emits nothing exactly when the call throws, else the normalised result |
| AccountRepository.AccountsResult | app/src/main/java/com/aura/data/repository/AccountRepository.kt:32-62 | no body gives no accounts; a body gives its accounts in order; the code rules as for login |
| AccountRepository.FetchAccountData | app/src/main/java/com/aura/data/repository/AccountRepository.kt:21-69 | asks for the given user; emits nothing exactly when the call throws, else the normalised result |
| TransferRepository.TransferResult | app/src/main/java/com/aura/data/repository/TransferRepository.kt:31-52 | successful exactly when a body says so; the code rules as for login |
| TransferRepository.FetchTransferData | app/src/main/java/com/aura/data/repository/TransferRepository.kt:25-58 | sends exactly sender, recipient and amount; emits nothing exactly when the call throws, else the normalised result |
| LoginUi.LoginButtonEnabled | app/src/main/java/com/aura/ui/login/LoginViewModel.kt:67-72 | the `combine`: both fields non-blank; `LoginViewModel.Valid()` keeps the button flag equal to it after every field change |
| LoginUi.LoginErrorMessage | app/src/main/java/com/aura/ui/login/LoginViewModel.kt:166-179 | the `when` of `handleLoginError`; what each code leads to is proved in `LoginUi.LoginErrorMessageMeaning` |
| LoginUi.ValidateCredentials | app/src/main/java/com/aura/ui/login/LoginViewModel.kt:144-148 | `firstOrNull()` of the repository flow as a pair, `(false, null)` when nothing is emitted; `LoginUi.EmptyLoginStreamAsksToRetry` states the empty case |
| LoginUi.LoginErrorMessageMeaning | app/src/main/java/com/aura/ui/login/LoginViewModel.kt:165-181 | 200 means incorrect identifiers; each code 0..999 is reported with its own number, and from 3 on (except 200) with its class; the retry message appears exactly for a missing, negative or over-999 code |
| LoginUi.EmptyLoginStreamAsksToRetry | app/src/main/java/com/aura/ui/login/LoginViewModel.kt:144-148 | a repository that emits nothing gives a refused login with the retry message |
| LoginUi.LoginViewModel.constructor | app/src/main/java/com/aura/ui/login/LoginViewModel.kt:43-75 | Initial state, empty fields, the button disabled and consistent with its predicate |
| LoginUi.LoginViewModel.OnFieldUserIdentifierChanged | app/src/main/java/com/aura/ui/login/LoginViewModel.kt:64-83 | only the identifier and the button flag change; the flag equals "both fields non-blank" |
| LoginUi.LoginViewModel.OnFieldUserPasswordChanged | app/src/main/java/com/aura/ui/login/LoginViewModel.kt:64-91 | only the password and the button flag change; the flag equals "both fields non-blank" |
| LoginUi.LoginViewModel.HandleLoginError | app/src/main/java/com/aura/ui/login/LoginViewModel.kt:165-181 | the state becomes the error for the code |
| LoginUi.LoginViewModel.NavigateToAccount | app/src/main/java/com/aura/ui/login/LoginViewModel.kt:154-159 | exactly one navigation event |
| LoginUi.LoginViewModel.OnButtonLoginClicked | app/src/main/java/com/aura/ui/login/LoginViewModel.kt:98-116 | the repository is asked once with the current fields; granted: the identifier is stored, Success, one navigation; refused: store untouched, the error for the code, no navigation |
| TransferUi.TransferButtonEnabled | app/src/main/java/com/aura/ui/transfer/TransferViewModel.kt:82-87 | the `combine`: recipient non-blank (the amount test is always true for a non-nullable Double); `TransferViewModel.Valid()` keeps the button flag equal to it |
| TransferUi.TransferChecks | app/src/main/java/com/aura/ui/transfer/TransferViewModel.kt:199-228 | the six validations with their messages, in source order |
| TransferUi.PreCheckError | app/src/main/java/com/aura/ui/transfer/TransferViewModel.kt:193-232 | the message of the first failing validation, or none; `TransferUi.PreCheckPassesIff` and `TransferUi.PreCheckReportsFirstFailure` state its meaning, and `CheckDataBeforeTransfer` is proved against it |
| TransferUi.TransferPossible | app/src/main/java/com/aura/ui/transfer/TransferViewModel.kt:199-228 | the six conditions as one conjunction, without order; the reference `PreCheckPassesIff` relates to `PreCheckError` |
| TransferUi.MakeTransfer | app/src/main/java/com/aura/ui/transfer/TransferViewModel.kt:243-251 | `firstOrNull()` of the repository flow as a pair, `(false, 3)` when nothing is emitted; `TransferUi.EmptyTransferStreamIsCode3` states the empty case |
| TransferUi.TransferStateFor | app/src/main/java/com/aura/ui/transfer/TransferViewModel.kt:270-303 | the `when` of `handleTransferState`; its meaning is proved in `TransferUi.TransferStateMeaning` and `TransferUi.OnlyCode3IsMakeTransferError` |
| TransferUi.PreCheckPassesIff | app/src/main/java/com/aura/ui/transfer/TransferViewModel.kt:193-232 | the pre-check passes iff the sender and recipient are non-empty, the balance and amount are non-zero, the amount is at most the balance, and sender differs from recipient |
| TransferUi.PreCheckReportsFirstFailure | app/src/main/java/com/aura/ui/transfer/TransferViewModel.kt:199-228 | the error is exactly the message of the first failing validation; later ones are not consulted |
| TransferUi.NegativeAmountPasses | app/src/main/java/com/aura/ui/transfer/TransferViewModel.kt:214-223 | a negative amount passes the pre-check |
| TransferUi.BalanceTooLowScenario | app/src/test/java/com/aura/TransferViewModelTest.kt:113-158 | 10000 against 2354.23 gives "balance too low" |
| TransferUi.SelfTransferScenario | app/src/main/java/com/aura/ui/transfer/TransferViewModel.kt:224-228 | a transfer to oneself gives "recipient must be different" |
| TransferUi.MissingStoredIdentifierIsNull | app/src/main/java/com/aura/ui/transfer/TransferViewModel.kt:77 | with no stored identifier the sender is the non-empty "null" |
| TransferUi.MissingStoredBalanceFailsAtBalanceCheck | app/src/main/java/com/aura/ui/transfer/TransferViewModel.kt:79 | with no stored balance the pre-check stops at the main-account check |
| TransferUi.TransferStateMeaning | app/src/main/java/com/aura/ui/transfer/TransferViewModel.kt:270-303 | Success exactly for 200, so a refused transfer with 200 also succeeds; every other code 0..999 is reported with its own number, from 4 on with its class; the retry message appears exactly for negative and over-999 codes |
| TransferUi.OnlyCode3IsMakeTransferError | app/src/main/java/com/aura/ui/transfer/TransferViewModel.kt:277-278 | the "error in function makeTransfer" state arises from code 3 and no other |
| TransferUi.EmptyTransferStreamIsCode3 | app/src/main/java/com/aura/ui/transfer/TransferViewModel.kt:248-251 | a repository that emits nothing gives (false, 3) and the code-3 error |
| TransferUi.TransferViewModel.constructor | app/src/main/java/com/aura/ui/transfer/TransferViewModel.kt:71-92 | the sender is the stored identifier rendered by toString, the balance the stored float or 0, the fields empty and the button disabled |
| TransferUi.TransferViewModel.OnFieldTransferRecipientChanged | app/src/main/java/com/aura/ui/transfer/TransferViewModel.kt:82-100 | only the recipient and the button flag change; the flag equals "recipient non-blank" |
| TransferUi.TransferViewModel.OnFieldTransferAmountChanged | app/src/main/java/com/aura/ui/transfer/TransferViewModel.kt:82-108 | only the amount and the button flag change; the flag equals "recipient non-blank" |
| TransferUi.TransferViewModel.CheckDataBeforeTransfer | app/src/main/java/com/aura/ui/transfer/TransferViewModel.kt:193-232 | returns true exactly when no validation fails, and then leaves the state alone; otherwise the state is the first failure's error |
| TransferUi.TransferViewModel.HandleTransferState | app/src/main/java/com/aura/ui/transfer/TransferViewModel.kt:270-304 | the state becomes the one for the code |
| TransferUi.TransferViewModel.NavigateToAccount | app/src/main/java/com/aura/ui/transfer/TransferViewModel.kt:257-262 | exactly one navigation event |
| TransferUi.TransferViewModel.OnButtonMakeTransferClicked | app/src/main/java/com/aura/ui/transfer/TransferViewModel.kt:137-167 | a failing pre-check sets its error without calling the repository; otherwise one request with sender, recipient and amount; then Success and one navigation whatever the code, or the state for the code |
| AccountUi.FindMainAccountBalance | app/src/main/java/com/aura/ui/account/AccountViewModel.kt:124-130 | none exactly when no account is main; otherwise the balance of the first main account |
| AccountUi.MainBalanceOf | app/src/main/java/com/aura/ui/account/AccountViewModel.kt:91-96 | the balance `loadAccountData` extracts behind its `isNotEmpty` guard; `AccountUi.MainBalanceOfIsFindMain` shows the guard changes nothing |
| AccountUi.AccountStateFor | app/src/main/java/com/aura/ui/account/AccountViewModel.kt:164-201 | the `when` of `handleAccountState`; its meaning is proved in `AccountUi.AccountStateMeaning` |
| AccountUi.StoreAfterAccountState | app/src/main/java/com/aura/ui/account/AccountViewModel.kt:170-175 | the store after `handleAccountState`; `AccountUi.StoreWrittenOnlyOnSuccess` shows it changes only on Success and only at the balance key |
| AccountUi.AfterLoad | app/src/main/java/com/aura/ui/account/AccountViewModel.kt:88-101 | state and store after one `collect`: unchanged when nothing is emitted, else the classifier and store update for the emitted code and main balance |
| AccountUi.MainBalanceScenario | app/src/test/java/com/aura/AccountViewModelTest.kt:65-95 | the test's two accounts give the main account's 2354.23 |
| AccountUi.MainBalanceOfIsFindMain | app/src/main/java/com/aura/ui/account/AccountViewModel.kt:92-96 | the empty-list guard does not change the extracted balance |
| AccountUi.AccountStateMeaning | app/src/main/java/com/aura/ui/account/AccountViewModel.kt:163-201 | Success exactly for 200 with a main account, carrying its balance; 200 without one is "Main account not found."; each other code 0..999 is reported with its own number, from 3 on with its class; retry exactly for negative and over-999 codes |
| AccountUi.StoreWrittenOnlyOnSuccess | app/src/main/java/com/aura/ui/account/AccountViewModel.kt:170-177 | the store changes only on Success, and then only the balance key, which holds the shown balance |
| AccountUi.EmptyAccountListScenario | app/src/test/java/com/aura/AccountViewModelTest.kt:107-129 | an empty list with 200 gives "Main account not found." and stores nothing |
| AccountUi.AccountViewModel.constructor | app/src/main/java/com/aura/ui/account/AccountViewModel.kt:53-65 | with a stored identifier its accounts are loaded once; without one "User identifier not found." and no request |
| AccountUi.AccountViewModel.HandleAccountState | app/src/main/java/com/aura/ui/account/AccountViewModel.kt:163-202 | the state for the code and balance; the balance is stored only on Success |
| AccountUi.AccountViewModel.LoadAccountData | app/src/main/java/com/aura/ui/account/AccountViewModel.kt:83-101 | one request for the identifier; an emission sets the state and store for its code and main balance; no emission leaves both unchanged |
| AccountUi.AccountViewModel.NavigateToTransfer | app/src/main/java/com/aura/ui/account/AccountViewModel.kt:137-143 | exactly one navigation event |
| AccountUi.AccountViewModel.OnButtonReloadClicked | app/src/main/java/com/aura/ui/account/AccountViewModel.kt:148-155 | Loading, then one fresh load when an identifier is known; otherwise nothing else |
| LocalApi.UserIndex | app/src/main/java/com/aura/data/service/LocalApiService.kt:74-76 | the first position carrying the identifier, or the table size |
| LocalApi.MainIndex | app/src/main/java/com/aura/data/service/LocalApiService.kt:56-57 | the first account flagged main, or the list size |
| LocalApi.GetUserById | app/src/main/java/com/aura/data/service/LocalApiService.kt:74-76 | none exactly when no user has the identifier; otherwise the first one that has it |
| LocalApi.LoginOn | app/src/main/java/com/aura/data/service/LocalApiService.kt:36-39 | granted only if some user has that identifier and password; an unknown identifier is never granted |
| LocalApi.LoginGrantedIff | app/src/main/java/com/aura/data/service/LocalApiService.kt:36-39 | with unique identifiers, granted iff some user has that identifier and password |
| LocalApi.SeedUsersUnique | app/src/main/java/com/aura/data/service/LocalApiService.kt:19-34 | the seed table's identifiers are unique |
| LocalApi.SeedLoginScenario | app/src/main/java/com/aura/data/service/LocalApiService.kt:19-39 | each seed user logs in with their own password, not with another's, and an unknown identifier is refused |
| LocalApi.AccountsOn | app/src/main/java/com/aura/data/service/LocalApiService.kt:41-44 | the first matching user's accounts, or the empty list for an unknown identifier |
| LocalApi.SetBalance | app/src/main/java/com/aura/data/service/LocalApiService.kt:62-63 | one account balance rewritten in the table; `LocalApi.SetBalanceTotal` states its effect on the total |
| LocalApi.TransferOn | app/src/main/java/com/aura/data/service/LocalApiService.kt:46-67 | the answer and table of `transfer`, debit before credit; its meaning is proved in the `LocalApi.Transfer...` lemmas below, and `LocalApiService.Transfer` is proved equal to it |
| LocalApi.SetBalanceTotal | app/src/main/java/com/aura/data/service/LocalApiService.kt:62-63 | replacing one balance changes the total by exactly the difference |
| LocalApi.TransferErrors | app/src/main/java/com/aura/data/service/LocalApiService.kt:46-54 | unknown sender, then unknown recipient, then negative amount, each exactly in its case, and no error changes the table |
| LocalApi.TransferRefusals | app/src/main/java/com/aura/data/service/LocalApiService.kt:56-60 | with both users known and a non-negative amount, false exactly when a main account is missing or the sender's main balance is below the amount; false changes nothing |
| LocalApi.TransferConservesTotal | app/src/main/java/com/aura/data/service/LocalApiService.kt:56-63 | the sum of all balances is the same after any transfer |
| LocalApi.TransferMovesMainBalances | app/src/main/java/com/aura/data/service/LocalApiService.kt:61-65 | between two users, the sender's main account loses the amount, the recipient's gains it, and every other account and user field is unchanged |
| LocalApi.SelfTransferChangesNothing | app/src/main/java/com/aura/data/service/LocalApiService.kt:56-63 | a transfer to oneself leaves the table as it was |
| LocalApi.TransferKeepsIds | app/src/main/java/com/aura/data/service/LocalApiService.kt:46-67 | a transfer keeps the table size and every identifier, so unique identifiers stay unique |
| LocalApi.SeedTransferScenario | app/src/main/java/com/aura/data/service/LocalApiService.kt:19-65 | 100 from 1234 to 5678 leaves 2254.23 on account 1 and 10132.21 on account 4 |
| LocalApi.LocalApiService.constructor | app/src/main/java/com/aura/data/service/LocalApiService.kt:19-34 | the service starts with the two seed users, whose identifiers are unique |
| LocalApi.LocalApiService.Login | app/src/main/java/com/aura/data/service/LocalApiService.kt:36-39 | on the live table: granted exactly when some user has that identifier and password |
| LocalApi.LocalApiService.Accounts | app/src/main/java/com/aura/data/service/LocalApiService.kt:41-44 | on the live table: the accounts of the user with that identifier, or the empty list for an unknown one |
| LocalApi.LocalApiService.Transfer | app/src/main/java/com/aura/data/service/LocalApiService.kt:46-67 | the answer and new table are those of `TransferOn`, the total balance is unchanged, and identifiers stay unique |

## Left out

- Coroutines, flows, dispatchers and `viewModelScope` are left out: each action is one sequential method and each repository flow is an `Option`.
- The view models' `catch` blocks (connection error, no Internet, generic error) are left out: every repository's `.catch` swallows upstream errors first, so those branches are never reached.
- Floating point is left out: money is `real`. The `Float` cast on the stored balance, rounding, and NaN amounts are not modelled.
- Values of the wrong type in the store are left out: a key holding the other kind reads as absent, where Android would throw ClassCastException.
- The two preferences files are not linked: the login screen writes "LoginPrefs" (app/src/main/java/com/aura/ui/login/LoginViewModel.kt:28), while the account and transfer screens read the injected "my_prefs" (app/src/main/java/com/aura/di/AppModule.kt:26). Each class owns its own store map.
- The transfer `init` resets the state to Initial after a `combine` that never completes (app/src/main/java/com/aura/ui/transfer/TransferViewModel.kt:82-90). That assignment is never reached, so it is left out.
- The source doesn't consistently declare a call's result type: `AccountClient` returns a list, yet its result is treated as an `AccountsApiResponse`, and `TransferClient` does not declare the `getUserAccount` the transfer repository calls. Both calls are modelled by their evident intent.
- LocalApi.LocalApiService.Transfer: accounts are values in a table, not shared objects, so aliasing between users is not modelled. The debit is applied before the credit reads the table, which gives the same result when both main accounts are one object.
- Account.kt and the backend's Transfer and TransferResult models are not part of this model's sources. Their fields are inferred from how LocalApiService.kt uses them.
- Logging, UI fragments, the activity, the home screen, dependency injection, the Retrofit clients, the Ktor server in Main.kt, ApiRepository.kt and the superseded ApiResponse.kt and ApiLoginResponse.kt drafts are left out: they are plumbing, or are not used by the core.
- LoginApiResponse.toDomainModel and TransferApiResponse.toDomainModel are modelled as `ApiResponse.LoginToDomainModel` and `ApiResponse.TransferToDomainModel`. They have no contract of their own, and the repositories' `LoginResult` and `TransferResult` state what they produce.
