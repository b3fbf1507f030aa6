/** The transfer screen's state holder and its client-side pre-check. */
module TransferUi {
  import opened Wrappers
  import opened Text
  import opened Lists
  import opened Models
  import opened StatusCodes
  import opened Store

  /** The sealed `TransferState`. */
  datatype TransferState = Initial | Loading | Success | Error(message: string)

  const SenderNotFoundMessage: string := "The sender of this transfer has not been found, please try again."
  const MainAccountNotFoundMessage: string := "The main account for this transfer has not been found or balance is null, please try again."
  const RecipientNotFoundMessage: string := "The recipient for this transfer has not been found, please try again."
  const AmountNotFoundMessage: string := "The amount of this transfer has not been found or is null, please try again."
  const BalanceTooLowMessage: string := "The main account balance is too low for this transfer, please try again."
  const SameRecipientMessage: string := "The recipient must be different than the sender, please try again."
  /**
   * "HTTP status code 3: error in function makeTransfer", the message for the
   * code `makeTransfer` substitutes when the repository emits nothing.
   */
  const MakeTransferErrorMessage: string := CodeMessage(3, "error in function makeTransfer")

  /**
   * The `combine` that drives the transfer button: `recipient.isNotBlank() &&
   * amount != null`. The amount is a non-nullable `Double`, so its conjunct is
   * always true and the flag depends on the recipient alone.
   */
  predicate TransferButtonEnabled(recipient: string, amount: real) {
    IsNotBlank(recipient)
  }

  /** One validation of the pre-check: whether it passes, and the error it reports otherwise. */
  datatype Check = Check(passes: bool, message: string)

  function Fails(c: Check): bool { !c.passes }

  /** The six validations of `checkDataBeforeTransfer`, in the order they are made. */
  function TransferChecks(sender: string, balance: real, recipient: string, amount: real): seq<Check> {
    [ Check(sender != "", SenderNotFoundMessage),
      Check(balance != 0.0, MainAccountNotFoundMessage),
      Check(recipient != "", RecipientNotFoundMessage),
      Check(amount != 0.0, AmountNotFoundMessage),
      Check(amount <= balance, BalanceTooLowMessage),
      Check(sender != recipient, SameRecipientMessage) ]
  }

  /** The error of the first validation that fails, or none when all six pass. */
  function PreCheckError(sender: string, balance: real, recipient: string, amount: real): Option<string> {
    var checks := TransferChecks(sender, balance, recipient, amount);
    var k := FirstIndex(checks, Fails);
    if k < |checks| then Some(checks[k].message) else None
  }

  /** When a transfer may be sent, stated without reference to the order of the checks. */
  predicate TransferPossible(sender: string, balance: real, recipient: string, amount: real) {
    && sender != ""
    && balance != 0.0
    && recipient != ""
    && amount != 0.0
    && amount <= balance
    && sender != recipient
  }

  /** The pre-check passes exactly when all six conditions hold. */
  lemma PreCheckPassesIff(sender: string, balance: real, recipient: string, amount: real)
    ensures PreCheckError(sender, balance, recipient, amount).None? <==> TransferPossible(sender, balance, recipient, amount)
  {
    var checks := TransferChecks(sender, balance, recipient, amount);
    var k := FirstIndex(checks, Fails);
    if TransferPossible(sender, balance, recipient, amount) {
      assert forall j :: 0 <= j < |checks| ==> checks[j].passes;
    } else if sender == "" {
      assert Fails(checks[0]);
    } else if balance == 0.0 {
      assert Fails(checks[1]);
    } else if recipient == "" {
      assert Fails(checks[2]);
    } else if amount == 0.0 {
      assert Fails(checks[3]);
    } else if amount > balance {
      assert Fails(checks[4]);
    } else {
      assert Fails(checks[5]);
    }
  }

  /**
   * The pre-check reports the error of the first failing validation and
   * consults none after it: whatever the later validations say, they do not
   * change the message.
   */
  lemma PreCheckReportsFirstFailure(sender: string, balance: real, recipient: string, amount: real, k: nat)
    requires k < 6
    requires !TransferChecks(sender, balance, recipient, amount)[k].passes
    requires forall j :: 0 <= j < k ==> TransferChecks(sender, balance, recipient, amount)[j].passes
    ensures PreCheckError(sender, balance, recipient, amount) == Some(TransferChecks(sender, balance, recipient, amount)[k].message)
  {
    var checks := TransferChecks(sender, balance, recipient, amount);
    var f := FirstIndex(checks, Fails);
    assert Fails(checks[k]);
    assert f <= k;
  }

  /** A negative amount passes every validation the others allow: there is no sign check. */
  lemma NegativeAmountPasses(sender: string, balance: real, recipient: string, amount: real)
    requires sender != "" && recipient != "" && sender != recipient
    requires amount < 0.0 < balance
    ensures PreCheckError(sender, balance, recipient, amount).None?
  {
    PreCheckPassesIff(sender, balance, recipient, amount);
  }

  /** 10000 against a cached balance of 2354.23 fails at the fifth validation. */
  lemma BalanceTooLowScenario()
    ensures PreCheckError("1234", 2354.23, "5678", 10000.0) == Some(BalanceTooLowMessage)
  {
    PreCheckReportsFirstFailure("1234", 2354.23, "5678", 10000.0, 4);
  }

  /** A transfer to oneself fails at the sixth validation. */
  lemma SelfTransferScenario()
    ensures PreCheckError("1234", 2354.23, "1234", 100.0) == Some(SameRecipientMessage)
  {
    PreCheckReportsFirstFailure("1234", 2354.23, "1234", 100.0, 5);
  }

  /** With no identifier stored, the sender is the non-empty string "null". */
  lemma MissingStoredIdentifierIsNull(prefs: Store)
    requires KeyUserIdentifier !in prefs
    ensures NullableToString(GetString(prefs, KeyUserIdentifier)) == "null"
  {
  }

  /**
   * With no balance stored the cached balance is 0, so once a non-empty sender
   * is known the pre-check fails at the second validation, whatever the fields hold.
   */
  lemma MissingStoredBalanceFailsAtBalanceCheck(prefs: Store, recipient: string, amount: real)
    requires KeyMainAccountBalance !in prefs
    requires GetString(prefs, KeyUserIdentifier) != Some("")
    ensures PreCheckError(NullableToString(GetString(prefs, KeyUserIdentifier)),
                          GetFloat(prefs, KeyMainAccountBalance, 0.0), recipient, amount)
            == Some(MainAccountNotFoundMessage)
  {
    var sender := NullableToString(GetString(prefs, KeyUserIdentifier));
    assert sender != "";
    PreCheckReportsFirstFailure(sender, 0.0, recipient, amount, 1);
  }

  /** `makeTransfer`: the first emission as a pair, or `(false, 3)` when nothing is emitted. */
  function MakeTransfer(stream: Option<TransferResultModel>): (bool, int) {
    match stream
    case Some(r) => (r.isTransferSuccessful, r.transferStatusCode)
    case None => (false, 3)
  }

  /** The `when` of `handleTransferState`: the state each status code leads to. */
  function TransferStateFor(code: int): TransferState {
    if 0 <= code <= 2 then Error(SentinelMessage(code))
    else if code == 3 then Error(MakeTransferErrorMessage)
    else if code == 200 then Success
    else Error(RangeMessage(code))
  }

  /**
   * What the states mean: status 200 is Success even for a transfer the body
   * refused, and nothing else is; every code from 0 to 999 other than 200 is
   * reported with its own number (and, from 4 on, the name of its HTTP class);
   * exactly the negative and over-999 codes get the retry message.
   */
  lemma TransferStateMeaning(code: int)
    ensures TransferStateFor(code) == Success <==> code == 200
    ensures TransferStateFor(code) == Error(RetryMessage) <==> (code < 0 || code > 999)
    ensures 0 <= code <= 999 && code != 200 ==>
              TransferStateFor(code).Error? && Prefix + Decimal(code) + ": " <= TransferStateFor(code).message
    ensures 4 <= code <= 999 && code != 200 ==>
              TransferStateFor(code) == Error(CodeMessage(code, ClassLabel(code / 100)))
  {
    if 0 <= code <= 2 {
      CodeMessageIsNotRetry(code, SentinelName(code));
    } else if code == 3 {
      CodeMessageIsNotRetry(3, "error in function makeTransfer");
    } else if 4 <= code <= 999 && code != 200 {
      CodeMessageIsNotRetry(code, ClassLabel(code / 100));
    }
  }

  /** The code-3 error is reserved for an empty stream: no other code produces it. */
  lemma OnlyCode3IsMakeTransferError(code: int)
    ensures TransferStateFor(code) == Error(MakeTransferErrorMessage) <==> code == 3
  {
    if 0 <= code <= 2 {
      if SentinelMessage(code) == MakeTransferErrorMessage {
        CodeMessageIdentifiesCode(code, SentinelName(code), 3, "error in function makeTransfer");
        assert false;
      }
    } else if 4 <= code <= 999 && code != 200 {
      if RangeMessage(code) == MakeTransferErrorMessage {
        CodeMessageIdentifiesCode(code, ClassLabel(code / 100), 3, "error in function makeTransfer");
      }
    } else if code < 0 || code > 999 {
      CodeMessageIsNotRetry(3, "error in function makeTransfer");
    }
  }

  /** A repository that emits nothing ends in the code-3 error. */
  lemma EmptyTransferStreamIsCode3()
    ensures !MakeTransfer(None).0
    ensures TransferStateFor(MakeTransfer(None).1) == Error(MakeTransferErrorMessage)
  {
  }

  class TransferViewModel {
    var state: TransferState
    var transferRecipient: string
    var transferAmount: real
    var isButtonMakeTransferEnabled: bool
    /** The identifier read from the store at start-up. */
    var transferSender: string
    /** The cached main-account balance read from the store at start-up. */
    var mainAccountBalance: real
    var navigateToAccountEvents: nat
    /** Every transfer request handed to the repository, in order. */
    ghost var requests: seq<TransferRequestBody>

    ghost predicate Valid()
      reads this
    {
      isButtonMakeTransferEnabled == TransferButtonEnabled(transferRecipient, transferAmount)
    }

    /**
     * The `init` block: the sender is the stored identifier rendered with
     * `toString()` ("null" when absent) and the balance the stored float (0 when
     * absent); the fields are empty, so the button starts disabled.
     */
    constructor (prefs: Store)
      ensures Valid()
      ensures state == Initial && transferRecipient == "" && transferAmount == 0.0
      ensures !isButtonMakeTransferEnabled
      ensures transferSender == NullableToString(GetString(prefs, KeyUserIdentifier))
      ensures mainAccountBalance == GetFloat(prefs, KeyMainAccountBalance, 0.0)
      ensures navigateToAccountEvents == 0 && requests == []
    {
      state := Initial;
      transferRecipient := "";
      transferAmount := 0.0;
      transferSender := NullableToString(GetString(prefs, KeyUserIdentifier));
      mainAccountBalance := GetFloat(prefs, KeyMainAccountBalance, 0.0);
      isButtonMakeTransferEnabled := false;
      navigateToAccountEvents := 0;
      requests := [];
      EmptyIsBlank();
    }

    /** `onFieldTransferRecipientChanged`: only the recipient (and the button flag) changes. */
    method OnFieldTransferRecipientChanged(newRecipient: string)
      requires Valid()
      modifies this`transferRecipient, this`isButtonMakeTransferEnabled
      ensures Valid()
      ensures transferRecipient == newRecipient
      ensures isButtonMakeTransferEnabled == IsNotBlank(newRecipient)
    {
      transferRecipient := newRecipient;
      isButtonMakeTransferEnabled := TransferButtonEnabled(transferRecipient, transferAmount);
    }

    /** `onFieldTransferAmountChanged`: only the amount changes; the button flag keeps its value. */
    method OnFieldTransferAmountChanged(newAmount: real)
      requires Valid()
      modifies this`transferAmount, this`isButtonMakeTransferEnabled
      ensures Valid()
      ensures transferAmount == newAmount
      ensures isButtonMakeTransferEnabled == old(isButtonMakeTransferEnabled)
    {
      transferAmount := newAmount;
      isButtonMakeTransferEnabled := TransferButtonEnabled(transferRecipient, transferAmount);
    }

    /**
     * `checkDataBeforeTransfer`: six validations in order; the first that fails
     * sets its error and returns false; true when all pass, the state untouched.
     */
    method CheckDataBeforeTransfer(sender: string, balance: real, recipient: string, amount: real)
      returns (possible: bool)
      modifies this`state
      ensures possible <==> PreCheckError(sender, balance, recipient, amount).None?
      ensures possible ==> state == old(state)
      ensures !possible ==> state == Error(PreCheckError(sender, balance, recipient, amount).value)
    {
      ghost var checks := TransferChecks(sender, balance, recipient, amount);
      if sender == "" {
        state := Error(SenderNotFoundMessage);
        PreCheckReportsFirstFailure(sender, balance, recipient, amount, 0);
        return false;
      }
      if balance == 0.0 {
        state := Error(MainAccountNotFoundMessage);
        PreCheckReportsFirstFailure(sender, balance, recipient, amount, 1);
        return false;
      }
      if recipient == "" {
        state := Error(RecipientNotFoundMessage);
        PreCheckReportsFirstFailure(sender, balance, recipient, amount, 2);
        return false;
      }
      if amount == 0.0 {
        state := Error(AmountNotFoundMessage);
        PreCheckReportsFirstFailure(sender, balance, recipient, amount, 3);
        return false;
      }
      if amount > balance {
        state := Error(BalanceTooLowMessage);
        PreCheckReportsFirstFailure(sender, balance, recipient, amount, 4);
        return false;
      }
      if sender == recipient {
        state := Error(SameRecipientMessage);
        PreCheckReportsFirstFailure(sender, balance, recipient, amount, 5);
        return false;
      }
      PreCheckPassesIff(sender, balance, recipient, amount);
      return true;
    }

    /** `handleTransferState`: the state for the status code, one assignment per branch. */
    method HandleTransferState(code: int)
      modifies this`state
      ensures state == TransferStateFor(code)
    {
      state := TransferStateFor(code);
    }

    method NavigateToAccount()
      modifies this`navigateToAccountEvents
      ensures navigateToAccountEvents == old(navigateToAccountEvents) + 1
    {
      navigateToAccountEvents := navigateToAccountEvents + 1;
    }

    /**
     * `onButtonMakeTransferClicked`: Loading, then the pre-check. A failing
     * pre-check leaves its error and sends nothing. Otherwise one request with
     * the current sender, recipient and amount; a successful result gives
     * Success and one navigation event whatever its status code; any other
     * result (an empty stream counts as code 3) gives the state for its code.
     */
    method OnButtonMakeTransferClicked(fetchTransferData: (string, string, real) -> Option<TransferResultModel>)
      requires Valid()
      modifies this`state, this`navigateToAccountEvents, this`requests
      ensures Valid()
      ensures var err := PreCheckError(transferSender, mainAccountBalance, transferRecipient, transferAmount);
              err.Some? ==>
                && state == Error(err.value)
                && requests == old(requests)
                && navigateToAccountEvents == old(navigateToAccountEvents)
      ensures var err := PreCheckError(transferSender, mainAccountBalance, transferRecipient, transferAmount);
              var (succeeded, code) := MakeTransfer(fetchTransferData(transferSender, transferRecipient, transferAmount));
              err.None? ==>
                && requests == old(requests) + [TransferRequestBody(transferSender, transferRecipient, transferAmount)]
                && (succeeded ==> state == Success && navigateToAccountEvents == old(navigateToAccountEvents) + 1)
                && (!succeeded ==> state == TransferStateFor(code) && navigateToAccountEvents == old(navigateToAccountEvents))
    {
      state := Loading;
      var possible := CheckDataBeforeTransfer(transferSender, mainAccountBalance, transferRecipient, transferAmount);
      if possible {
        requests := requests + [TransferRequestBody(transferSender, transferRecipient, transferAmount)];
        var (succeeded, code) := MakeTransfer(fetchTransferData(transferSender, transferRecipient, transferAmount));
        if succeeded {
          state := Success;
          NavigateToAccount();
        } else {
          HandleTransferState(code);
        }
      }
    }
  }
}
