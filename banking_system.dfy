/** The decision logic of the bot's banking commands: the order in which a transfer command
    refuses, the daily-reward gate by calendar date, the financial-status bands, the transfer
    form's checks and the history totals. The lookups the commands make (registration, balance,
    last claim) are parameters. */
module BankingSystem {
  import opened Wrappers
  import opened Text

  // ---------------------------------------------------------------- banco_transferir

  datatype TransferRejection =
    | SelfTransfer
    | NonPositiveAmount
    | OverMaximum
    | SenderNotRegistered
    | ReceiverNotRegistered
    | InsufficientBalance(needed: int, available: real)

  const MaxTransfer: int := 1000000

  /** The checks of banco_transferir, in order: the first one that fails is reported. */
  function CheckTransfer(senderId: int, receiverId: int, amount: int, senderRegistered: bool,
                         receiverRegistered: bool, senderBalance: real): (r: Option<TransferRejection>)
    ensures r.None? <==> senderId != receiverId && 0 < amount <= MaxTransfer && senderRegistered
                         && receiverRegistered && senderBalance >= amount as real
  {
    if senderId == receiverId then Some(SelfTransfer)
    else if amount <= 0 then Some(NonPositiveAmount)
    else if amount > MaxTransfer then Some(OverMaximum)
    else if !senderRegistered then Some(SenderNotRegistered)
    else if !receiverRegistered then Some(ReceiverNotRegistered)
    else if senderBalance < amount as real then Some(InsufficientBalance(amount, senderBalance))
    else None
  }

  /** Each refusal is reported exactly when the checks before it pass and its own fails. */
  lemma TransferCheckOrder(senderId: int, receiverId: int, amount: int, sr: bool, rr: bool, balance: real)
    ensures CheckTransfer(senderId, receiverId, amount, sr, rr, balance) == Some(SelfTransfer) <==> senderId == receiverId
    ensures CheckTransfer(senderId, receiverId, amount, sr, rr, balance) == Some(NonPositiveAmount) <==>
      senderId != receiverId && amount <= 0
    ensures CheckTransfer(senderId, receiverId, amount, sr, rr, balance) == Some(OverMaximum) <==>
      senderId != receiverId && amount > MaxTransfer
    ensures CheckTransfer(senderId, receiverId, amount, sr, rr, balance) == Some(SenderNotRegistered) <==>
      senderId != receiverId && 0 < amount <= MaxTransfer && !sr
    ensures CheckTransfer(senderId, receiverId, amount, sr, rr, balance) == Some(ReceiverNotRegistered) <==>
      senderId != receiverId && 0 < amount <= MaxTransfer && sr && !rr
    ensures CheckTransfer(senderId, receiverId, amount, sr, rr, balance).Some? &&
            CheckTransfer(senderId, receiverId, amount, sr, rr, balance).value.InsufficientBalance? <==>
      senderId != receiverId && 0 < amount <= MaxTransfer && sr && rr && balance < amount as real
  {
  }

  // ---------------------------------------------------------------- account status

  /** The financial status bands of the balance view. */
  datatype FinancialStatus = Bajo | Regular | Bueno | Excelente

  function StatusOf(balance: real): FinancialStatus
  {
    if balance >= 10000.0 then Excelente
    else if balance >= 5000.0 then Bueno
    else if balance >= 1000.0 then Regular
    else Bajo
  }

  function Rank(s: FinancialStatus): nat
  {
    match s
    case Bajo => 0
    case Regular => 1
    case Bueno => 2
    case Excelente => 3
  }

  /** The bands: each status holds on exactly its interval, so a larger balance never shows a
      worse status. */
  lemma StatusBands(a: real, b: real)
    ensures StatusOf(a) == Excelente <==> a >= 10000.0
    ensures StatusOf(a) == Bueno <==> 5000.0 <= a < 10000.0
    ensures StatusOf(a) == Regular <==> 1000.0 <= a < 5000.0
    ensures StatusOf(a) == Bajo <==> a < 1000.0
    ensures a <= b ==> Rank(StatusOf(a)) <= Rank(StatusOf(b))
  {
  }

  // ---------------------------------------------------------------- daily reward

  const DailyAmount: int := 250
  const SecondsPerDay: int := 86400

  /** The calendar date of a local timestamp, as a day number. */
  function DateOf(t: real): int
  {
    (t / SecondsPerDay as real).Floor
  }

  /** Midnight after the day of t: (t + 1 day) with the time of day set to 00:00. */
  function NextMidnight(t: real): (m: real)
    ensures t < m <= t + SecondsPerDay as real
    ensures DateOf(m) == DateOf(t) + 1
  {
    ((DateOf(t) + 1) * SecondsPerDay) as real
  }

  datatype DailyVerdict = Granted(amount: int, newBalance: real) | AlreadyClaimed(nextClaim: real)

  /** The daily_reward button: refused on the calendar date of the last claim, with the next
      claim at the following midnight; otherwise 250 credited and the new balance reported. */
  function DailyReward(lastClaim: Option<real>, balance: real, now: real): (v: DailyVerdict)
    ensures v.AlreadyClaimed? <==> lastClaim.Some? && DateOf(lastClaim.value) == DateOf(now)
    ensures v.AlreadyClaimed? ==> now < v.nextClaim && v.nextClaim == NextMidnight(lastClaim.value)
    ensures v.Granted? ==> v.amount == DailyAmount && v.newBalance == balance + DailyAmount as real
  {
    if lastClaim.Some? && DateOf(lastClaim.value) == DateOf(now) then
      AlreadyClaimed(NextMidnight(lastClaim.value))
    else Granted(DailyAmount, balance + DailyAmount as real)
  }

  /** A claim at t blocks every later attempt on the same date and none from the next midnight
      on: the gate allows one claim per calendar date. */
  lemma OneClaimPerDate(t: real, balance: real, now: real)
    requires t <= now
    ensures DailyReward(Some(t), balance, now).AlreadyClaimed? <==> now < NextMidnight(t)
  {
    var d := DateOf(t);
    if now < NextMidnight(t) {
      assert DateOf(now) == d;
    } else {
      assert DateOf(now) >= d + 1;
    }
  }

  // ---------------------------------------------------------------- transfer form

  datatype FormError = NotANumber | NonPositive | InsufficientFunds | InvalidAccount

  /** TransferModal.on_submit: the amount (None when float() fails) must be positive and within
      the balance, and the destination, uppercased and stripped, must start with "TAX". */
  function CheckTransferForm(amount: Option<real>, balance: real, account: string): (r: Result<(real, string), FormError>)
    ensures r.Ok? <==> amount.Some? && 0.0 < amount.value <= balance && StartsWith(Strip(ToUpper(account)), "TAX")
    ensures r.Ok? ==> r.value == (amount.value, Strip(ToUpper(account)))
  {
    if amount.None? then Err(NotANumber)
    else if amount.value <= 0.0 then Err(NonPositive)
    else if amount.value > balance then Err(InsufficientFunds)
    else
      var to := Strip(ToUpper(account));
      if !StartsWith(to, "TAX") then Err(InvalidAccount) else Ok((amount.value, to))
  }

  /** The destination is normalised once and for all: a normalised account number is left as
      it is, so the form treats " tax1" and "TAX1" alike. */
  lemma {:induction false} AccountNormalFormStable(account: string)
    ensures var n := Strip(ToUpper(account)); Strip(ToUpper(n)) == n
  {
    var u := ToUpper(account);
    UpperIsUppercase(account);
    StripKeepsUppercase(u);
    var n := Strip(u);
    UppercaseFixed(n);
    StripNoWhitespace(n);
  }

  /** Every character of s is its own uppercase. */
  predicate Uppercase(s: string)
  {
    forall i :: 0 <= i < |s| ==> Upper(s[i]) == s[i]
  }

  /** An uppercased string is uppercase. */
  lemma UpperIsUppercase(s: string)
    ensures Uppercase(ToUpper(s))
  {
    forall i | 0 <= i < |s| ensures Upper(ToUpper(s)[i]) == ToUpper(s)[i] {
      UpperTwice(s[i]);
    }
  }

  lemma UpperTwice(c: char)
    ensures Upper(Upper(c)) == Upper(c)
  {
  }

  /** Stripping an uppercase string leaves it uppercase. */
  lemma StripKeepsUppercase(s: string)
    requires Uppercase(s)
    ensures Uppercase(Strip(s))
  {
    var l := TrimLeft(s);
    var k := |s| - |l|;
    assert l == s[k..];
    var n := Strip(s);
    assert n == l[..|n|];
    forall i | 0 <= i < |n| ensures Upper(n[i]) == n[i] {
      assert n[i] == s[k + i];
    }
  }

  /** Uppercasing an uppercase string changes nothing. */
  lemma UppercaseFixed(s: string)
    requires Uppercase(s)
    ensures ToUpper(s) == s
  {
  }

  /** Hence checking a form twice, the second time with the destination it accepted, gives the
      same answer. */
  lemma FormCheckIdempotent(amount: Option<real>, balance: real, account: string)
    requires CheckTransferForm(amount, balance, account).Ok?
    ensures CheckTransferForm(amount, balance, CheckTransferForm(amount, balance, account).value.1)
            == CheckTransferForm(amount, balance, account)
  {
    AccountNormalFormStable(account);
  }

  // ---------------------------------------------------------------- history

  /** banco_historial accepts 1 to 20 entries. */
  predicate HistoryLimitOk(limit: int)
  {
    1 <= limit <= 20
  }

  /** The sum of the positive amounts. */
  function TotalIn(amounts: seq<real>): (r: real)
    ensures r >= 0.0
  {
    if amounts == [] then 0.0
    else TotalIn(amounts[..|amounts| - 1]) + (if amounts[|amounts| - 1] > 0.0 then amounts[|amounts| - 1] else 0.0)
  }

  /** The sum of the absolute values of the negative amounts. */
  function TotalOut(amounts: seq<real>): (r: real)
    ensures r >= 0.0
  {
    if amounts == [] then 0.0
    else TotalOut(amounts[..|amounts| - 1]) + (if amounts[|amounts| - 1] < 0.0 then -amounts[|amounts| - 1] else 0.0)
  }

  function Sum(amounts: seq<real>): real
  {
    if amounts == [] then 0.0 else Sum(amounts[..|amounts| - 1]) + amounts[|amounts| - 1]
  }

  /** The two totals split the history: money in minus money out is the net change. */
  lemma {:induction false} TotalsNet(amounts: seq<real>)
    ensures TotalIn(amounts) - TotalOut(amounts) == Sum(amounts)
  {
    if amounts != [] {
      TotalsNet(amounts[..|amounts| - 1]);
    }
  }

  /** A history of credits only has nothing out. */
  lemma {:induction false} CreditsOnlyHaveNoOut(amounts: seq<real>)
    requires forall i :: 0 <= i < |amounts| ==> amounts[i] >= 0.0
    ensures TotalOut(amounts) == 0.0
    ensures TotalIn(amounts) == Sum(amounts)
  {
    if amounts != [] {
      CreditsOnlyHaveNoOut(amounts[..|amounts| - 1]);
    }
  }
}
