/** The central user manager: registration into taxi_users, the unified view of a user read from
    users joined with bank_accounts (with its fallbacks), the bank-account ledger operations
    (credit, debit, transfer, daily reward) with their transaction log, and the language and
    last-claim lookups. Each table is a field of the manager; user ids start at 1. */
module UserManager {
  import opened Wrappers
  import opened Text
  import opened Ordering

  /** A row of taxi_users, the table registration writes. */
  datatype TaxiUser = TaxiUser(discordId: string, guild: string, username: string, displayName: Option<string>,
                               welcomePackClaimed: bool, timezone: string, ingameName: Option<string>,
                               balance: real, language: Option<string>)

  /** A row of the unified users table the lookups read. */
  datatype UserRow = UserRow(userId: nat, discordId: string, guild: string, username: string, displayName: Option<string>,
                             timezone: Option<string>, language: Option<string>, status: Option<string>,
                             welcomePackClaimed: Option<bool>)

  /** A row of bank_accounts, keyed by user id. */
  datatype BankAccount = BankAccount(accountNumber: Option<string>, balance: real, totalEarned: real, totalSpent: real)

  /** A row of user_transactions. */
  datatype Transaction = Transaction(from: string, to: string, amount: real, kind: string, description: string, guild: string)

  /** A row of daily_rewards; claimedAt is the stored timestamp text, which orders like the time. */
  datatype DailyReward = DailyReward(userId: nat, amount: real, claimedAt: string)

  /** The dictionary the lookups return. */
  datatype UserView = UserView(userId: nat, discordId: string, guild: string, username: string, displayName: Option<string>,
                               timezone: string, language: string, status: string, welcomePackClaimed: bool,
                               accountNumber: string, balance: real)

  /** The user_transactions row of a transfer: from the sender's account to the receiver's,
      of type "transfer", filed under the sender's guild. */
  function TransferEntry(sender: UserView, receiver: UserView, amount: real, description: string): Transaction
  {
    Transaction(sender.accountNumber, receiver.accountNumber, amount, "transfer", description, sender.guild)
  }

  /** The dictionary register_user returns. */
  datatype Registered = Registered(userId: nat, discordId: string, guild: string, username: string,
                                   displayName: Option<string>, balance: real, accountNumber: string,
                                   timezone: string, ingameName: Option<string>, language: string)

  const StartingBalance: real := 1000.0
  const DefaultLanguage: string := "es"
  const DefaultDailyReward: real := 500.0

  /** The account number shown for a user: "ACC-" and the id in at least six digits. */
  function AccountNumber(userId: nat): string
  {
    "ACC-" + ZeroPad(userId, 6)
  }

  /** An account number is "ACC-" followed by digits that spell the user id, so distinct users
      get distinct numbers. */
  lemma AccountNumberShape(userId: nat, other: nat)
    ensures var r := AccountNumber(userId);
      |r| >= 10 && r[..4] == "ACC-" && IsDigits(r[4..]) && DigitsValue(r[4..]) == userId
    ensures AccountNumber(userId) == AccountNumber(other) ==> userId == other
  {
    assert AccountNumber(userId)[4..] == ZeroPad(userId, 6);
    assert AccountNumber(other)[4..] == ZeroPad(other, 6);
  }

  /** Python's `value or default` on a nullable text column: NULL and "" both fall back. */
  function OrDefault(v: Option<string>, default: string): (r: string)
    ensures r == default || (v.Some? && r == v.value && r != "")
    ensures v.Some? && v.value != "" ==> r == v.value
  {
    if v.Some? && v.value != "" then v.value else default
  }

  /** get_user_balance: the bank balance, 0.0 without a bank row. */
  function BalanceOf(bank: map<nat, BankAccount>, userId: nat): real
  {
    if userId in bank then bank[userId].balance else 0.0
  }

  /** The row of users joined with its bank row, with the fallbacks of the lookups. */
  function View(u: UserRow, bank: map<nat, BankAccount>): UserView
  {
    var acct := if u.userId in bank then bank[u.userId].accountNumber else None;
    UserView(u.userId, u.discordId, u.guild, u.username, u.displayName,
             OrDefault(u.timezone, "UTC"), OrDefault(u.language, DefaultLanguage), OrDefault(u.status, "active"),
             u.welcomePackClaimed == Some(true), OrDefault(acct, AccountNumber(u.userId)), BalanceOf(bank, u.userId))
  }

  /** The position of the first row satisfying p, if any. */
  function FirstIndex(rows: seq<UserRow>, p: UserRow -> bool): (r: Option<nat>)
    ensures r.Some? ==> r.value < |rows| && p(rows[r.value]) && forall j :: 0 <= j < r.value ==> !p(rows[j])
    ensures r.None? ==> forall j :: 0 <= j < |rows| ==> !p(rows[j])
  {
    if rows == [] then None
    else if p(rows[0]) then Some(0)
    else
      var rest := FirstIndex(rows[1..], p);
      if rest.Some? then Some(rest.value + 1) else None
  }

  /** The last claim time of a user: the greatest stored text (ORDER BY claimed_at DESC), "" when
      the user never claimed. */
  function LatestClaim(rewards: seq<DailyReward>, userId: nat): string
  {
    if rewards == [] then ""
    else
      var rest := LatestClaim(rewards[..|rewards| - 1], userId);
      var last := rewards[|rewards| - 1];
      if last.userId == userId && LexLess(rest, last.claimedAt) then last.claimedAt else rest
  }

  /** The last claim is a claim of that user (or "") and no claim of that user is later. */
  lemma {:induction false} LatestClaimIsLatest(rewards: seq<DailyReward>, userId: nat)
    ensures var r := LatestClaim(rewards, userId);
      && (forall i :: 0 <= i < |rewards| && rewards[i].userId == userId ==> !LexLess(r, rewards[i].claimedAt))
      && (r == "" || exists i :: 0 <= i < |rewards| && rewards[i].userId == userId && rewards[i].claimedAt == r)
  {
    if rewards != [] {
      var init := rewards[..|rewards| - 1];
      var rest := LatestClaim(init, userId);
      var last := rewards[|rewards| - 1];
      LatestClaimIsLatest(init, userId);
      var r := LatestClaim(rewards, userId);
      forall i | 0 <= i < |rewards| && rewards[i].userId == userId
        ensures !LexLess(r, rewards[i].claimedAt)
      {
        if i == |rewards| - 1 {
          LexLessIrreflexive(last.claimedAt);
        } else {
          assert rewards[i] == init[i];
          if r != rest && LexLess(r, rewards[i].claimedAt) {
            LexLessTransitive(rest, r, rewards[i].claimedAt);
          }
        }
      }
      if r == rest && rest != "" {
        var i :| 0 <= i < |init| && init[i].userId == userId && init[i].claimedAt == rest;
        assert rewards[i] == init[i];
      }
    }
  }

  /** A user without claims reads "", one with a claim stored under a non-empty time reads a
      non-empty time. */
  lemma {:induction false} LatestClaimEmptyIffNone(rewards: seq<DailyReward>, userId: nat)
    requires forall i :: 0 <= i < |rewards| ==> rewards[i].claimedAt != ""
    ensures LatestClaim(rewards, userId) == "" <==> forall i :: 0 <= i < |rewards| ==> rewards[i].userId != userId
  {
    LatestClaimIsLatest(rewards, userId);
    if exists i :: 0 <= i < |rewards| && rewards[i].userId == userId {
      var i :| 0 <= i < |rewards| && rewards[i].userId == userId;
      assert !LexLess(LatestClaim(rewards, userId), rewards[i].claimedAt);
    }
  }

  /** The bank rows after crediting a user: balance and total earned grow by the amount; a user
      without a bank row is not touched (the UPDATE matches nothing). */
  function Credit(bank: map<nat, BankAccount>, userId: nat, amount: real): map<nat, BankAccount>
  {
    if userId in bank
    then bank[userId := bank[userId].(balance := bank[userId].balance + amount, totalEarned := bank[userId].totalEarned + amount)]
    else bank
  }

  /** The bank rows after debiting a user: balance falls and total spent grows by the amount. */
  function Debit(bank: map<nat, BankAccount>, userId: nat, amount: real): map<nat, BankAccount>
  {
    if userId in bank
    then bank[userId := bank[userId].(balance := bank[userId].balance - amount, totalSpent := bank[userId].totalSpent + amount)]
    else bank
  }

  /** Between two users with bank rows, a transfer conserves the sum of their balances, moves
      exactly the amount, and touches no other row. */
  lemma TransferConserves(bank: map<nat, BankAccount>, from: nat, to: nat, amount: real)
    requires from in bank && to in bank
    ensures var after := Credit(Debit(bank, from, amount), to, amount);
      && after.Keys == bank.Keys
      && (from != to ==> after[from].balance == bank[from].balance - amount)
      && (from != to ==> after[to].balance == bank[to].balance + amount)
      && BalanceOf(after, from) + (if from != to then BalanceOf(after, to) else 0.0)
         == BalanceOf(bank, from) + (if from != to then BalanceOf(bank, to) else 0.0)
      && (forall k :: k in bank && k != from && k != to ==> after[k] == bank[k])
  {
  }

  /** When the receiver exists but has no bank row, the credit matches no row: the sender pays
      and nobody is paid. */
  lemma TransferWithoutReceiverAccountLosesMoney(bank: map<nat, BankAccount>, from: nat, to: nat, amount: real)
    requires from in bank && to !in bank
    ensures var after := Credit(Debit(bank, from, amount), to, amount);
      && after.Keys == bank.Keys
      && BalanceOf(after, from) + BalanceOf(after, to) == BalanceOf(bank, from) + BalanceOf(bank, to) - amount
  {
  }

  predicate HasPair(ts: seq<TaxiUser>, discordId: string, guild: string)
  {
    exists i :: 0 <= i < |ts| && ts[i].discordId == discordId && ts[i].guild == guild
  }

  /** Each (discord id, guild) pair at most once: the UNIQUE constraint of taxi_users. */
  ghost predicate UniquePairs(ts: seq<TaxiUser>)
  {
    forall i, j :: 0 <= i < j < |ts| ==> !(ts[i].discordId == ts[j].discordId && ts[i].guild == ts[j].guild)
  }

  lemma AppendKeepsUnique(ts: seq<TaxiUser>, t: TaxiUser)
    requires UniquePairs(ts) && !HasPair(ts, t.discordId, t.guild)
    ensures UniquePairs(ts + [t])
  {
    var r := ts + [t];
    forall i, j | 0 <= i < j < |r|
      ensures !(r[i].discordId == r[j].discordId && r[i].guild == r[j].guild)
    {
      if j == |ts| {
        assert r[i] == ts[i];
      }
    }
  }

  predicate KnownUser(users: seq<UserRow>, userId: nat)
  {
    exists j :: 0 <= j < |users| && users[j].userId == userId
  }

  /** get_user_by_id on given tables. */
  function Lookup(users: seq<UserRow>, bank: map<nat, BankAccount>, userId: nat): (r: Option<UserView>)
    ensures r.Some? ==> r.value.userId == userId && r.value.balance == BalanceOf(bank, userId)
    ensures r.Some? <==> KnownUser(users, userId)
  {
    var i := FirstIndex(users, (u: UserRow) => u.userId == userId);
    if i.Some? then Some(View(users[i.value], bank)) else None
  }

  class UserStore {
    var taxiUsers: seq<TaxiUser>
    var users: seq<UserRow>
    var bank: map<nat, BankAccount>
    var transactions: seq<Transaction>
    var dailyRewards: seq<DailyReward>

    /** taxi_users holds each (discord id, guild) pair at most once. */
    ghost predicate Valid()
      reads this
    {
      UniquePairs(taxiUsers)
    }

    constructor ()
      ensures taxiUsers == [] && users == [] && bank == map[] && transactions == [] && dailyRewards == []
      ensures Valid()
    {
      taxiUsers, users, bank, transactions, dailyRewards := [], [], map[], [], [];
    }

    /** get_user_by_discord_id. */
    function GetUserByDiscordId(discordId: string, guild: string): (r: Option<UserView>)
      reads this
      ensures r.Some? ==> r.value.discordId == discordId && r.value.guild == guild
      ensures r.None? ==> forall j :: 0 <= j < |users| ==> !(users[j].discordId == discordId && users[j].guild == guild)
    {
      var i := FirstIndex(users, (u: UserRow) => u.discordId == discordId && u.guild == guild);
      if i.Some? then Some(View(users[i.value], bank)) else None
    }

    /** get_user_by_id. */
    function GetUserById(userId: nat): (r: Option<UserView>)
      reads this
      ensures r.Some? ==> r.value.userId == userId && r.value.balance == BalanceOf(bank, userId)
      ensures r.None? <==> forall j :: 0 <= j < |users| ==> users[j].userId != userId
    {
      Lookup(users, bank, userId)
    }

    /** A registered user without a bank row reads balance 0.0 and the fallback account number,
        both in the lookup and in get_user_balance. */
    lemma MissingBankRowFallbacks(userId: nat)
      requires GetUserById(userId).Some? && userId !in bank
      ensures GetUserById(userId).value.balance == 0.0
      ensures GetUserById(userId).value.accountNumber == AccountNumber(userId)
    {
    }

    /** get_user_language: the stored language, "es" when the user is unknown or has none. */
    function GetUserLanguage(userId: nat): (r: string)
      reads this
      ensures r != ""
      ensures !(1 <= userId <= |taxiUsers|) ==> r == DefaultLanguage
      ensures 1 <= userId <= |taxiUsers| ==> r == OrDefault(taxiUsers[userId - 1].language, DefaultLanguage)
    {
      if 1 <= userId <= |taxiUsers| then OrDefault(taxiUsers[userId - 1].language, DefaultLanguage) else DefaultLanguage
    }

    /** get_last_daily_claim. */
    function GetLastDailyClaim(userId: nat): (r: string)
      reads this
      ensures forall i :: 0 <= i < |dailyRewards| && dailyRewards[i].userId == userId ==> !LexLess(r, dailyRewards[i].claimedAt)
    {
      LatestClaimIsLatest(dailyRewards, userId);
      LatestClaim(dailyRewards, userId)
    }

    /** register_user: refuses a (discord id, guild) pair already in taxi_users; otherwise adds the
        user with balance 1000.0, language "es", the welcome pack marked, and timezone "UTC"
        unless one is given. */
    method RegisterUser(discordId: string, guild: string, username: string, displayName: Option<string>,
                        timezone: Option<string>, ingameName: Option<string>)
      returns (r: Option<Registered>)
      modifies this
      ensures users == old(users) && bank == old(bank) && transactions == old(transactions) && dailyRewards == old(dailyRewards)
      ensures r.None? <==> HasPair(old(taxiUsers), discordId, guild)
      ensures r.None? ==> taxiUsers == old(taxiUsers)
      ensures r.Some? ==>
        var tz := OrDefault(timezone, "UTC");
        var userId := |old(taxiUsers)| + 1;
        && taxiUsers == old(taxiUsers) + [TaxiUser(discordId, guild, username, displayName, true, tz, ingameName, StartingBalance, Some(DefaultLanguage))]
        && r.value == Registered(userId, discordId, guild, username, displayName, StartingBalance, AccountNumber(userId), tz, ingameName, DefaultLanguage)
      ensures old(Valid()) ==> Valid()
    {
      if HasPair(taxiUsers, discordId, guild) {
        return None;
      }
      var tz := OrDefault(timezone, "UTC");
      var userId := |taxiUsers| + 1;
      var row := TaxiUser(discordId, guild, username, displayName, true, tz, ingameName, StartingBalance, Some(DefaultLanguage));
      if UniquePairs(taxiUsers) {
        AppendKeepsUnique(taxiUsers, row);
      }
      taxiUsers := taxiUsers + [row];
      var acct := AccountNumber(userId);
      r := Some(Registered(userId, discordId, guild, username, displayName, StartingBalance, acct, tz, ingameName, DefaultLanguage));
    }

    /** The log entry of a system movement for a user known to the lookup, none otherwise. */
    function SystemEntry(userId: nat, amount: real, toUser: bool, kind: string, description: string): (e: seq<Transaction>)
      reads this
      ensures |e| <= 1 && (e == [] <==> GetUserById(userId).None?)
    {
      var u := GetUserById(userId);
      if u.None? then []
      else if toUser then [Transaction("SYSTEM", u.value.accountNumber, amount, kind, description, u.value.guild)]
      else [Transaction(u.value.accountNumber, "SYSTEM", amount, kind, description, u.value.guild)]
    }

    /** add_money: credits the bank row and logs a credit. */
    method AddMoney(userId: nat, amount: real, description: string) returns (ok: bool)
      modifies this
      ensures ok
      ensures bank == Credit(old(bank), userId, amount)
      ensures transactions == old(transactions) + old(SystemEntry(userId, amount, true, "credit", description))
      ensures taxiUsers == old(taxiUsers) && users == old(users) && dailyRewards == old(dailyRewards)
    {
      var entry := SystemEntry(userId, amount, true, "credit", description);
      bank := Credit(bank, userId, amount);
      transactions := transactions + entry;
      ok := true;
    }

    /** subtract_money: refuses, changing nothing, when the balance is below the amount;
        otherwise debits the bank row and logs a debit. */
    method SubtractMoney(userId: nat, amount: real, description: string) returns (ok: bool)
      modifies this
      ensures ok <==> BalanceOf(old(bank), userId) >= amount
      ensures !ok ==> bank == old(bank) && transactions == old(transactions)
      ensures ok ==> bank == Debit(old(bank), userId, amount)
                     && transactions == old(transactions) + old(SystemEntry(userId, amount, false, "debit", description))
      ensures taxiUsers == old(taxiUsers) && users == old(users) && dailyRewards == old(dailyRewards)
    {
      if BalanceOf(bank, userId) < amount {
        return false;
      }
      var entry := SystemEntry(userId, amount, false, "debit", description);
      bank := Debit(bank, userId, amount);
      transactions := transactions + entry;
      ok := true;
    }

    /** transfer_money as written: both users must be known to the lookup and the sender's
        balance must cover the amount; then the sender's row is debited, the receiver's row
        credited, and one transfer logged. */
    method TransferMoney(from: nat, to: nat, amount: real, description: string := "Transfer") returns (ok: bool, message: string)
      modifies this
      ensures !ok <==> !KnownUser(users, from) || !KnownUser(users, to) || BalanceOf(old(bank), from) < amount
      ensures !ok ==> bank == old(bank) && transactions == old(transactions)
      ensures !KnownUser(users, from) || !KnownUser(users, to) ==> message == "Usuario no encontrado"
      ensures ok ==> message == "Transferencia exitosa" && bank == Credit(Debit(old(bank), from, amount), to, amount)
      ensures ok ==> old(GetUserById(from)).Some? && old(GetUserById(to)).Some?
                     && transactions == old(transactions) + [TransferEntry(old(GetUserById(from)).value, old(GetUserById(to)).value, amount, description)]
      ensures taxiUsers == old(taxiUsers) && users == old(users) && dailyRewards == old(dailyRewards)
    {
      var fromUser := GetUserById(from);
      var toUser := GetUserById(to);
      if fromUser.None? || toUser.None? {
        return false, "Usuario no encontrado";
      }
      if fromUser.value.balance < amount {
        return false, "Balance insuficiente";
      }
      bank := Credit(Debit(bank, from, amount), to, amount);
      transactions := transactions + [TransferEntry(fromUser.value, toUser.value, amount, description)];
      ok, message := true, "Transferencia exitosa";
    }

    /** The transfer as evidently intended: also refused when either side has no bank row, so a
        transfer that goes through always conserves the two balances. */
    method TransferMoneyIntended(from: nat, to: nat, amount: real, description: string := "Transfer") returns (ok: bool, message: string)
      modifies this
      ensures !ok <==> !KnownUser(users, from) || !KnownUser(users, to) || from !in old(bank) || to !in old(bank) || BalanceOf(old(bank), from) < amount
      ensures !ok ==> bank == old(bank) && transactions == old(transactions)
      ensures ok ==> from in old(bank) && to in old(bank) && bank == Credit(Debit(old(bank), from, amount), to, amount)
      ensures ok ==> old(GetUserById(from)).Some? && old(GetUserById(to)).Some?
                     && transactions == old(transactions) + [TransferEntry(old(GetUserById(from)).value, old(GetUserById(to)).value, amount, description)]
      ensures ok && from != to ==> BalanceOf(bank, from) + BalanceOf(bank, to) == BalanceOf(old(bank), from) + BalanceOf(old(bank), to)
      ensures taxiUsers == old(taxiUsers) && users == old(users) && dailyRewards == old(dailyRewards)
    {
      if from !in bank || to !in bank {
        return false, "Cuenta bancaria no encontrada";
      }
      ok, message := TransferMoney(from, to, amount, description);
      if ok {
        TransferConserves(old(bank), from, to, amount);
      }
    }

    /** add_daily_reward: records the reward (500 unless another amount is given) at the given time,
        credits the bank row and logs a daily_reward entry. */
    method AddDailyReward(userId: nat, claimedAt: string, amount: real := DefaultDailyReward) returns (ok: bool)
      modifies this
      ensures ok
      ensures dailyRewards == old(dailyRewards) + [DailyReward(userId, amount, claimedAt)]
      ensures bank == Credit(old(bank), userId, amount)
      ensures transactions == old(transactions) + old(SystemEntry(userId, amount, true, "daily_reward", "Daily reward"))
      ensures taxiUsers == old(taxiUsers) && users == old(users)
    {
      var entry := SystemEntry(userId, amount, true, "daily_reward", "Daily reward");
      dailyRewards := dailyRewards + [DailyReward(userId, amount, claimedAt)];
      bank := Credit(bank, userId, amount);
      transactions := transactions + entry;
      ok := true;
    }
  }

  /** A reward claimed later than every earlier claim becomes the user's last claim. */
  lemma NewClaimIsLast(rewards: seq<DailyReward>, userId: nat, amount: real, claimedAt: string)
    requires LexLess(LatestClaim(rewards, userId), claimedAt)
    ensures LatestClaim(rewards + [DailyReward(userId, amount, claimedAt)], userId) == claimedAt
  {
    assert (rewards + [DailyReward(userId, amount, claimedAt)])[..|rewards|] == rewards;
  }
}
