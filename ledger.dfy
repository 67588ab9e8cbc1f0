/**
  The balance ledger (the `Transaction` model): `createTransaction` moves a
  user's balance by a credit or a debit and returns an audit record with the
  balance before and after; `getUserTransactions` pages a user's history.

  The user collection is the balance map passed in; `save()` is the map
  returned. The generated transaction id is a parameter.
*/
module Ledger {
  import opened Wrappers

  type UserId = string

  /** The values the record's `status` field may take. */
  datatype TxStatus = Pending | Completed | Failed | Cancelled

  /** One transaction record. */
  datatype Transaction = Transaction(
    transactionId: string,
    user: UserId,
    txType: string,
    amount: int,
    balanceBefore: int,
    balanceAfter: int,
    description: string,
    status: TxStatus)

  /**
    The errors `createTransaction` raises: the two it throws itself, and the
    validation error `transaction.save()` raises for a type outside the schema's enum.
  */
  datatype TxError = UserNotFound | InsufficientBalance | InvalidType

  /** The types the schema admits. */
  const TxTypes: seq<string> := ["deposit", "withdrawal", "game_bet", "game_win", "bonus", "referral", "refund"]
  /** The types that add the amount to the balance. */
  const CreditTypes: seq<string> := ["deposit", "game_win", "bonus", "referral", "refund"]
  /** The types that subtract the amount, after the sufficiency check. */
  const DebitTypes: seq<string> := ["withdrawal", "game_bet"]

  /** Every type the schema admits is a credit or a debit, and none is both. */
  lemma TypesClassified(t: string)
    ensures t in TxTypes <==> t in CreditTypes || t in DebitTypes
    ensures !(t in CreditTypes && t in DebitTypes)
  {
  }

  /**
    The balance transition: a credit adds the amount, a debit subtracts it
    unless the balance is below the amount, any other type leaves it as it is.
  */
  function Settle(balance: int, txType: string, amount: int): (r: Result<int, TxError>)
    ensures r.Failure? <==> txType !in CreditTypes && txType in DebitTypes && balance < amount
    ensures r.Failure? ==> r.error == InsufficientBalance
    ensures r.Success? && txType in CreditTypes ==> r.value == balance + amount
    ensures r.Success? && txType in DebitTypes && txType !in CreditTypes ==> r.value == balance - amount && r.value >= 0
    ensures r.Success? && txType !in CreditTypes && txType !in DebitTypes ==> r.value == balance
  {
    if txType in CreditTypes then Success(balance + amount)
    else if txType in DebitTypes then
      (if balance < amount then Failure(InsufficientBalance) else Success(balance - amount))
    else Success(balance)
  }

  /**
    `createTransaction`: looks the user up, computes the balance after the
    transition, stores it on the user and returns the completed record.
    An unknown user or an insufficient balance changes nothing; a type outside
    the schema's enum leaves the balance as it was and no record is kept.
  */
  method CreateTransaction(balances: map<UserId, int>, userId: UserId, txType: string, amount: int,
                           description: string, transactionId: string)
    returns (balances': map<UserId, int>, r: Result<Transaction, TxError>)
    ensures userId !in balances ==> r == Failure(UserNotFound) && balances' == balances
    ensures r.Failure? && r.error != InvalidType ==> balances' == balances
    ensures userId in balances ==>
      match Settle(balances[userId], txType, amount)
      case Failure(e) => r == Failure(e)
      case Success(after) =>
        && balances' == balances[userId := after]
        && (txType in TxTypes ==>
              r == Success(Transaction(transactionId, userId, txType, amount,
                                       balances[userId], after, description, Completed)))
        && (txType !in TxTypes ==> r == Failure(InvalidType) && balances' == balances)
    ensures r.Success? ==>
      && userId in balances && userId in balances'
      && r.value.user == userId && r.value.amount == amount && r.value.status == Completed
      && r.value.balanceBefore == balances[userId]
      && r.value.balanceAfter == balances'[userId]
      && balances' == balances[userId := r.value.balanceAfter]
  {
    if userId !in balances {
      return balances, Failure(UserNotFound);
    }
    var balanceBefore := balances[userId];
    var balanceAfter := balanceBefore;
    balances' := balances;
    if txType in CreditTypes {
      balanceAfter := balanceBefore + amount;
      balances' := balances'[userId := balanceAfter];
    } else if txType in DebitTypes {
      if balances'[userId] < amount {
        return balances, Failure(InsufficientBalance);
      }
      balanceAfter := balanceBefore - amount;
      balances' := balances'[userId := balanceAfter];
    }
    if txType !in TxTypes {
      TypesClassified(txType);
      assert balances' == balances;
      return balances', Failure(InvalidType);
    }
    r := Success(Transaction(transactionId, userId, txType, amount, balanceBefore, balanceAfter,
                             description, Completed));
  }

  /** Every record obeys `balanceAfter == balanceBefore + signed amount`. */
  lemma RecordBalanced(balances: map<UserId, int>, userId: UserId, t: Transaction)
    requires userId in balances
    requires Settle(balances[userId], t.txType, t.amount).Success?
    requires t.balanceBefore == balances[userId]
    requires t.balanceAfter == Settle(balances[userId], t.txType, t.amount).value
    requires t.txType in TxTypes
    ensures t.balanceAfter - t.balanceBefore == (if t.txType in CreditTypes then t.amount else -t.amount)
    ensures t.txType in DebitTypes ==> t.balanceAfter >= 0
  {
    TypesClassified(t.txType);
  }

  // ----- getUserTransactions -----

  /** The user's records, newest first, from a history kept oldest first. */
  function NewestFirst(history: seq<Transaction>, userId: UserId): (r: seq<Transaction>)
    ensures |r| <= |history|
    ensures forall k :: 0 <= k < |r| ==> r[k].user == userId && r[k] in history
  {
    if history == [] then []
    else
      var last := history[|history| - 1];
      var rest := NewestFirst(history[..|history| - 1], userId);
      if last.user == userId then [last] + rest else rest
  }

  lemma {:induction false} NewestFirstComplete(history: seq<Transaction>, userId: UserId, t: Transaction)
    requires t in history && t.user == userId
    ensures t in NewestFirst(history, userId)
  {
    var n := |history|;
    if history[n - 1] != t {
      var i :| 0 <= i < n && history[i] == t;
      assert history[..n - 1][i] == t;
      NewestFirstComplete(history[..n - 1], userId, t);
    }
  }

  /** The user's records in history order, oldest first. */
  function Filter(history: seq<Transaction>, userId: UserId): (r: seq<Transaction>)
    ensures |r| <= |history|
  {
    if history == [] then []
    else (if history[0].user == userId then [history[0]] else []) + Filter(history[1..], userId)
  }

  /** The sequence in the opposite order. */
  function Reverse<T>(s: seq<T>): (r: seq<T>)
    ensures |r| == |s|
    ensures forall k :: 0 <= k < |s| ==> r[k] == s[|s| - 1 - k]
  {
    if s == [] then [] else Reverse(s[1..]) + [s[0]]
  }

  lemma {:induction false} FilterSnoc(history: seq<Transaction>, t: Transaction, userId: UserId)
    ensures Filter(history + [t], userId) == Filter(history, userId) + (if t.user == userId then [t] else [])
  {
    if history == [] {
      assert [t][1..] == [];
    } else {
      assert (history + [t])[1..] == history[1..] + [t];
      FilterSnoc(history[1..], t, userId);
    }
  }

  /**
    `sort({createdAt: -1})` over a history kept in creation order: the listing
    is exactly the user's records, in history order, reversed. Each record thus
    appears as often as it does in the history, the newest first.
  */
  lemma {:induction false} NewestFirstOrder(history: seq<Transaction>, userId: UserId)
    ensures NewestFirst(history, userId) == Reverse(Filter(history, userId))
  {
    if history != [] {
      var n := |history|;
      var front, last := history[..n - 1], history[n - 1];
      NewestFirstOrder(front, userId);
      assert history == front + [last];
      FilterSnoc(front, last, userId);
      if last.user == userId {
        ReverseSnoc(Filter(front, userId), last);
      } else {
        assert Filter(history, userId) == Filter(front, userId) + [];
      }
    }
  }

  lemma {:induction false} ReverseSnoc<T>(s: seq<T>, x: T)
    ensures Reverse(s + [x]) == [x] + Reverse(s)
  {
    if s == [] {
      assert [x][1..] == [];
    } else {
      assert (s + [x])[1..] == s[1..] + [x];
      ReverseSnoc(s[1..], x);
    }
  }

  /** The errors the query raises. */
  datatype QueryError = NegativeSkip

  /**
    `getUserTransactions`: skips `(page - 1) * limit` of the user's records,
    newest first, and returns at most `limit` of the rest. As in MongoDB, a
    limit of 0 means no limit, a negative limit acts as its absolute value, and
    a negative skip is refused.
  */
  function GetUserTransactions(history: seq<Transaction>, userId: UserId, limit: int, page: int)
    : (r: Result<seq<Transaction>, QueryError>)
    ensures r.Failure? <==> (page - 1) * limit < 0
    ensures r.Success? ==>
      var all, skip := NewestFirst(history, userId), (page - 1) * limit;
      && (limit != 0 ==> |r.value| <= Abs(limit))
      && |r.value| == Min(if limit == 0 then |all| else Abs(limit), if skip < |all| then |all| - skip else 0)
      && forall k :: 0 <= k < |r.value| ==> skip + k < |all| && r.value[k] == all[skip + k]
  {
    var skip := (page - 1) * limit;
    if skip < 0 then Failure(NegativeSkip)
    else
      var all := NewestFirst(history, userId);
      var rest := if skip < |all| then all[skip..] else [];
      Success(if limit == 0 || |rest| <= Abs(limit) then rest else rest[..Abs(limit)])
  }

  function Abs(x: int): nat { if x < 0 then -x else x }
  function Min(a: int, b: int): int { if a < b then a else b }

  /**
    With a positive limit, every record of the user has its page: the `j`-th
    newest record is entry `j mod limit` of page `j div limit + 1`.
  */
  lemma PageOfEntry(history: seq<Transaction>, userId: UserId, limit: int, j: nat)
    requires limit > 0 && j < |NewestFirst(history, userId)|
    ensures var p := GetUserTransactions(history, userId, limit, j / limit + 1);
      p.Success? && j % limit < |p.value| && p.value[j % limit] == NewestFirst(history, userId)[j]
  {
    var q, m := j / limit, j % limit;
    DivMod(j, limit);
    var skip := (q + 1 - 1) * limit;
    assert skip == q * limit;
    var all := NewestFirst(history, userId);
    var p := GetUserTransactions(history, userId, limit, q + 1);
    assert p.Success?;
    assert skip + m == j;
    assert m < |p.value|;
  }

  /** The division facts `PageOfEntry` needs, kept apart so that its own proof stays linear. */
  lemma DivMod(j: nat, d: int)
    requires d > 0
    ensures j == (j / d) * d + j % d && 0 <= j % d < d && (j / d) * d >= 0
  {
  }
}
