/** The transaction log as a value: what replaying it means for one user's balance,
    when its `updated_bal` column agrees with that replay, and the statement a user
    reads from it. */
module TransactionLog {
  import opened WalletTypes

  /** The change a record makes to its owner's balance. */
  function Signed(t: TxRecord): real
  {
    match t.kind
    case Credit => t.amt
    case Debit => -t.amt
  }

  /** The balance of `u` obtained by replaying the log from 0, oldest record first. */
  function Replay(log: seq<TxRecord>, u: UserId): real
    decreases |log|
  {
    if log == [] then 0.0
    else
      var last := log[|log| - 1];
      Replay(log[..|log| - 1], u) + (if last.userId == u then Signed(last) else 0.0)
  }

  /** Appending a record moves its owner's replayed balance by the signed amount and
      leaves every other user's replayed balance where it was. */
  lemma ReplayAppend(log: seq<TxRecord>, t: TxRecord)
    ensures Replay(log + [t], t.userId) == Replay(log, t.userId) + Signed(t)
    ensures forall u :: u != t.userId ==> Replay(log + [t], u) == Replay(log, u)
  {
    assert (log + [t])[..|log|] == log;
  }

  /** A user with no record in the log replays to a zero balance. */
  lemma {:induction false} ReplayAbsent(log: seq<TxRecord>, u: UserId)
    requires forall i :: 0 <= i < |log| ==> log[i].userId != u
    ensures Replay(log, u) == 0.0
  {
    if log != [] {
      ReplayAbsent(log[..|log| - 1], u);
    }
  }

  /** Every record's `updated_bal` is its owner's balance right after the record:
      the replay of the log up to and including it. */
  ghost predicate Audited(log: seq<TxRecord>)
    decreases |log|
  {
    log == [] ||
    (Audited(log[..|log| - 1]) && log[|log| - 1].updatedBal == Replay(log, log[|log| - 1].userId))
  }

  /** Appending a record that carries its owner's new balance keeps the log audited. */
  lemma AuditedAppend(log: seq<TxRecord>, t: TxRecord)
    requires Audited(log)
    requires t.updatedBal == Replay(log, t.userId) + Signed(t)
    ensures Audited(log + [t])
  {
    assert (log + [t])[..|log|] == log;
  }

  /** Read at any position, an audited log's `updated_bal` is the replay of the log up
      to and including that record. */
  lemma {:induction false} AuditedAt(log: seq<TxRecord>, i: nat)
    requires Audited(log) && i < |log|
    ensures log[i].updatedBal == Replay(log[..i + 1], log[i].userId)
    decreases |log|
  {
    if i < |log| - 1 {
      var prefix := log[..|log| - 1];
      AuditedAt(prefix, i);
      assert prefix[..i + 1] == log[..i + 1];
    } else {
      assert log[..i + 1] == log;
    }
  }

  /** The books agree: every known balance is non-negative and is what replaying the
      log gives, every record belongs to a known user and moves a positive amount,
      and the log is audited. */
  ghost predicate Agrees(balances: map<UserId, real>, log: seq<TxRecord>)
  {
    (forall u :: u in balances ==> balances[u] >= 0.0 && balances[u] == Replay(log, u)) &&
    (forall i :: 0 <= i < |log| ==> log[i].userId in balances && log[i].amt > 0.0) &&
    Audited(log)
  }

  /** Opening an account at balance 0 for a user with no account keeps the books agreeing. */
  lemma OpenKeepsAgreement(balances: map<UserId, real>, log: seq<TxRecord>, u: UserId)
    requires Agrees(balances, log) && u !in balances
    ensures Agrees(balances[u := 0.0], log)
  {
    ReplayAbsent(log, u);
  }

  /** Crediting a positive amount to a user and logging a `credit` record carrying the
      new balance keeps the books agreeing. */
  lemma CreditKeepsAgreement(balances: map<UserId, real>, log: seq<TxRecord>, u: UserId, amt: real)
    requires Agrees(balances, log) && u in balances && amt > 0.0
    ensures Agrees(balances[u := balances[u] + amt], log + [TxRecord(u, Credit, amt, balances[u] + amt)])
  {
    var t := TxRecord(u, Credit, amt, balances[u] + amt);
    ReplayAppend(log, t);
    AuditedAppend(log, t);
  }

  /** Debiting a positive amount the balance covers and logging a `debit` record
      carrying the new balance keeps the books agreeing, so no balance goes negative. */
  lemma DebitKeepsAgreement(balances: map<UserId, real>, log: seq<TxRecord>, u: UserId, amt: real)
    requires Agrees(balances, log) && u in balances && 0.0 < amt <= balances[u]
    ensures Agrees(balances[u := balances[u] - amt], log + [TxRecord(u, Debit, amt, balances[u] - amt)])
  {
    var t := TxRecord(u, Debit, amt, balances[u] - amt);
    ReplayAppend(log, t);
    AuditedAppend(log, t);
  }

  /** A transfer of a positive amount the sender's balance covers, logged as a `debit`
      for the sender followed by a `credit` for a different recipient, each carrying
      its owner's new balance, keeps the books agreeing. */
  lemma TransferKeepsAgreement(balances: map<UserId, real>, log: seq<TxRecord>, s: UserId, r: UserId, amt: real)
    requires Agrees(balances, log) && s in balances && r in balances && s != r
    requires 0.0 < amt <= balances[s]
    ensures Agrees(balances[s := balances[s] - amt][r := balances[r] + amt],
                   log + [TxRecord(s, Debit, amt, balances[s] - amt), TxRecord(r, Credit, amt, balances[r] + amt)])
  {
    var debit := TxRecord(s, Debit, amt, balances[s] - amt);
    var credit := TxRecord(r, Credit, amt, balances[r] + amt);
    var afterDebit := balances[s := balances[s] - amt];
    DebitKeepsAgreement(balances, log, s, amt);
    CreditKeepsAgreement(afterDebit, log + [debit], r, amt);
    assert log + [debit] + [credit] == log + [debit, credit];
  }

  /** A user's statement: exactly the user's records, most recent first. */
  function StatementOf(log: seq<TxRecord>, u: UserId): (rows: seq<TxRecord>)
    ensures forall k :: 0 <= k < |rows| ==> rows[k].userId == u
    ensures |rows| <= |log|
    decreases |log|
  {
    if log == [] then []
    else
      var last := log[|log| - 1];
      var older := StatementOf(log[..|log| - 1], u);
      if last.userId == u then [last] + older else older
  }

  /** A statement holds exactly the user's records: nothing else and none left out. */
  lemma {:induction false} StatementMembers(log: seq<TxRecord>, u: UserId)
    ensures forall t :: t in StatementOf(log, u) <==> t in log && t.userId == u
    decreases |log|
  {
    if log != [] {
      var prefix := log[..|log| - 1];
      StatementMembers(prefix, u);
      assert log == prefix + [log[|log| - 1]];
    }
  }

  /** A newly appended record heads its owner's statement and leaves every other
      user's statement as it was. */
  lemma StatementAppend(log: seq<TxRecord>, t: TxRecord, u: UserId)
    ensures StatementOf(log + [t], u) == if t.userId == u then [t] + StatementOf(log, u) else StatementOf(log, u)
  {
    assert (log + [t])[..|log|] == log;
  }

  /** The first row of an audited log's statement shows the user's current balance. */
  lemma {:induction false} StatementHead(log: seq<TxRecord>, u: UserId)
    requires Audited(log)
    requires StatementOf(log, u) != []
    ensures StatementOf(log, u)[0].updatedBal == Replay(log, u)
    decreases |log|
  {
    var prefix := log[..|log| - 1];
    if log[|log| - 1].userId != u {
      StatementHead(prefix, u);
      assert prefix + [log[|log| - 1]] == log;
      ReplayAppend(prefix, log[|log| - 1]);
    }
  }

  /** The sum of the signed amounts of some rows. */
  function SumSigned(rows: seq<TxRecord>): real
  {
    if rows == [] then 0.0 else Signed(rows[0]) + SumSigned(rows[1..])
  }

  /** Adding up the signed amounts on a user's statement gives the replayed balance. */
  lemma {:induction false} StatementSum(log: seq<TxRecord>, u: UserId)
    ensures SumSigned(StatementOf(log, u)) == Replay(log, u)
    decreases |log|
  {
    if log != [] {
      var older := StatementOf(log[..|log| - 1], u);
      StatementSum(log[..|log| - 1], u);
      if log[|log| - 1].userId == u {
        assert ([log[|log| - 1]] + older)[1..] == older;
      }
    }
  }
}
