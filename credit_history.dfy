/** The separate credit-history database (credit_history.db): an append-only log of
    history entries and one rolling summary row per user, which `log_credit_history`
    upserts and updates field by field before committing both together. */
module CreditHistory {
  import opened Common

  /** A row of `credit_history`. The balances are whatever the caller passes. */
  datatype HistoryEntry = HistoryEntry(
    userId: int,
    amount: real,
    transactionType: string,
    source: string,
    description: string,
    transactionId: Option<string>,
    referenceId: Option<string>,
    balanceBefore: real,
    balanceAfter: real,
    timestamp: int)

  /** A row of `user_credit_summary`; each bucket is one `earned_*` column. */
  datatype Summary = Summary(
    userId: int,
    totalEarned: real,
    totalSpent: real,
    currentBalance: real,
    totalTransactions: nat,
    firstTransaction: Option<int>,
    lastTransaction: Option<int>,
    earnedWelcome: real,
    earnedReferral: real,
    earnedLinks: real,
    earnedPurchase: real,
    earnedAdmin: real,
    spentTts: real,
    updatedAt: int)

  /** The five earned buckets of a summary row. */
  datatype Bucket = Welcome | Referral | Links | Purchase | Admin

  /** Which earned bucket a positive amount from `source` is added to, if any. */
  function BucketOf(source: string): Option<Bucket>
  {
    if source == "welcome_bonus" then Some(Welcome)
    else if source == "referral_bonus" then Some(Referral)
    else if source == "free_link" then Some(Links)
    else if source == "payment" then Some(Purchase)
    else if source == "admin" then Some(Admin)
    else None
  }

  function BucketValue(s: Summary, b: Bucket): real
  {
    match b
    case Welcome => s.earnedWelcome
    case Referral => s.earnedReferral
    case Links => s.earnedLinks
    case Purchase => s.earnedPurchase
    case Admin => s.earnedAdmin
  }

  function EarnedBuckets(s: Summary): real
  {
    s.earnedWelcome + s.earnedReferral + s.earnedLinks + s.earnedPurchase + s.earnedAdmin
  }

  /** The summary row created for a user's first entry: zero totals, and
      `first_transaction` set to the time of creation. */
  function NewSummary(userId: int, now: int): (s: Summary)
    ensures s.totalTransactions == 0 && s.firstTransaction == Some(now)
    ensures s.totalEarned == 0.0 && s.totalSpent == 0.0 && EarnedBuckets(s) == 0.0 && s.spentTts == 0.0
  {
    Summary(userId, 0.0, 0.0, 0.0, 0, Some(now), None, 0.0, 0.0, 0.0, 0.0, 0.0, 0.0, now)
  }

  /** The update `log_credit_history` makes to a summary row for one entry. */
  function ApplyEntry(s: Summary, e: HistoryEntry): (r: Summary)
    ensures r.userId == s.userId
    ensures r.totalTransactions == s.totalTransactions + 1
    ensures r.currentBalance == e.balanceAfter
    ensures r.firstTransaction == s.firstTransaction
    ensures r.lastTransaction == Some(e.timestamp)
    // a credit adds to the earned total and to at most one bucket, chosen by the source
    ensures e.amount > 0.0 ==>
              && r.totalEarned == s.totalEarned + e.amount
              && r.totalSpent == s.totalSpent && r.spentTts == s.spentTts
              && (forall b :: BucketValue(r, b)
                              == BucketValue(s, b) + (if BucketOf(e.source) == Some(b) then e.amount else 0.0))
    // anything else, zero included, is spending and touches no earned field
    ensures e.amount <= 0.0 ==>
              && r.totalSpent == s.totalSpent + Abs(e.amount)
              && r.spentTts == s.spentTts + (if e.source == "tts_usage" then Abs(e.amount) else 0.0)
              && r.totalEarned == s.totalEarned
              && (forall b :: BucketValue(r, b) == BucketValue(s, b))
  {
    var s := s.(totalTransactions := s.totalTransactions + 1,
                currentBalance := e.balanceAfter,
                lastTransaction := Some(e.timestamp),
                updatedAt := e.timestamp);
    if e.amount > 0.0 then
      var s := s.(totalEarned := s.totalEarned + e.amount);
      match BucketOf(e.source)
      case Some(Welcome) => s.(earnedWelcome := s.earnedWelcome + e.amount)
      case Some(Referral) => s.(earnedReferral := s.earnedReferral + e.amount)
      case Some(Links) => s.(earnedLinks := s.earnedLinks + e.amount)
      case Some(Purchase) => s.(earnedPurchase := s.earnedPurchase + e.amount)
      case Some(Admin) => s.(earnedAdmin := s.earnedAdmin + e.amount)
      case None => s
    else
      var s := s.(totalSpent := s.totalSpent + Abs(e.amount));
      if e.source == "tts_usage" then s.(spentTts := s.spentTts + Abs(e.amount)) else s
  }

  // ---------------------------------------------------------------- folds over the log

  /** The summary row of `userId` recomputed from the log: the fold of `ApplyEntry` over
      that user's entries, starting from the row created at the first one. */
  function SummaryOf(log: seq<HistoryEntry>, userId: int): Option<Summary>
    decreases |log|
  {
    if |log| == 0 then None
    else
      var prev := SummaryOf(log[..|log| - 1], userId);
      var e := log[|log| - 1];
      if e.userId != userId then prev
      else Some(ApplyEntry(if prev.Some? then prev.value else NewSummary(userId, e.timestamp), e))
  }

  function CountFor(log: seq<HistoryEntry>, userId: int): nat
    decreases |log|
  {
    if |log| == 0 then 0
    else CountFor(log[..|log| - 1], userId) + (if log[|log| - 1].userId == userId then 1 else 0)
  }

  /** The sum of the positive amounts logged for a user. */
  function EarnedFor(log: seq<HistoryEntry>, userId: int): real
    decreases |log|
  {
    if |log| == 0 then 0.0
    else
      var e := log[|log| - 1];
      EarnedFor(log[..|log| - 1], userId) + (if e.userId == userId && e.amount > 0.0 then e.amount else 0.0)
  }

  /** The sum of the absolute values of the non-positive amounts logged for a user. */
  function SpentFor(log: seq<HistoryEntry>, userId: int): real
    decreases |log|
  {
    if |log| == 0 then 0.0
    else
      var e := log[|log| - 1];
      SpentFor(log[..|log| - 1], userId) + (if e.userId == userId && e.amount <= 0.0 then -e.amount else 0.0)
  }

  /** The time of a user's first entry, if any. */
  function FirstTimeFor(log: seq<HistoryEntry>, userId: int): Option<int>
    decreases |log|
  {
    if |log| == 0 then None
    else
      var prev := FirstTimeFor(log[..|log| - 1], userId);
      if prev.None? && log[|log| - 1].userId == userId then Some(log[|log| - 1].timestamp) else prev
  }

  /** The balance after the last entry of a user, or `opening` when there is none. */
  function LastBalanceFor(log: seq<HistoryEntry>, userId: int, opening: real): real
    decreases |log|
  {
    if |log| == 0 then opening
    else if log[|log| - 1].userId == userId then log[|log| - 1].balanceAfter
    else LastBalanceFor(log[..|log| - 1], userId, opening)
  }

  /** A summary row whose buckets are non-negative and bounded by its totals keeps
      those bounds after one more entry. */
  lemma ApplyEntryKeepsBounds(prev: Summary, e: HistoryEntry)
    requires forall b :: BucketValue(prev, b) >= 0.0
    requires EarnedBuckets(prev) <= prev.totalEarned && 0.0 <= prev.spentTts <= prev.totalSpent
    ensures var s := ApplyEntry(prev, e);
            && (forall b :: BucketValue(s, b) >= 0.0)
            && EarnedBuckets(s) <= s.totalEarned && 0.0 <= s.spentTts <= s.totalSpent
  {
    var s := ApplyEntry(prev, e);
    if e.amount > 0.0 {
      assert EarnedBuckets(s) == EarnedBuckets(prev) + (if BucketOf(e.source).Some? then e.amount else 0.0) by {
        assert BucketValue(s, Welcome) == BucketValue(prev, Welcome) + (if BucketOf(e.source) == Some(Welcome) then e.amount else 0.0);
        assert BucketValue(s, Referral) == BucketValue(prev, Referral) + (if BucketOf(e.source) == Some(Referral) then e.amount else 0.0);
        assert BucketValue(s, Links) == BucketValue(prev, Links) + (if BucketOf(e.source) == Some(Links) then e.amount else 0.0);
        assert BucketValue(s, Purchase) == BucketValue(prev, Purchase) + (if BucketOf(e.source) == Some(Purchase) then e.amount else 0.0);
        assert BucketValue(s, Admin) == BucketValue(prev, Admin) + (if BucketOf(e.source) == Some(Admin) then e.amount else 0.0);
      }
    } else {
      assert EarnedBuckets(s) == EarnedBuckets(prev) by {
        assert BucketValue(s, Welcome) == BucketValue(prev, Welcome);
        assert BucketValue(s, Referral) == BucketValue(prev, Referral);
        assert BucketValue(s, Links) == BucketValue(prev, Links);
        assert BucketValue(s, Purchase) == BucketValue(prev, Purchase);
        assert BucketValue(s, Admin) == BucketValue(prev, Admin);
      }
    }
  }

  /** The fold invariant: the summary recomputed from the log exists exactly when the
      user has entries, counts them, carries the balance of the last one and the time of
      the first one, has `total_earned` equal to the sum of the positive amounts and
      `total_spent` to the sum of the others, and its totals bound its buckets. */
  lemma {:induction false} SummaryOfTotals(log: seq<HistoryEntry>, userId: int)
    ensures SummaryOf(log, userId).Some? <==> CountFor(log, userId) > 0
    ensures CountFor(log, userId) == 0 ==>
              FirstTimeFor(log, userId) == None && EarnedFor(log, userId) == 0.0 && SpentFor(log, userId) == 0.0
    ensures SummaryOf(log, userId).Some? ==>
              var s := SummaryOf(log, userId).value;
              && s.userId == userId
              && s.totalTransactions == CountFor(log, userId)
              && s.currentBalance == LastBalanceFor(log, userId, 0.0)
              && s.firstTransaction == FirstTimeFor(log, userId) && s.firstTransaction.Some?
              && s.totalEarned == EarnedFor(log, userId)
              && s.totalSpent == SpentFor(log, userId)
              && (forall b :: BucketValue(s, b) >= 0.0)
              && EarnedBuckets(s) <= s.totalEarned
              && 0.0 <= s.spentTts <= s.totalSpent
    decreases |log|
  {
    if |log| > 0 {
      var init := log[..|log| - 1];
      SummaryOfTotals(init, userId);
      var e := log[|log| - 1];
      if e.userId == userId {
        var prev := if SummaryOf(init, userId).Some? then SummaryOf(init, userId).value
                    else NewSummary(userId, e.timestamp);
        assert FirstTimeFor(log, userId) == prev.firstTransaction;
        assert forall b :: BucketValue(NewSummary(userId, e.timestamp), b) == 0.0;
        ApplyEntryKeepsBounds(prev, e);
      }
    }
  }

  /** What callers of `log_credit_history` must do themselves, since it never checks: each
      entry of the user starts from the balance the previous one ended with (or from
      `opening`) and ends at its start plus its amount. */
  ghost predicate Chained(log: seq<HistoryEntry>, userId: int, opening: real)
    decreases |log|
  {
    |log| == 0 ||
    (Chained(log[..|log| - 1], userId, opening) &&
     var e := log[|log| - 1];
     e.userId == userId ==>
       e.balanceBefore == LastBalanceFor(log[..|log| - 1], userId, opening)
       && e.balanceAfter == e.balanceBefore + e.amount)
  }

  /** When callers keep the chain, the summary's current balance is the opening balance
      plus everything earned minus everything spent. Without the chain the summary only
      echoes the last `balance_after` passed in. */
  lemma {:induction false} ChainedBalance(log: seq<HistoryEntry>, userId: int, opening: real)
    requires Chained(log, userId, opening)
    ensures LastBalanceFor(log, userId, opening) == opening + EarnedFor(log, userId) - SpentFor(log, userId)
    decreases |log|
  {
    if |log| > 0 {
      ChainedBalance(log[..|log| - 1], userId, opening);
    }
  }

  /** The summary row sees only the balance it is told: one entry with an arbitrary
      `balance_after` is stored as the current balance whatever the amount was. */
  lemma UnchainedEntryIsStored(e: HistoryEntry)
    requires e.balanceAfter != e.balanceBefore + e.amount
    ensures SummaryOf([e], e.userId).Some?
    ensures SummaryOf([e], e.userId).value.currentBalance == e.balanceAfter
    ensures !Chained([e], e.userId, e.balanceBefore)
  {
    assert [e][..0] == [];
  }

  // ---------------------------------------------------------------- the store

  function Lookup(summaries: map<int, Summary>, userId: int): Option<Summary>
  {
    if userId in summaries then Some(summaries[userId]) else None
  }

  /** Whether an entry's `transaction_id` is already used; the column is unique and
      nullable, so only a present id can collide. */
  predicate TransactionIdTaken(log: seq<HistoryEntry>, transactionId: Option<string>)
  {
    transactionId.Some? && exists i :: 0 <= i < |log| && log[i].transactionId == transactionId
  }

  /** Appending an entry to the log and applying it to its user's row keeps every row
      equal to the fold of the log. */
  lemma AppendKeepsFold(log: seq<HistoryEntry>, summaries: map<int, Summary>, e: HistoryEntry)
    requires forall u :: Lookup(summaries, u) == SummaryOf(log, u)
    ensures var base := if e.userId in summaries then summaries[e.userId] else NewSummary(e.userId, e.timestamp);
            forall u :: Lookup(summaries[e.userId := ApplyEntry(base, e)], u) == SummaryOf(log + [e], u)
  {
    assert (log + [e])[..|log|] == log;
  }

  /** The field-by-field update `log_credit_history` makes to a summary row, in its
      order: the counters and the balance, then one earned bucket or the spending. */
  method UpdateSummary(summary: Summary, e: HistoryEntry) returns (s: Summary)
    ensures s == ApplyEntry(summary, e)
  {
    s := summary;
    s := s.(totalTransactions := s.totalTransactions + 1);
    s := s.(currentBalance := e.balanceAfter);
    s := s.(lastTransaction := Some(e.timestamp));
    s := s.(updatedAt := e.timestamp);

    if e.amount > 0.0 {
      s := s.(totalEarned := s.totalEarned + e.amount);
      if e.source == "welcome_bonus" {
        s := s.(earnedWelcome := s.earnedWelcome + e.amount);
      } else if e.source == "referral_bonus" {
        s := s.(earnedReferral := s.earnedReferral + e.amount);
      } else if e.source == "free_link" {
        s := s.(earnedLinks := s.earnedLinks + e.amount);
      } else if e.source == "payment" {
        s := s.(earnedPurchase := s.earnedPurchase + e.amount);
      } else if e.source == "admin" {
        s := s.(earnedAdmin := s.earnedAdmin + e.amount);
      }
    } else {
      s := s.(totalSpent := s.totalSpent + Abs(e.amount));
      if e.source == "tts_usage" {
        s := s.(spentTts := s.spentTts + Abs(e.amount));
      }
    }
  }

  /** One `log_credit_history` call as written, on the log and the summary table: a user
      without a row gets nothing stored, and otherwise the entry and the row update are
      stored together or not at all. */
  function LogStepAsWritten(log: seq<HistoryEntry>, summaries: map<int, Summary>, e: HistoryEntry,
                            storeFails: bool): (r: (seq<HistoryEntry>, map<int, Summary>))
    ensures e.userId !in summaries ==> r == (log, summaries)
    ensures r.0 == log || r.0 == log + [e]
    ensures r.0 == log ==> r.1 == summaries
    ensures r.0 != log ==> e.userId in summaries && r.1 == summaries[e.userId := ApplyEntry(summaries[e.userId], e)]
    ensures r.0 != log <==> e.userId in summaries && !storeFails && !TransactionIdTaken(log, e.transactionId)
  {
    if e.userId !in summaries || storeFails || TransactionIdTaken(log, e.transactionId) then (log, summaries)
    else (log + [e], summaries[e.userId := ApplyEntry(summaries[e.userId], e)])
  }

  /** A run of `log_credit_history` calls as written, each with its entry and its
      `storeFails`. */
  function RunAsWritten(log: seq<HistoryEntry>, summaries: map<int, Summary>,
                        calls: seq<(HistoryEntry, bool)>): (seq<HistoryEntry>, map<int, Summary>)
    decreases |calls|
  {
    if |calls| == 0 then (log, summaries)
    else
      var prev := RunAsWritten(log, summaries, calls[..|calls| - 1]);
      LogStepAsWritten(prev.0, prev.1, calls[|calls| - 1].0, calls[|calls| - 1].1)
  }

  /** As written, a store whose summary table is empty, as it is when created, stays
      unchanged whatever calls follow: no entry is ever logged and no row created. */
  lemma {:induction false} AsWrittenNeverLogs(log: seq<HistoryEntry>, calls: seq<(HistoryEntry, bool)>)
    ensures RunAsWritten(log, map[], calls) == (log, map[])
    decreases |calls|
  {
    if |calls| > 0 {
      AsWrittenNeverLogs(log, calls[..|calls| - 1]);
    }
  }

  /** A concrete instance: the first credit of user 1 into a new store is dropped, while
      the zero-started row would record it. */
  lemma FirstEntryDroppedAsWritten(e: HistoryEntry)
    requires e.amount > 0.0
    ensures LogStepAsWritten([], map[], e, false) == ([], map[])
    ensures SummaryOf([e], e.userId).Some?
    ensures SummaryOf([e], e.userId).value.totalTransactions == 1
    ensures SummaryOf([e], e.userId).value.totalEarned == e.amount
  {
    assert [e][..0] == [];
  }

  class CreditHistoryDb {
    var history: seq<HistoryEntry>
    var summaries: map<int, Summary>

    /** Every stored summary row is the fold of the log for its user, and there is a row
        exactly for the users with entries. */
    ghost predicate Valid()
      reads this
    {
      forall u :: Lookup(summaries, u) == SummaryOf(history, u)
    }

    constructor ()
      ensures Valid() && history == [] && summaries == map[]
    {
      history, summaries := [], map[];
    }

    /** `log_credit_history` as written. The summary row it creates for a user without one
        carries only `user_id` and `first_transaction`: the zero column defaults apply at
        insert, and no flush happens before `total_transactions += 1`, which then fails on
        `None`. So the call is rolled back for every user without a row, and otherwise
        its entry and summary update are committed together; the commit fails, and
        everything is rolled back, on a `transaction_id` already used or on `storeFails`,
        which stands for any other database error. */
    method LogCreditHistory(userId: int, amount: real, transactionType: string, source: string,
                            description: string, transactionId: Option<string>,
                            referenceId: Option<string>, balanceBefore: real, balanceAfter: real,
                            now: int, storeFails: bool)
      requires Valid()
      modifies this
      ensures Valid()
      ensures var e := HistoryEntry(userId, amount, transactionType, source, description,
                                    transactionId, referenceId, balanceBefore, balanceAfter, now);
              (history, summaries) == LogStepAsWritten(old(history), old(summaries), e, storeFails)
    {
      var entry := HistoryEntry(userId, amount, transactionType, source, description,
                                transactionId, referenceId, balanceBefore, balanceAfter, now);
      if userId !in summaries {
        // the fresh row's `total_transactions` is still None: the increment raises
        return;
      }
      var summary := UpdateSummary(summaries[userId], entry);
      if storeFails || TransactionIdTaken(history, transactionId) {
        return;
      }
      AppendKeepsFold(history, summaries, entry);
      history := history + [entry];
      summaries := summaries[userId := summary];
    }

    /** `log_credit_history` with the new row's totals started at zero, as its column
        defaults intend: every entry that commits is stored, and its user's row becomes
        the fold of the log. */
    method LogCreditHistoryZeroed(userId: int, amount: real, transactionType: string, source: string,
                                  description: string, transactionId: Option<string>,
                                  referenceId: Option<string>, balanceBefore: real, balanceAfter: real,
                                  now: int, storeFails: bool)
      requires Valid()
      modifies this
      ensures Valid()
      ensures var e := HistoryEntry(userId, amount, transactionType, source, description,
                                    transactionId, referenceId, balanceBefore, balanceAfter, now);
              if storeFails || TransactionIdTaken(old(history), transactionId) then
                history == old(history) && summaries == old(summaries)
              else
                && history == old(history) + [e]
                && summaries == old(summaries)[userId :=
                     ApplyEntry(if userId in old(summaries) then old(summaries)[userId]
                                else NewSummary(userId, now), e)]
    {
      var entry := HistoryEntry(userId, amount, transactionType, source, description,
                                transactionId, referenceId, balanceBefore, balanceAfter, now);
      var summary: Summary;
      if userId in summaries {
        summary := summaries[userId];
      } else {
        summary := NewSummary(userId, now);
      }
      summary := UpdateSummary(summary, entry);

      // commit: a unique-constraint violation or a store error rolls everything back
      if storeFails || TransactionIdTaken(history, transactionId) {
        return;
      }
      AppendKeepsFold(history, summaries, entry);
      history := history + [entry];
      summaries := summaries[userId := summary];
    }

    /** `get_user_credit_summary`. */
    function GetUserCreditSummary(userId: int): (r: Option<Summary>)
      reads this
      requires Valid()
      ensures r == SummaryOf(history, userId)
      ensures r.Some? ==> r.value.totalTransactions == CountFor(history, userId)
                          && r.value.totalEarned == EarnedFor(history, userId)
    {
      SummaryOfTotals(history, userId);
      Lookup(summaries, userId)
    }
  }
}
