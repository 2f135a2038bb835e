/** The referral system: `ref_<id>` codes and links, the referral processor that pays
    the two-sided bonus, and the per-referrer statistics. */
module Referral {
  import opened Common
  import opened Database

  const ReferrerBonus: real := 20.0
  const ReferredBonus: real := 15.0

  // ---------------------------------------------------------------- codes and links

  /** `create_user_referral_code`. */
  function CreateUserReferralCode(userId: int): (code: string)
    ensures StartsWith(code, "ref_")
    ensures |code| > 4
  {
    "ref_" + IntToString(userId)
  }

  /** `get_user_referral_link`: the deep link that starts the bot with the code, and the code. */
  function GetUserReferralLink(userId: int, botUsername: string): (r: (string, string))
    ensures r.1 == CreateUserReferralCode(userId)
    ensures StartsWith(r.0, "https://t.me/" + botUsername + "?start=")
    ensures |r.0| >= |r.1| && r.0[|r.0| - |r.1|..] == r.1
  {
    var code := CreateUserReferralCode(userId);
    var prefix := "https://t.me/" + botUsername + "?start=";
    assert (prefix + code)[..|prefix|] == prefix;
    assert (prefix + code)[|prefix|..] == code;
    (prefix + code, code)
  }

  /** The first two checks of `process_referral`: the `ref_` prefix, then `int()` of
      the code with every `ref_` removed. */
  datatype ParsedCode = BadFormat | BadNumber | ReferrerId(id: int)

  function ParseReferralCode(code: string): ParsedCode
  {
    if !StartsWith(code, "ref_") then BadFormat
    else
      match ParseInt(ReplaceAll(code, "ref_"))
      case None => BadNumber
      case Some(n) => ReferrerId(n)
  }

  /** Round trip: the code built for a user parses back to that user's id. */
  lemma ReferralCodeRoundTrip(userId: int)
    ensures ParseReferralCode(CreateUserReferralCode(userId)) == ReferrerId(userId)
  {
    var digits := IntToString(userId);
    ReplaceAllPrefix("ref_", digits);
    ReplaceAllUntouched(digits, "ref_", 0);
    IntRoundTrip(userId);
  }

  /** `replace` removes every `ref_`, not only the prefix: a code that repeats it still
      parses, to the digits run together. */
  lemma ReplaceRemovesEveryOccurrence()
    ensures ParseReferralCode("ref_1ref_2") == ReferrerId(12)
  {
    ReplaceBothOccurrences();
    assert StartsWith("ref_1ref_2", "ref_") by { assert "ref_1ref_2"[..4] == "ref_"; }
    StripNoSpace("12");
    assert "12"[..1] == "1";
    assert DigitsValue("12") == 12;
  }

  /** Both occurrences of `ref_` in `ref_1ref_2` are removed. */
  lemma ReplaceBothOccurrences()
    ensures ReplaceAll("ref_1ref_2", "ref_") == "12"
  {
    var p := "ref_";
    assert "ref_1ref_2" == p + (['1'] + (p + ['2']));
    ReplaceAllPrefix(p, ['1'] + (p + ['2']));
    ReplaceAllKeepsFirst('1', p + ['2'], p);
    ReplaceAllPrefix(p, ['2']);
    ReplaceAllKeepsFirst('2', [], p);
  }

  // ---------------------------------------------------------------- the decision

  datatype ReferralError =
    | InvalidFormat | InvalidCode | SelfReferral | ReferrerNotFound | AlreadyReferred | ProcessingError

  /** The message `process_referral` returns with False. */
  function ErrorMessage(e: ReferralError): string
  {
    match e
    case InvalidFormat => "Invalid referral code format"
    case InvalidCode => "Invalid referral code"
    case SelfReferral => "You cannot refer yourself"
    case ReferrerNotFound => "Referrer not found or inactive"
    case AlreadyReferred => "User already referred by someone else"
    case ProcessingError => "Error processing referral"
  }

  datatype ReferralOutcome = Rejected(error: ReferralError) | Accepted(referrerId: int)

  predicate EligibleReferrer(users: map<int, User>, id: int)
  {
    id in users && users[id].isActive && !users[id].isBanned
  }

  predicate AlreadyReferredUser(referrals: seq<ReferralRecord>, newUserId: int)
  {
    exists i :: 0 <= i < |referrals| && referrals[i].referredId == newUserId
  }

  /** The checks of `process_referral`, in its order, before any write. */
  function ReferralDecision(users: map<int, User>, referrals: seq<ReferralRecord>,
                            code: string, newUserId: int): ReferralOutcome
  {
    match ParseReferralCode(code)
    case BadFormat => Rejected(InvalidFormat)
    case BadNumber => Rejected(InvalidCode)
    case ReferrerId(r) =>
      if r == newUserId then Rejected(SelfReferral)
      else if !EligibleReferrer(users, r) then Rejected(ReferrerNotFound)
      else if AlreadyReferredUser(referrals, newUserId) then Rejected(AlreadyReferred)
      else Accepted(r)
  }

  /** A referral is accepted exactly when the code is `ref_` followed by an integer
      naming an active, unbanned user other than the new one, and nobody has referred
      the new user yet. */
  lemma ReferralAccepted(users: map<int, User>, referrals: seq<ReferralRecord>, code: string,
                         newUserId: int, r: int)
    ensures ReferralDecision(users, referrals, code, newUserId) == Accepted(r)
            <==> && StartsWith(code, "ref_")
                 && ParseInt(ReplaceAll(code, "ref_")) == Some(r)
                 && r != newUserId
                 && EligibleReferrer(users, r)
                 && !AlreadyReferredUser(referrals, newUserId)
  {
  }

  // ---------------------------------------------------------------- the writes

  /** The three tables `process_referral` writes. */
  datatype ReferralTables = ReferralTables(
    users: map<int, User>, transactions: seq<CreditTransaction>, referrals: seq<ReferralRecord>)

  /** The writes of an accepted referral: the referrer's balance and its transaction,
      the referred user's balance and its transaction when that row exists, and the
      claimed referral record. */
  function ApplyReferral(t: ReferralTables, code: string, referrerId: int, newUserId: int,
                         now: int): ReferralTables
    requires referrerId in t.users
  {
    var users1 := t.users[referrerId := t.users[referrerId].(credits := t.users[referrerId].credits + ReferrerBonus)];
    var tx1 := CreditTransaction(referrerId, ReferrerBonus, "referral_bonus",
                                 Some("Referral bonus for referring user " + IntToString(newUserId)), now);
    var record := ReferralRecord(referrerId, newUserId, code, ReferrerBonus, true, now);
    if newUserId in users1 then
      var users2 := users1[newUserId := users1[newUserId].(credits := users1[newUserId].credits + ReferredBonus)];
      var tx2 := CreditTransaction(newUserId, ReferredBonus, "referral_welcome",
                                   Some("Welcome bonus for using referral code " + code), now);
      ReferralTables(users2, t.transactions + [tx1, tx2], t.referrals + [record])
    else
      ReferralTables(users1, t.transactions + [tx1], t.referrals + [record])
  }

  /** What an accepted referral does: +20 to the referrer, +15 to the referred user only
      when that row exists, no other balance touched and no user added, one transaction
      per credited user, and exactly one claimed record worth 20. */
  lemma ReferralEffects(t: ReferralTables, code: string, referrerId: int, newUserId: int, now: int)
    requires referrerId in t.users && referrerId != newUserId
    ensures var t' := ApplyReferral(t, code, referrerId, newUserId, now);
            && t'.users.Keys == t.users.Keys
            && t'.users[referrerId].credits == t.users[referrerId].credits + 20.0
            && (newUserId in t.users ==> t'.users[newUserId].credits == t.users[newUserId].credits + 15.0)
            && (forall u :: u in t.users && u != referrerId && u != newUserId ==> t'.users[u] == t.users[u])
            && |t'.transactions| == |t.transactions| + (if newUserId in t.users then 2 else 1)
            && t'.transactions[..|t.transactions|] == t.transactions
            && t'.referrals == t.referrals + [ReferralRecord(referrerId, newUserId, code, 20.0, true, now)]
  {
  }

  /** An accepted referral keeps the ledger reconciled: each bonus is logged as a
      transaction of the user it is paid to. */
  lemma ReferralKeepsReconciled(t: ReferralTables, code: string, referrerId: int, newUserId: int,
                                now: int)
    requires referrerId in t.users && referrerId != newUserId
    requires Reconciled(t.users, t.transactions)
    ensures var t' := ApplyReferral(t, code, referrerId, newUserId, now);
            Reconciled(t'.users, t'.transactions)
  {
    var tx1 := CreditTransaction(referrerId, ReferrerBonus, "referral_bonus",
                                 Some("Referral bonus for referring user " + IntToString(newUserId)), now);
    CreditAndLogKeepsReconciled(t.users, t.transactions, tx1);
    var users1 := t.users[referrerId := t.users[referrerId].(credits := t.users[referrerId].credits + ReferrerBonus)];
    if newUserId in users1 {
      var tx2 := CreditTransaction(newUserId, ReferredBonus, "referral_welcome",
                                   Some("Welcome bonus for using referral code " + code), now);
      CreditAndLogKeepsReconciled(users1, t.transactions + [tx1], tx2);
      assert t.transactions + [tx1] + [tx2] == t.transactions + [tx1, tx2];
    }
  }

  /** At most once per referred user: after an accepted referral, every later referral of
      the same user, with any code, is refused. */
  lemma ReferredOnlyOnce(t: ReferralTables, code: string, referrerId: int, newUserId: int,
                         now: int, laterCode: string)
    requires referrerId in t.users
    ensures var t' := ApplyReferral(t, code, referrerId, newUserId, now);
            ReferralDecision(t'.users, t'.referrals, laterCode, newUserId).Rejected?
  {
    var t' := ApplyReferral(t, code, referrerId, newUserId, now);
    assert t'.referrals[|t.referrals|].referredId == newUserId;
  }

  /** No limit on referrals: after one accepted referral, the same code is accepted for
      another user who is not yet referred. */
  lemma ReferralsUnlimited(t: ReferralTables, code: string, referrerId: int, newUserId: int,
                           now: int, nextUserId: int)
    requires ReferralDecision(t.users, t.referrals, code, newUserId) == Accepted(referrerId)
    requires nextUserId != newUserId && nextUserId != referrerId
    requires !AlreadyReferredUser(t.referrals, nextUserId)
    ensures var t' := ApplyReferral(t, code, referrerId, newUserId, now);
            ReferralDecision(t'.users, t'.referrals, code, nextUserId) == Accepted(referrerId)
  {
    var t' := ApplyReferral(t, code, referrerId, newUserId, now);
    assert EligibleReferrer(t'.users, referrerId);
    assert forall i :: 0 <= i < |t.referrals| ==> t'.referrals[i] == t.referrals[i];
  }

  /** The reply of `process_referral`: False with a message, or True with the details. */
  datatype ReferralReply =
    | Failure(message: string)
    | Success(referrerId: int, referrerBonus: real, referredBonus: real,
              referrerName: Option<string>, referredName: Option<string>)

  /** `process_referral(referral_code, new_user_id)` on the store, as written: an
      accepted referral whose code a stored record already carries breaks the unique
      constraint at commit, and `storeFails` stands for any other database error there;
      either rolls everything back. */
  method ProcessReferral(db: BotDb, referralCode: string, newUserId: int, now: int, storeFails: bool)
    returns (reply: ReferralReply)
    requires db.Valid()
    modifies db`users, db`transactions, db`referrals
    ensures db.Valid()
    ensures var d := ReferralDecisionAsWritten(old(db.users), old(db.referrals), referralCode, newUserId);
            var t := ReferralTables(old(db.users), old(db.transactions), old(db.referrals));
            if d.Rejected? || storeFails then
              && reply == Failure(ErrorMessage(if d.Rejected? then d.error else ProcessingError))
              && db.users == old(db.users) && db.transactions == old(db.transactions)
              && db.referrals == old(db.referrals)
            else
              && reply == Success(d.referrerId, 20.0, 15.0, old(db.users)[d.referrerId].firstName,
                                  if newUserId in old(db.users) then old(db.users)[newUserId].firstName
                                  else Some("Unknown"))
              && ReferralTables(db.users, db.transactions, db.referrals)
                 == ApplyReferral(t, referralCode, d.referrerId, newUserId, now)
  {
    if !StartsWith(referralCode, "ref_") {
      return Failure("Invalid referral code format");
    }
    var parsed := ParseInt(ReplaceAll(referralCode, "ref_"));
    if parsed.None? {
      return Failure("Invalid referral code");
    }
    var referrerId := parsed.value;
    if referrerId == newUserId {
      return Failure("You cannot refer yourself");
    }
    if !(referrerId in db.users && db.users[referrerId].isActive && !db.users[referrerId].isBanned) {
      return Failure("Referrer not found or inactive");
    }
    if AlreadyReferredUser(db.referrals, newUserId) {
      return Failure("User already referred by someone else");
    }

    assert ReferralDecision(db.users, db.referrals, referralCode, newUserId) == Accepted(referrerId);
    reply := CommitReferral(db, referralCode, referrerId, newUserId, now, storeFails);
  }

  /** The writes of an accepted referral, staged in the session and committed together;
      the commit fails on a `referral_code` already stored or on `storeFails`, and a
      failed commit rolls all of them back. */
  method CommitReferral(db: BotDb, referralCode: string, referrerId: int, newUserId: int, now: int,
                        storeFails: bool)
    returns (reply: ReferralReply)
    requires referrerId in db.users
    requires db.Valid()
    modifies db`users, db`transactions, db`referrals
    ensures db.Valid()
    ensures var t := ReferralTables(old(db.users), old(db.transactions), old(db.referrals));
            if storeFails || CodeTaken(old(db.referrals), referralCode) then
              && reply == Failure(ErrorMessage(ProcessingError))
              && db.users == old(db.users) && db.transactions == old(db.transactions)
              && db.referrals == old(db.referrals)
            else
              && reply == Success(referrerId, 20.0, 15.0, old(db.users)[referrerId].firstName,
                                  if newUserId in old(db.users) then old(db.users)[newUserId].firstName
                                  else Some("Unknown"))
              && ReferralTables(db.users, db.transactions, db.referrals)
                 == ApplyReferral(t, referralCode, referrerId, newUserId, now)
  {
    ghost var t := ReferralTables(db.users, db.transactions, db.referrals);
    // the session's pending writes, flushed together at commit
    var users := db.users;
    var transactions := db.transactions;
    var referrer := users[referrerId];
    referrer := referrer.(credits := referrer.credits + ReferrerBonus);
    users := users[referrerId := referrer];
    transactions := transactions + [CreditTransaction(referrerId, ReferrerBonus, "referral_bonus",
                                                      Some("Referral bonus for referring user " + IntToString(newUserId)), now)];
    var referredName := Some("Unknown");
    if newUserId in users {
      var referred := users[newUserId];
      referred := referred.(credits := referred.credits + ReferredBonus);
      users := users[newUserId := referred];
      transactions := transactions + [CreditTransaction(newUserId, ReferredBonus, "referral_welcome",
                                                        Some("Welcome bonus for using referral code " + referralCode), now)];
      referredName := referred.firstName;
    }
    var referrals := db.referrals + [ReferralRecord(referrerId, newUserId, referralCode, ReferrerBonus, true, now)];
    assert ReferralTables(users, transactions, referrals) == ApplyReferral(t, referralCode, referrerId, newUserId, now);

    if storeFails || CodeTaken(db.referrals, referralCode) {
      return Failure("Error processing referral");
    }
    db.users, db.transactions, db.referrals := users, transactions, referrals;
    reply := Success(referrerId, ReferrerBonus, ReferredBonus, referrer.firstName, referredName);
  }

  // ---------------------------------------------------------------- the unique referral code

  /** Whether a stored record already carries this `referral_code`; the column is
      declared unique. */
  predicate CodeTaken(referrals: seq<ReferralRecord>, code: string)
  {
    exists i :: 0 <= i < |referrals| && referrals[i].referralCode == code
  }

  /** The outcome of `process_referral` as written: the record it inserts carries the
      shared `ref_<referrer>` code, so when that referrer already has a record the
      commit violates the unique constraint and the referral is rolled back. */
  function ReferralDecisionAsWritten(users: map<int, User>, referrals: seq<ReferralRecord>,
                                     code: string, newUserId: int): (d: ReferralOutcome)
    ensures d.Accepted? ==> d == ReferralDecision(users, referrals, code, newUserId)
    ensures d.Accepted? ==> !CodeTaken(referrals, code)
    ensures ReferralDecision(users, referrals, code, newUserId).Accepted? && !CodeTaken(referrals, code)
            ==> d == ReferralDecision(users, referrals, code, newUserId)
    ensures ReferralDecision(users, referrals, code, newUserId).Rejected?
            ==> d == ReferralDecision(users, referrals, code, newUserId)
    ensures d == Rejected(ProcessingError) || d == ReferralDecision(users, referrals, code, newUserId)
  {
    var d := ReferralDecision(users, referrals, code, newUserId);
    if d.Accepted? && CodeTaken(referrals, code) then Rejected(ProcessingError) else d
  }

  /** As written, a referrer can refer only once: after one accepted referral, the same
      code for a second new user fails with "Error processing referral". */
  lemma SecondReferralFailsAsWritten(t: ReferralTables, code: string, referrerId: int,
                                     newUserId: int, now: int, nextUserId: int)
    requires ReferralDecision(t.users, t.referrals, code, newUserId) == Accepted(referrerId)
    requires nextUserId != newUserId && nextUserId != referrerId
    requires !AlreadyReferredUser(t.referrals, nextUserId)
    ensures var t' := ApplyReferral(t, code, referrerId, newUserId, now);
            && ReferralDecision(t'.users, t'.referrals, code, nextUserId) == Accepted(referrerId)
            && ReferralDecisionAsWritten(t'.users, t'.referrals, code, nextUserId) == Rejected(ProcessingError)
  {
    ReferralsUnlimited(t, code, referrerId, newUserId, now, nextUserId);
    var t' := ApplyReferral(t, code, referrerId, newUserId, now);
    assert t'.referrals[|t.referrals|].referralCode == code;
  }

  /** A concrete instance: user 1 refers user 2, which the code as written accepts, and
      then user 3 with the same code, which it rejects. */
  lemma SecondReferralExample()
    ensures var users := map[1 := NewUser(1, 0), 2 := NewUser(2, 0), 3 := NewUser(3, 0)];
            var t' := ApplyReferral(ReferralTables(users, [], []), "ref_1", 1, 2, 0);
            && ReferralDecision(users, [], "ref_1", 2) == Accepted(1)
            && ReferralDecisionAsWritten(users, [], "ref_1", 2) == Accepted(1)
            && ReferralDecisionAsWritten(t'.users, t'.referrals, "ref_1", 3) == Rejected(ProcessingError)
  {
    var users := map[1 := NewUser(1, 0), 2 := NewUser(2, 0), 3 := NewUser(3, 0)];
    ReferralCodeRoundTrip(1);
    assert CreateUserReferralCode(1) == "ref_1";
    assert ReferralDecision(users, [], "ref_1", 2) == Accepted(1);
    SecondReferralFailsAsWritten(ReferralTables(users, [], []), "ref_1", 1, 2, 0, 3);
  }

  // ---------------------------------------------------------------- statistics

  /** The claimed records of a referrer, in insertion order. */
  function ClaimedBy(referrals: seq<ReferralRecord>, referrerId: int): (r: seq<ReferralRecord>)
    ensures |r| <= |referrals|
    ensures forall i :: 0 <= i < |r| ==> r[i].referrerId == referrerId && r[i].isClaimed
    ensures forall i :: 0 <= i < |referrals| && referrals[i].referrerId == referrerId && referrals[i].isClaimed
                        ==> referrals[i] in r
    ensures forall x :: x in r ==> x in referrals
    decreases |referrals|
  {
    if |referrals| == 0 then []
    else
      var last := referrals[|referrals| - 1];
      ClaimedBy(referrals[..|referrals| - 1], referrerId)
      + (if last.referrerId == referrerId && last.isClaimed then [last] else [])
  }

  /** The filter keeps the order of the log: filtering two stretches of records one
      after the other gives the filter of both. */
  lemma {:induction false} ClaimedByConcat(a: seq<ReferralRecord>, b: seq<ReferralRecord>, referrerId: int)
    ensures ClaimedBy(a + b, referrerId) == ClaimedBy(a, referrerId) + ClaimedBy(b, referrerId)
    decreases |b|
  {
    if |b| == 0 {
      assert a + b == a;
    } else {
      var b' := b[..|b| - 1];
      var last := b[|b| - 1];
      assert (a + b)[..|a + b| - 1] == a + b';
      assert (a + b)[|a + b| - 1] == last;
      ClaimedByConcat(a, b', referrerId);
      var keep := if last.referrerId == referrerId && last.isClaimed then [last] else [];
      assert ClaimedBy(a + b, referrerId) == ClaimedBy(a + b', referrerId) + keep;
      assert ClaimedBy(b, referrerId) == ClaimedBy(b', referrerId) + keep;
    }
  }

  /** One record is kept exactly when it is a claimed record of this referrer. */
  lemma ClaimedBySingleton(x: ReferralRecord, referrerId: int)
    ensures ClaimedBy([x], referrerId) == if x.referrerId == referrerId && x.isClaimed then [x] else []
  {
    assert [x][..0] == [];
  }

  function CreditsEarned(records: seq<ReferralRecord>): real
    decreases |records|
  {
    if |records| == 0 then 0.0 else CreditsEarned(records[..|records| - 1]) + records[|records| - 1].creditsEarned
  }

  datatype ReferredUser = ReferredUser(name: string, joinedAt: int, creditsEarned: real)

  datatype ReferralStats = ReferralStats(
    userReferralCode: string, successfulReferrals: nat, totalReferralCredits: real,
    referredUsers: seq<ReferredUser>)

  /** The name listed for a referred user: `first_name or 'Unknown'`, so a missing or
      empty name both read "Unknown". */
  function DisplayName(u: User): (name: string)
    ensures name != ""
    ensures u.firstName.Some? && u.firstName.value != "" ==> name == u.firstName.value
  {
    if u.firstName.Some? && u.firstName.value != "" then u.firstName.value else "Unknown"
  }

  /** The entries listed for some records: one per record whose referred user exists. */
  function Listed(users: map<int, User>, records: seq<ReferralRecord>): (r: seq<ReferredUser>)
    ensures |r| <= |records|
    ensures forall i :: 0 <= i < |r| ==> r[i].name != ""
    ensures (forall i :: 0 <= i < |records| ==> records[i].referredId in users) ==>
              |r| == |records|
              && forall i :: 0 <= i < |r| ==>
                   r[i] == ReferredUser(DisplayName(users[records[i].referredId]), records[i].createdAt,
                                        records[i].creditsEarned)
    decreases |records|
  {
    if |records| == 0 then []
    else
      var rec := records[|records| - 1];
      Listed(users, records[..|records| - 1])
      + (if rec.referredId in users
         then [ReferredUser(DisplayName(users[rec.referredId]), rec.createdAt, rec.creditsEarned)]
         else [])
  }

  /** The five most recent claimed records, newest first; `created_at` follows insertion. */
  function RecentClaimed(referrals: seq<ReferralRecord>, referrerId: int): (r: seq<ReferralRecord>)
    ensures var c := ClaimedBy(referrals, referrerId);
            && |r| == (if |c| <= 5 then |c| else 5)
            && forall i :: 0 <= i < |r| ==> r[i] == c[|c| - 1 - i]
    ensures forall i :: 0 <= i < |r| ==> r[i].referrerId == referrerId && r[i].isClaimed
  {
    Take(Reverse(ClaimedBy(referrals, referrerId)), 5)
  }

  /** `get_user_referral_stats`: the count and the credit sum of the claimed records of
      this referrer, and the referred users of the five newest of them. `queryFails`
      stands for a database error in any of its queries, after which it reports zeros. */
  method GetUserReferralStats(db: BotDb, userId: int, queryFails: bool) returns (stats: ReferralStats)
    ensures stats.userReferralCode == CreateUserReferralCode(userId)
    ensures queryFails ==> stats == ReferralStats(CreateUserReferralCode(userId), 0, 0.0, [])
    ensures !queryFails ==> stats.successfulReferrals == |ClaimedBy(db.referrals, userId)|
    ensures !queryFails ==> stats.totalReferralCredits == CreditsEarned(ClaimedBy(db.referrals, userId))
    ensures !queryFails ==> stats.referredUsers == Listed(db.users, RecentClaimed(db.referrals, userId))
    ensures |stats.referredUsers| <= 5
  {
    if queryFails {
      return ReferralStats(CreateUserReferralCode(userId), 0, 0.0, []);
    }
    var claimed := ClaimedBy(db.referrals, userId);
    var recent := RecentClaimed(db.referrals, userId);
    var referredUsers: seq<ReferredUser> := [];
    for i := 0 to |recent|
      invariant referredUsers == Listed(db.users, recent[..i])
    {
      assert recent[..i + 1][..i] == recent[..i];
      var ref := recent[i];
      if ref.referredId in db.users {
        var name := DisplayName(db.users[ref.referredId]);
        referredUsers := referredUsers + [ReferredUser(name, ref.createdAt, ref.creditsEarned)];
      }
    }
    assert recent[..|recent|] == recent;
    stats := ReferralStats(CreateUserReferralCode(userId), |claimed|, CreditsEarned(claimed), referredUsers);
  }
}
