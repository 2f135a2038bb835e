/** The credit-bearing branches of the bot's Telegram handlers: user lookup, the
    transaction logger, `/start` with a claim token or a referral code, payment
    confirmation and cancellation, the TTS debit, the owner's credit grants, the
    settings inputs and the two-step payment request. Each conversation step is guarded
    by the state the user was left in, kept in the global `user_states` dictionary. */
module Handlers {
  import opened Common
  import opened Database
  import Referral
  import FreeCredit

  // ---------------------------------------------------------------- conversation state

  /** The owner settings whose input the state machine validates. */
  datatype SettingField = WelcomeCredit | TtsChargeSetting | EarnCredit | MinPayment | MaxPayment | PaymentRate

  /** An entry of `user_states`: the states whose handlers are modelled, with the data
      the dictionary form carries; every other state is `OtherState` with its code. */
  datatype ConvState =
    | WaitingTtsText(voice: Option<string>, lang: Option<string>)
    | WaitingGiveCreditUserId
    | WaitingGiveCreditAmount(targetUser: int)
    | WaitingGiveCreditAllAmount
    | WaitingSetting(field: SettingField)
    | WaitingPaymentAmount
    | WaitingTransactionId(amount: real, credits: int)
    | OtherState(code: int)

  /** The `UserState` code of a conversation state. */
  function StateCode(s: ConvState): int
  {
    match s
    case WaitingTtsText(_, _) => 1
    case WaitingGiveCreditUserId => 3
    case WaitingGiveCreditAmount(_) => 4
    case WaitingGiveCreditAllAmount => 5
    case WaitingSetting(f) =>
      (match f
       case WelcomeCredit => 10 case TtsChargeSetting => 11 case EarnCredit => 12
       case MinPayment => 19 case MaxPayment => 20 case PaymentRate => 21)
    case WaitingPaymentAmount => 17
    case WaitingTransactionId(_, _) => 18
    case OtherState(c) => c
  }

  /** The global `user_states` dictionary. */
  class Conversations {
    var userStates: map<int, ConvState>

    constructor ()
      ensures userStates == map[]
    {
      userStates := map[];
    }
  }

  // ---------------------------------------------------------------- get_user_from_db

  /** The unsaved `User` object handed out for an invalid id or a database error: no
      column defaults apply to it, only the ten credits the call spells out. */
  function TransientUser(userId: int): User
  {
    User(userId, None, true, false, 10.0, None)
  }

  /** `get_user_from_db(user_id)` as a value: the user returned and the users table
      afterwards. `lookupFails` stands for a database error anywhere in the call's
      session, at the query or at the insert of a missing user: the insert is rolled
      back and the transient 10-credit user is returned, even when a stored row exists. */
  function UserLookup(users: map<int, User>, userId: int, now: int, lookupFails: bool)
    : (r: (User, map<int, User>))
    ensures userId <= 0 || lookupFails ==> r == (TransientUser(userId), users)
    ensures userId > 0 && !lookupFails && userId in users ==> r == (users[userId], users)
    ensures userId > 0 && !lookupFails && userId !in users ==>
              r == (NewUser(userId, now), users[userId := NewUser(userId, now)])
    ensures userId !in users || lookupFails ==> r.0.userId == userId && r.0.credits == 10.0
    ensures r.0.joinDate.Some? <==> userId > 0 && !lookupFails && (userId in users ==> users[userId].joinDate.Some?)
    ensures r.1.Keys == users.Keys || (userId > 0 && !lookupFails && r.1.Keys == users.Keys + {userId})
    ensures forall u :: u in users ==> u in r.1 && r.1[u] == users[u]
  {
    if userId <= 0 || lookupFails then (TransientUser(userId), users)
    else if userId in users then (users[userId], users)
    else (NewUser(userId, now), users[userId := NewUser(userId, now)])
  }

  method GetUserFromDb(db: BotDb, userId: int, now: int, lookupFails: bool) returns (user: User)
    requires db.Valid()
    modifies db`users
    ensures db.Valid()
    ensures (user, db.users) == UserLookup(old(db.users), userId, now, lookupFails)
  {
    if userId <= 0 {
      return TransientUser(userId);
    }
    if lookupFails {
      return TransientUser(userId);
    }
    if userId in db.users {
      return db.users[userId];
    }
    user := NewUser(userId, now);
    db.users := db.users[userId := user];
  }

  // ---------------------------------------------------------------- log_credit_transaction

  /** The row `log_credit_transaction` writes, or `None` when its input checks refuse:
      a non-positive user id, a non-numeric amount or an empty type. The type is cut to
      50 characters and a given description to 200; an empty description is stored as
      NULL. */
  function TransactionRow(userId: int, amount: Numeric, transactionType: string,
                          description: Option<string>, now: int): (r: Option<CreditTransaction>)
    ensures r.None? <==> (userId <= 0 || amount.NonNumeric? || transactionType == "")
    ensures r.Some? ==>
              && r.value.userId == userId && r.value.amount == amount.value && r.value.timestamp == now
              && |r.value.transactionType| == (if |transactionType| <= 50 then |transactionType| else 50)
              && StartsWith(transactionType, r.value.transactionType)
              && (r.value.description.None? <==> (description.None? || description.value == ""))
              && (r.value.description.Some? ==>
                    |r.value.description.value| <= 200 && StartsWith(description.value, r.value.description.value))
  {
    if userId <= 0 || amount.NonNumeric? || transactionType == "" then None
    else
      Some(CreditTransaction(userId, amount.value, Take(transactionType, 50),
                             if description.Some? && description.value != ""
                             then Some(Take(description.value, 200)) else None, now))
  }

  /** `log_credit_transaction(...)`; returns whether a row was committed. */
  method LogCreditTransaction(db: BotDb, userId: int, amount: Numeric, transactionType: string,
                              description: Option<string>, now: int, storeFails: bool)
    returns (ok: bool)
    requires db.Valid()
    modifies db`transactions
    ensures db.Valid()
    ensures var row := TransactionRow(userId, amount, transactionType, description, now);
            && ok == (row.Some? && !storeFails)
            && db.transactions == if ok then old(db.transactions) + [row.value] else old(db.transactions)
  {
    if userId <= 0 {
      return false;
    }
    if amount.NonNumeric? {
      return false;
    }
    if transactionType == "" {
      return false;
    }
    var transaction := CreditTransaction(userId, amount.value, Take(transactionType, 50),
                                         if description.Some? && description.value != ""
                                         then Some(Take(description.value, 200)) else None, now);
    if storeFails {
      return false;
    }
    db.transactions := db.transactions + [transaction];
    ok := true;
  }

  /** Adding an amount to a user's balance and then logging it through
      `log_credit_transaction` keeps the ledger reconciled for any positive user id. */
  lemma CreditAndLogRowKeepsReconciled(users: map<int, User>, txs: seq<CreditTransaction>,
                                       userId: int, amount: real, transactionType: string,
                                       description: Option<string>, now: int)
    requires Reconciled(users, txs) && userId in users
    requires userId > 0 && transactionType != ""
    ensures var row := TransactionRow(userId, Num(amount), transactionType, description, now);
            && row.Some?
            && Reconciled(users[userId := users[userId].(credits := users[userId].credits + amount)],
                          txs + [row.value])
  {
    var row := TransactionRow(userId, Num(amount), transactionType, description, now);
    CreditAndLogKeepsReconciled(users, txs, row.value);
  }

  // ---------------------------------------------------------------- balances

  /** A user's balance changed by `delta`, when the row exists. */
  function AddCredits(users: map<int, User>, userId: int, delta: real): (r: map<int, User>)
    ensures r.Keys == users.Keys
    ensures userId in users ==> r[userId] == users[userId].(credits := users[userId].credits + delta)
    ensures forall u :: u in users && u != userId ==> r[u] == users[u]
  {
    if userId in users then users[userId := users[userId].(credits := users[userId].credits + delta)]
    else users
  }

  /** A balance change that logs nothing breaks the ledger's reconciliation. */
  lemma UnloggedChangeBreaksReconciled(users: map<int, User>, txs: seq<CreditTransaction>,
                                       userId: int, delta: real)
    requires Reconciled(users, txs) && userId in users && delta != 0.0
    ensures !Reconciled(AddCredits(users, userId, delta), txs)
  {
  }

  // ---------------------------------------------------------------- /start

  /** Where `/start <param>` goes: a claim token, a referral code, or neither. */
  datatype StartRoute = ClaimLink(token: string) | UseReferral(code: string) | PlainStart

  function RouteStartParam(param: Option<string>): StartRoute
  {
    if param.None? then PlainStart
    else if StartsWith(param.value, "credit_") then ClaimLink(ReplaceAll(param.value, "credit_"))
    else if StartsWith(param.value, "ref_") then UseReferral(param.value)
    else PlainStart
  }

  /** The deep link of a minted reward link routes to the claim of its own payload. */
  lemma RewardLinkRoutesToClaim(payload: string)
    requires FreeCredit.IsAlphanumeric(payload)
    ensures RouteStartParam(Some(FreeCredit.StartParam(payload))) == ClaimLink(payload)
  {
    FreeCredit.StartParamRoundTrip(payload);
  }

  /** A referral code routes to the referral processor, which reads its referrer back. */
  lemma ReferralCodeRoutesToReferral(userId: int)
    ensures var code := Referral.CreateUserReferralCode(userId);
            && RouteStartParam(Some(code)) == UseReferral(code)
            && Referral.ParseReferralCode(code) == Referral.ReferrerId(userId)
  {
    var code := Referral.CreateUserReferralCode(userId);
    assert code[0] == 'r';
    assert !StartsWith(code, "credit_") by { assert "credit_"[0] == 'c'; }
    Referral.ReferralCodeRoundTrip(userId);
  }

  /** The referral window: the user joined less than five minutes ago. */
  predicate IsNewUser(joinDate: int, now: int)
  {
    now - joinDate < 300
  }

  /** A user created by this very `/start` is inside the referral window, and a user who
      joined five minutes ago or earlier no longer is. */
  lemma FreshUserIsNew(users: map<int, User>, userId: int, now: int, joinDate: int)
    requires userId > 0 && userId !in users
    ensures var u := UserLookup(users, userId, now, false).0;
            u.joinDate.Some? && IsNewUser(u.joinDate.value, now)
    ensures joinDate <= now - 300 ==> !IsNewUser(joinDate, now)
  {
  }

  datatype StartReply =
    | ClaimResult(claim: FreeCredit.ClaimReply)
    | ReferralResult(referral: Referral.ReferralReply)
    | ReferralWindowClosed
    | JoinDateMissing
    | ContinueStart

  /** `start_command` up to the point where it hands on to the ordinary welcome.
      The user is looked up or created first; a `credit_` parameter claims its token,
      a `ref_` parameter is processed only for a user inside the referral window.
      A user without a join date makes the window check raise; after a failed lookup
      (`lookupFails`, a database error in `get_user_from_db`'s own session) every user is
      the transient one, which has none. `storeFails` stands for a database error at the
      claim's or the referral's commit. */
  method StartCommand(db: BotDb, userId: int, param: Option<string>, now: int, lookupFails: bool,
                      storeFails: bool)
    returns (reply: StartReply)
    requires db.Valid()
    modifies db`users, db`transactions, db`referrals, db`userLinks
    ensures db.Valid()
    ensures var looked := UserLookup(old(db.users), userId, now, lookupFails);
            match RouteStartParam(param)
            case PlainStart =>
              && reply == ContinueStart && db.users == looked.1
              && db.transactions == old(db.transactions) && db.referrals == old(db.referrals)
              && db.userLinks == old(db.userLinks)
            case ClaimLink(token) =>
              var d := FreeCredit.ClaimDecision(looked.1, db.shortLinks, old(db.userLinks), token, now);
              && db.referrals == old(db.referrals)
              && if !d.Credited? || storeFails then
                   && reply == ClaimResult(if d.Credited? then FreeCredit.ClaimFailed else d)
                   && db.users == looked.1 && db.userLinks == old(db.userLinks)
                   && db.transactions == old(db.transactions)
                 else
                   && reply == ClaimResult(d)
                   && var k := FreeCredit.ClaimRow(db.shortLinks, old(db.userLinks), token).value.0;
                      (db.users, db.userLinks, db.transactions)
                      == FreeCredit.ApplyClaim(looked.1, old(db.userLinks), old(db.transactions), k, now)
            case UseReferral(code) =>
              && db.userLinks == old(db.userLinks)
              && if looked.0.joinDate.None? || !IsNewUser(looked.0.joinDate.value, now) then
                   && reply == (if looked.0.joinDate.None? then JoinDateMissing else ReferralWindowClosed)
                   && db.users == looked.1 && db.transactions == old(db.transactions)
                   && db.referrals == old(db.referrals)
                 else
                   var d := Referral.ReferralDecisionAsWritten(looked.1, old(db.referrals), code, userId);
                   var t := Referral.ReferralTables(looked.1, old(db.transactions), old(db.referrals));
                   if d.Rejected? || storeFails then
                     && reply == ReferralResult(Referral.Failure(Referral.ErrorMessage(
                                  if d.Rejected? then d.error else Referral.ProcessingError)))
                     && db.users == looked.1 && db.transactions == old(db.transactions)
                     && db.referrals == old(db.referrals)
                   else
                     && reply == ReferralResult(Referral.Success(
                                  d.referrerId, 20.0, 15.0, looked.1[d.referrerId].firstName,
                                  if userId in looked.1 then looked.1[userId].firstName else Some("Unknown")))
                     && Referral.ReferralTables(db.users, db.transactions, db.referrals)
                        == Referral.ApplyReferral(t, code, d.referrerId, userId, now)
  {
    var user := GetUserFromDb(db, userId, now, lookupFails);
    var route := RouteStartParam(param);
    match route {
      case PlainStart =>
        return ContinueStart;
      case ClaimLink(token) =>
        var claim := FreeCredit.OnCreditLinkClick(db, token, now, storeFails);
        return ClaimResult(claim);
      case UseReferral(code) =>
        if user.joinDate.None? {
          return JoinDateMissing;
        }
        if !IsNewUser(user.joinDate.value, now) {
          return ReferralWindowClosed;
        }
        var result := Referral.ProcessReferral(db, code, userId, now, storeFails);
        return ReferralResult(result);
    }
  }

  // ---------------------------------------------------------------- payments

  /** The callback data of the owner's payment buttons. */
  function ConfirmCallbackData(paymentId: int): string { "confirm_payment_" + IntToString(paymentId) }

  function CancelCallbackData(paymentId: int): string { "cancel_payment_" + IntToString(paymentId) }

  /** The payment id the callback handlers recover with `replace` and `int()`. */
  function CallbackPaymentId(data: string, prefix: string): Option<int>
    requires |prefix| > 0
  {
    ParseInt(ReplaceAll(data, prefix))
  }

  /** The buttons' data reads back as the payment id they were built for. */
  lemma CallbackDataRoundTrip(paymentId: int)
    ensures StartsWith(ConfirmCallbackData(paymentId), "confirm_payment_")
    ensures CallbackPaymentId(ConfirmCallbackData(paymentId), "confirm_payment_") == Some(paymentId)
    ensures StartsWith(CancelCallbackData(paymentId), "cancel_payment_")
    ensures CallbackPaymentId(CancelCallbackData(paymentId), "cancel_payment_") == Some(paymentId)
  {
    var digits := IntToString(paymentId);
    assert ConfirmCallbackData(paymentId)[..16] == "confirm_payment_";
    assert CancelCallbackData(paymentId)[..15] == "cancel_payment_";
    ReplaceAllPrefix("confirm_payment_", digits);
    ReplaceAllUntouched(digits, "confirm_payment_", 7);
    ReplaceAllPrefix("cancel_payment_", digits);
    ReplaceAllUntouched(digits, "cancel_payment_", 6);
    IntRoundTrip(paymentId);
  }

  /** `StoreError`: a failed commit raises out of the handler, which answers nothing. */
  datatype PaymentReply = BadPaymentId | NotFoundOrProcessed | PaymentConfirmed | PaymentCancelled | StoreError

  predicate IsPending(payments: map<int, PaymentRequest>, id: int)
  {
    id in payments && payments[id].status == Pending
  }

  /** The text of the confirmation's transaction description; the amount is written
      like Python writes a float with no fractional part. */
  function PurchaseDescription(amount: real): string
  {
    "Payment confirmed - ₹" + IntToString(Trunc(amount)) + ".0"
  }

  /** The confirm branch of `callback_handler`. A pending request becomes confirmed and
      is committed; then, when its user exists, the credits are added and committed
      again, and a `purchase` transaction is logged through `log_credit_transaction`.
      An id that does not parse raises and changes nothing. The commits are separate:
      `statusFails` fails the first, which changes nothing; `creditFails` fails the
      second, which leaves the request confirmed with no credit added; `logFails` fails
      the logged row alone. A failed commit raises out of the handler. */
  method ConfirmPayment(db: BotDb, data: string, now: int, statusFails: bool, creditFails: bool,
                        logFails: bool) returns (reply: PaymentReply)
    requires StartsWith(data, "confirm_payment_")
    requires db.Valid()
    modifies db`payments, db`users, db`transactions
    ensures db.Valid()
    ensures var id := CallbackPaymentId(data, "confirm_payment_");
            if id.None? || !IsPending(old(db.payments), id.value) || statusFails then
              && reply == (if id.None? then BadPaymentId
                           else if !IsPending(old(db.payments), id.value) then NotFoundOrProcessed
                           else StoreError)
              && db.payments == old(db.payments) && db.users == old(db.users)
              && db.transactions == old(db.transactions)
            else
              var p := old(db.payments)[id.value];
              var row := TransactionRow(p.userId, Num(p.creditsToAdd), "purchase",
                                        Some(PurchaseDescription(p.amount)), now);
              var credited := p.userId in old(db.users) && !creditFails;
              && reply == (if p.userId in old(db.users) && creditFails then StoreError else PaymentConfirmed)
              && db.payments == old(db.payments)[id.value := p.(status := Confirmed, verifiedAt := Some(now))]
              && db.users == (if credited then AddCredits(old(db.users), p.userId, p.creditsToAdd)
                              else old(db.users))
              && db.transactions == (if credited && row.Some? && !logFails
                                     then old(db.transactions) + [row.value] else old(db.transactions))
  {
    var paymentId := ParseInt(ReplaceAll(data, "confirm_payment_"));
    if paymentId.None? {
      return BadPaymentId;
    }
    if !(paymentId.value in db.payments && db.payments[paymentId.value].status == Pending) {
      return NotFoundOrProcessed;
    }
    var payment := db.payments[paymentId.value];
    payment := payment.(status := Confirmed, verifiedAt := Some(now));
    if statusFails {
      return StoreError;
    }
    db.payments := db.payments[paymentId.value := payment];
    if payment.userId in db.users {
      var user := db.users[payment.userId];
      user := user.(credits := user.credits + payment.creditsToAdd);
      if creditFails {
        return StoreError;
      }
      db.users := db.users[payment.userId := user];
      var _ := LogCreditTransaction(db, payment.userId, Num(payment.creditsToAdd), "purchase",
                                    Some(PurchaseDescription(payment.amount)), now, logFails);
    }
    reply := PaymentConfirmed;
  }

  /** The cancel branch: a pending request becomes cancelled; no balance changes. A
      failed commit (`storeFails`) raises and changes nothing. */
  method CancelPayment(db: BotDb, data: string, now: int, storeFails: bool) returns (reply: PaymentReply)
    requires StartsWith(data, "cancel_payment_")
    requires db.Valid()
    modifies db`payments
    ensures db.Valid()
    ensures var id := CallbackPaymentId(data, "cancel_payment_");
            if id.None? || !IsPending(old(db.payments), id.value) || storeFails then
              && reply == (if id.None? then BadPaymentId
                           else if !IsPending(old(db.payments), id.value) then NotFoundOrProcessed
                           else StoreError)
              && db.payments == old(db.payments)
            else
              && reply == PaymentCancelled
              && db.payments == old(db.payments)[id.value := old(db.payments)[id.value].(status := Cancelled, verifiedAt := Some(now))]
  {
    var paymentId := ParseInt(ReplaceAll(data, "cancel_payment_"));
    if paymentId.None? {
      return BadPaymentId;
    }
    if !(paymentId.value in db.payments && db.payments[paymentId.value].status == Pending) {
      return NotFoundOrProcessed;
    }
    var payment := db.payments[paymentId.value];
    payment := payment.(status := Cancelled, verifiedAt := Some(now));
    if storeFails {
      return StoreError;
    }
    db.payments := db.payments[paymentId.value := payment];
    reply := PaymentCancelled;
  }

  /** A payment is settled once: after it is confirmed or cancelled it is no longer
      pending, so both buttons answer "already processed" from then on, and the
      confirmation keeps every other request as it was. */
  lemma PaymentSettledOnce(payments: map<int, PaymentRequest>, id: int, now: int, confirm: bool)
    requires IsPending(payments, id)
    ensures var payments' := payments[id := payments[id].(status := if confirm then Confirmed else Cancelled,
                                                          verifiedAt := Some(now))];
            && !IsPending(payments', id)
            && (forall j :: j != id ==> (IsPending(payments', j) <==> IsPending(payments, j)))
  {
  }

  /** A confirmation credits the payment's user and logs it, so the ledger stays
      reconciled. */
  lemma ConfirmKeepsReconciled(users: map<int, User>, txs: seq<CreditTransaction>, p: PaymentRequest, now: int)
    requires Reconciled(users, txs) && p.userId in users && p.userId > 0
    ensures var row := TransactionRow(p.userId, Num(p.creditsToAdd), "purchase", Some(PurchaseDescription(p.amount)), now);
            row.Some? && Reconciled(AddCredits(users, p.userId, p.creditsToAdd), txs + [row.value])
  {
    CreditAndLogRowKeepsReconciled(users, txs, p.userId, p.creditsToAdd, "purchase",
                                   Some(PurchaseDescription(p.amount)), now);
  }

  // ---------------------------------------------------------------- TTS

  const WordCharge: real := 0.05
  const MaxTtsLength: nat := 3000

  /** The cost of a text: 0.05 credits per whitespace-separated word. */
  function TtsCost(text: string): (cost: real)
    ensures cost >= 0.0
  {
    WordCount(text) as real * WordCharge
  }

  /** A text that survives the checks (stripped, non-empty, at most 3000 characters)
      costs at least one word's charge and at most 150 credits. */
  lemma TtsCostBounds(text: string)
    requires 0 < |Strip(text)| <= MaxTtsLength
    ensures 0.05 <= TtsCost(Strip(text)) <= 150.0
  {
    var t := Strip(text);
    WordCountZero(t);
    assert !IsSpace(t[0]);
  }

  datatype TtsReply = TextTooLong | TextEmpty | InsufficientCredits(needed: real, have: real) | AudioFailed | AudioSent

  /** The TTS branch of `handle_text`. The owner is never charged. Anyone else is looked
      up (and created if missing), refused when their balance is below the cost, and
      charged only after `audioProduced` (the synthesiser returned audio). The charge
      logs no credit transaction; a request row is stored, in language `hi`.
      `lookupFails` stands for a database error in `get_user_from_db`'s own session;
      the balance is then checked against the transient 10 credits, while the debit goes
      to the stored row, which may take it below zero. The
      debit and the request row are two commits of a second session: `debitFails` fails
      the first, which only happens when the user row exists and then skips the request
      row too, and `requestFails` fails the second alone; the branch swallows both. */
  method TtsText(db: BotDb, conv: Conversations, userId: int, ownerId: int, text: string,
                 audioProduced: bool, now: int, lookupFails: bool, debitFails: bool,
                 requestFails: bool) returns (reply: TtsReply)
    requires userId in conv.userStates && conv.userStates[userId].WaitingTtsText?
    requires db.Valid()
    modifies db`users, db`ttsRequests, conv`userStates
    ensures db.Valid()
    ensures conv.userStates == old(conv.userStates) - {userId}
    ensures var t := Strip(text);
            var cost := TtsCost(t);
            var looked := UserLookup(old(db.users), userId, now, lookupFails);
            var aborted := userId in looked.1 && debitFails;
            if |t| > MaxTtsLength || |t| == 0 then
              && reply == (if |t| > MaxTtsLength then TextTooLong else TextEmpty)
              && db.users == old(db.users) && db.ttsRequests == old(db.ttsRequests)
            else if userId == ownerId then
              && reply == (if audioProduced then AudioSent else AudioFailed)
              && db.users == old(db.users) && db.ttsRequests == old(db.ttsRequests)
            else if looked.0.credits < cost then
              && reply == InsufficientCredits(cost, looked.0.credits)
              && db.users == looked.1 && db.ttsRequests == old(db.ttsRequests)
            else if !audioProduced then
              && reply == AudioFailed
              && db.users == looked.1 && db.ttsRequests == old(db.ttsRequests)
            else
              && reply == AudioSent
              && db.users == (if aborted then looked.1 else AddCredits(looked.1, userId, -cost))
              && db.ttsRequests == (if aborted || requestFails then old(db.ttsRequests)
                                    else old(db.ttsRequests) + [TtsRequest(userId, t, "hi", cost)])
  {
    var t := Strip(text);
    if |t| > MaxTtsLength {
      conv.userStates := conv.userStates - {userId};
      return TextTooLong;
    }
    if |t| == 0 {
      conv.userStates := conv.userStates - {userId};
      return TextEmpty;
    }
    var wordCount := WordCount(t);
    var creditsNeeded := wordCount as real * WordCharge;
    if userId != ownerId {
      var user := GetUserFromDb(db, userId, now, lookupFails);
      if user.credits < creditsNeeded {
        conv.userStates := conv.userStates - {userId};
        return InsufficientCredits(creditsNeeded, user.credits);
      }
    }
    if !audioProduced {
      reply := AudioFailed;
    } else {
      if userId != ownerId {
        ChargeTts(db, userId, t, creditsNeeded, debitFails, requestFails);
      }
      reply := AudioSent;
    }
    conv.userStates := conv.userStates - {userId};
  }

  /** The second session of a paid TTS request: the debit, when the user row exists,
      committed first, then the request row. A failed debit commit skips the request
      row; a failed request commit keeps the debit. */
  method ChargeTts(db: BotDb, userId: int, t: string, cost: real, debitFails: bool, requestFails: bool)
    requires db.Valid()
    modifies db`users, db`ttsRequests
    ensures db.Valid()
    ensures var aborted := userId in old(db.users) && debitFails;
            && db.users == (if aborted then old(db.users) else AddCredits(old(db.users), userId, -cost))
            && db.ttsRequests == (if aborted || requestFails then old(db.ttsRequests)
                                  else old(db.ttsRequests) + [TtsRequest(userId, t, "hi", cost)])
  {
    if userId in db.users {
      var user := db.users[userId];
      user := user.(credits := user.credits - cost);
      if debitFails {
        return;
      }
      db.users := db.users[userId := user];
    }
    if !requestFails {
      db.ttsRequests := db.ttsRequests + [TtsRequest(userId, t, "hi", cost)];
    }
  }

  /** When `get_user_from_db` read the stored row (or created it), a paid TTS request
      never takes the balance below zero: the balance was checked against the same cost
      just before the debit. */
  lemma TtsChargeKeepsBalanceNonNegative(users: map<int, User>, userId: int, now: int, cost: real)
    requires userId > 0
    requires UserLookup(users, userId, now, false).0.credits >= cost
    ensures var looked := UserLookup(users, userId, now, false);
            userId in looked.1 && AddCredits(looked.1, userId, -cost)[userId].credits >= 0.0
  {
  }

  /** When the lookup's session fails for a stored user, the balance check runs against
      the transient 10 credits, so a stored balance below the cost passes it and the
      debit that follows takes the stored balance below zero. */
  lemma TtsLookupErrorOverdraws(users: map<int, User>, userId: int, now: int, cost: real)
    requires userId > 0 && userId in users && users[userId].credits < cost <= 10.0
    ensures var looked := UserLookup(users, userId, now, true);
            && looked.0.credits >= cost
            && looked.1 == users
            && AddCredits(looked.1, userId, -cost)[userId].credits < 0.0
  {
  }

  // ---------------------------------------------------------------- owner credit grants

  /** First step of give-credit: the target id, parsed with `int()`; a bad id ends the
      conversation. */
  method GiveCreditUserId(conv: Conversations, userId: int, ownerId: int, text: string)
    returns (target: Option<int>)
    requires userId == ownerId && userId in conv.userStates
    requires conv.userStates[userId] == WaitingGiveCreditUserId
    modifies conv`userStates
    ensures target == ParseInt(Strip(text))
    ensures conv.userStates == if target.Some? then old(conv.userStates)[userId := WaitingGiveCreditAmount(target.value)]
                               else old(conv.userStates) - {userId}
  {
    target := ParseInt(Strip(text));
    if target.Some? {
      conv.userStates := conv.userStates[userId := WaitingGiveCreditAmount(target.value)];
    } else {
      conv.userStates := conv.userStates - {userId};
    }
  }

  /** `GiveFailed`: the commit raised out of the handler before the state was cleared. */
  datatype GiveReply = InvalidAmount | TargetNotFound(target: int) | CreditAdded(target: int, balance: real) | GiveFailed

  /** Second step of give-credit: the amount, added to the target only when the target
      exists. No credit transaction is logged. A failed commit (`storeFails`) raises
      past the state reset, so the conversation stays where it was. */
  method GiveCreditAmount(db: BotDb, conv: Conversations, userId: int, ownerId: int, text: string,
                          storeFails: bool)
    returns (reply: GiveReply)
    requires userId == ownerId && userId in conv.userStates
    requires conv.userStates[userId].WaitingGiveCreditAmount?
    requires db.Valid()
    modifies db`users, conv`userStates
    ensures db.Valid()
    ensures var target := old(conv.userStates)[userId].targetUser;
            var amount := ParseDecimal(Strip(text));
            if amount.None? then
              reply == InvalidAmount && db.users == old(db.users) && conv.userStates == old(conv.userStates) - {userId}
            else if target !in old(db.users) then
              && reply == TargetNotFound(target) && db.users == old(db.users)
              && conv.userStates == old(conv.userStates) - {userId}
            else if storeFails then
              reply == GiveFailed && db.users == old(db.users) && conv.userStates == old(conv.userStates)
            else && db.users == AddCredits(old(db.users), target, amount.value)
                 && reply == CreditAdded(target, db.users[target].credits)
                 && conv.userStates == old(conv.userStates) - {userId}
  {
    var target := conv.userStates[userId].targetUser;
    var amount := ParseDecimal(Strip(text));
    if amount.None? {
      reply := InvalidAmount;
    } else if target in db.users {
      ghost var before := db.users;
      var user := db.users[target];
      user := user.(credits := user.credits + amount.value);
      if storeFails {
        return GiveFailed;
      }
      db.users := db.users[target := user];
      assert db.users == AddCredits(before, target, amount.value);
      reply := CreditAdded(target, user.credits);
    } else {
      reply := TargetNotFound(target);
    }
    conv.userStates := conv.userStates - {userId};
  }

  /** The loop of give-credit-all: each user in turn gets the amount added, and the
      users updated are counted. */
  method AddToEveryUser(users: map<int, User>, amount: real) returns (updated: map<int, User>, count: nat)
    ensures updated.Keys == users.Keys
    ensures forall u :: u in users ==> updated[u] == users[u].(credits := users[u].credits + amount)
    ensures count == |users|
  {
    updated := users;
    var remaining := users.Keys;
    count := 0;
    while remaining != {}
      invariant remaining <= users.Keys && updated.Keys == users.Keys
      invariant count + |remaining| == |users|
      invariant forall u :: u in users ==>
                  updated[u] == if u in remaining then users[u] else users[u].(credits := users[u].credits + amount)
      decreases |remaining|
    {
      SomeElement(remaining);
      var u :| u in remaining;
      updated := updated[u := updated[u].(credits := updated[u].credits + amount)];
      count := count + 1;
      remaining := remaining - {u};
    }
  }

  lemma SomeElement(s: set<int>)
    requires s != {}
    ensures exists x :: x in s
  {
    if forall x :: x !in s {
      assert false;
    }
  }

  datatype GiveAllReply = InvalidAllAmount | CreditedAll(count: nat) | GiveAllFailed

  /** Give-credit-all: the amount is added to every user, one at a time, and the count
      of updated users is reported. No credit transaction is logged. A failed commit
      (`storeFails`) rolls every addition back and raises past the state reset. */
  method GiveCreditAll(db: BotDb, conv: Conversations, userId: int, ownerId: int, text: string,
                       storeFails: bool)
    returns (reply: GiveAllReply)
    requires userId == ownerId && userId in conv.userStates
    requires conv.userStates[userId] == WaitingGiveCreditAllAmount
    requires db.Valid()
    modifies db`users, conv`userStates
    ensures db.Valid()
    ensures conv.userStates == if reply.GiveAllFailed? then old(conv.userStates) else old(conv.userStates) - {userId}
    ensures var amount := ParseDecimal(Strip(text));
            if amount.None? then reply == InvalidAllAmount && db.users == old(db.users)
            else if storeFails then reply == GiveAllFailed && db.users == old(db.users)
            else && reply == CreditedAll(|old(db.users)|) && db.users.Keys == old(db.users).Keys
                 && forall u :: u in old(db.users) ==>
                      db.users[u] == old(db.users)[u].(credits := old(db.users)[u].credits + amount.value)
  {
    var amount := ParseDecimal(Strip(text));
    if amount.None? {
      conv.userStates := conv.userStates - {userId};
      return InvalidAllAmount;
    }
    var users, count := AddToEveryUser(db.users, amount.value);
    if storeFails {
      return GiveAllFailed;
    }
    db.users := users;
    conv.userStates := conv.userStates - {userId};
    reply := CreditedAll(count);
  }

  // ---------------------------------------------------------------- settings inputs

  function SettingName(f: SettingField): string
  {
    match f
    case WelcomeCredit => "welcome_credit"
    case TtsChargeSetting => "tts_charge"
    case EarnCredit => "earn_credit"
    case MinPayment => "min_payment_amount"
    case MaxPayment => "max_payment_amount"
    case PaymentRate => "payment_rate"
  }

  function SettingDescription(f: SettingField): string
  {
    match f
    case WelcomeCredit => "Credits given to new users"
    case TtsChargeSetting => "Credits charged per word for TTS"
    case EarnCredit => "Credits earned per short link process"
    case MinPayment => "Minimum payment amount in rupees"
    case MaxPayment => "Maximum payment amount in rupees"
    case PaymentRate => "Credits per rupee"
  }

  /** The range check of each settings input: the three credit values may be zero but
      not negative, the minimum and the rate must be positive, and the maximum must
      exceed the stored minimum (10 when none is stored). */
  predicate SettingValueAccepted(f: SettingField, value: real, settings: map<string, BotSetting>)
  {
    match f
    case WelcomeCredit => value >= 0.0
    case TtsChargeSetting => value >= 0.0
    case EarnCredit => value >= 0.0
    case MinPayment => value > 0.0
    case MaxPayment => value > GetSetting(settings, "min_payment_amount", 10.0)
    case PaymentRate => value > 0.0
  }

  datatype SettingReply = InvalidNumber | OutOfRange | SettingUpdated

  /** The settings-input branches of `handle_text`: parse, range-check, store with
      `update_setting`, and end the conversation in every case. */
  method SettingInput(db: BotDb, conv: Conversations, userId: int, ownerId: int,
                      field: SettingField, text: string) returns (reply: SettingReply)
    requires userId == ownerId && userId in conv.userStates
    requires conv.userStates[userId] == WaitingSetting(field)
    requires db.Valid()
    modifies db`settings, conv`userStates
    ensures db.Valid()
    ensures conv.userStates == old(conv.userStates) - {userId}
    ensures var v := ParseDecimal(Strip(text));
            if v.None? || !SettingValueAccepted(field, v.value, old(db.settings)) then
              && reply == (if v.None? then InvalidNumber else OutOfRange)
              && db.settings == old(db.settings)
            else
              && reply == SettingUpdated
              && var m := SettingUpdate(old(db.settings), SettingName(field), Num(v.value),
                                        Some(SettingDescription(field)));
                 db.settings == (if m.Some? then m.value else old(db.settings))
  {
    var v := ParseDecimal(Strip(text));
    if v.None? {
      conv.userStates := conv.userStates - {userId};
      return InvalidNumber;
    }
    if !SettingValueAccepted(field, v.value, db.settings) {
      conv.userStates := conv.userStates - {userId};
      return OutOfRange;
    }
    var _ := UpdateSetting(db, SettingName(field), Num(v.value), Some(SettingDescription(field)));
    conv.userStates := conv.userStates - {userId};
    reply := SettingUpdated;
  }

  /** An accepted settings input is read back by `get_setting`; an accepted maximum is
      above the minimum in force, so the payment range stays non-empty. */
  lemma SettingInputReadBack(settings: map<string, BotSetting>, field: SettingField, value: real,
                             default: real)
    requires SettingValueAccepted(field, value, settings)
    ensures var m := SettingUpdate(settings, SettingName(field), Num(value), Some(SettingDescription(field)));
            && m.Some?
            && GetSetting(m.value, SettingName(field), default) == value
            && (field == MaxPayment ==>
                  GetSetting(m.value, "min_payment_amount", 10.0) < GetSetting(m.value, "max_payment_amount", 100.0))
  {
    var name := SettingName(field);
    assert |name| <= 100;
    assert Take(name, 100) == name;
    var m := SettingUpdate(settings, name, Num(value), Some(SettingDescription(field)));
    SettingRoundTrip(settings, name, value, Some(SettingDescription(field)), "min_payment_amount", 10.0);
    SettingRoundTrip(settings, name, value, Some(SettingDescription(field)), name, default);
  }

  // ---------------------------------------------------------------- payment request

  /** `int(amount * rate)`: the credits a payment buys. */
  function CreditsFor(amount: real, rate: real): (credits: int)
    ensures amount * rate >= 0.0 ==> credits >= 0 && credits as real <= amount * rate < credits as real + 1.0
  {
    Trunc(amount * rate)
  }

  datatype AmountReply = BadAmount | AmountOutOfRange(min: real, max: real) | AwaitTransactionId(amount: real, credits: int)

  /** The payment-amount branch: the amount must lie within the stored minimum and
      maximum (10 and 100 when unset); the credits are `int(amount * rate)` at the stored
      rate (10 when unset), kept in the conversation for the next step. */
  method PaymentAmountInput(db: BotDb, conv: Conversations, userId: int, text: string)
    returns (reply: AmountReply)
    requires userId in conv.userStates && conv.userStates[userId] == WaitingPaymentAmount
    modifies conv`userStates
    ensures var a := ParseDecimal(Strip(text));
            var lo := GetSetting(db.settings, "min_payment_amount", 10.0);
            var hi := GetSetting(db.settings, "max_payment_amount", 100.0);
            var rate := GetSetting(db.settings, "payment_rate", 10.0);
            if a.None? then reply == BadAmount && conv.userStates == old(conv.userStates) - {userId}
            else if a.value < lo || a.value > hi then
              reply == AmountOutOfRange(lo, hi) && conv.userStates == old(conv.userStates) - {userId}
            else
              && reply == AwaitTransactionId(a.value, CreditsFor(a.value, rate))
              && conv.userStates == old(conv.userStates)[userId := WaitingTransactionId(a.value, CreditsFor(a.value, rate))]
  {
    var amount := ParseDecimal(Strip(text));
    if amount.None? {
      conv.userStates := conv.userStates - {userId};
      return BadAmount;
    }
    var minAmount := GetSetting(db.settings, "min_payment_amount", 10.0);
    var maxAmount := GetSetting(db.settings, "max_payment_amount", 100.0);
    var paymentRate := GetSetting(db.settings, "payment_rate", 10.0);
    if amount.value < minAmount || amount.value > maxAmount {
      conv.userStates := conv.userStates - {userId};
      return AmountOutOfRange(minAmount, maxAmount);
    }
    var creditsToAdd := CreditsFor(amount.value, paymentRate);
    conv.userStates := conv.userStates[userId := WaitingTransactionId(amount.value, creditsToAdd)];
    reply := AwaitTransactionId(amount.value, creditsToAdd);
  }

  /** The transaction-id branch: a pending request is stored under the next id, then,
      when deleting the confirmation message succeeds (`confirmationDeleted`) and the
      user row exists, a patience bonus of 10 credits is added, committed again and
      logged as `bonus`. A database error at the insert (`storeFails`) escapes the
      handler: nothing is stored and the conversation state stays. A failed bonus
      commit (`bonusFails`) is swallowed, and so is a failed log row (`logFails`). The
      new request's id was never used. */
  method TransactionIdInput(db: BotDb, conv: Conversations, userId: int, text: string,
                            confirmationDeleted: bool, now: int, storeFails: bool, bonusFails: bool,
                            logFails: bool)
    returns (requestId: Option<int>)
    requires userId in conv.userStates && conv.userStates[userId].WaitingTransactionId?
    requires db.Valid()
    modifies db`payments, db`nextPaymentId, db`users, db`transactions, conv`userStates
    ensures db.Valid()
    ensures var st := old(conv.userStates)[userId];
            if storeFails then
              && requestId.None?
              && db.payments == old(db.payments) && db.nextPaymentId == old(db.nextPaymentId)
              && db.users == old(db.users) && db.transactions == old(db.transactions)
              && conv.userStates == old(conv.userStates)
            else
              var bonus := confirmationDeleted && userId in old(db.users) && !bonusFails;
              var row := TransactionRow(userId, Num(10.0), "bonus", Some("Patience bonus for payment delay"), now);
              && requestId == Some(old(db.nextPaymentId))
              && old(db.nextPaymentId) !in old(db.payments)
              && db.payments == old(db.payments)[old(db.nextPaymentId) :=
                   NewPaymentRequest(userId, st.amount, st.credits as real, Strip(text), now)]
              && db.nextPaymentId == old(db.nextPaymentId) + 1
              && db.users == (if bonus then AddCredits(old(db.users), userId, 10.0) else old(db.users))
              && db.transactions == (if bonus && row.Some? && !logFails then old(db.transactions) + [row.value]
                                     else old(db.transactions))
              && conv.userStates == old(conv.userStates) - {userId}
  {
    var st := conv.userStates[userId];
    var transactionId := Strip(text);
    if storeFails {
      return None;
    }
    var id := db.nextPaymentId;
    db.payments := db.payments[id := NewPaymentRequest(userId, st.amount, st.credits as real, transactionId, now)];
    db.nextPaymentId := id + 1;
    if confirmationDeleted && userId in db.users {
      var user := db.users[userId];
      user := user.(credits := user.credits + 10.0);
      if !bonusFails {
        db.users := db.users[userId := user];
        var _ := LogCreditTransaction(db, userId, Num(10.0), "bonus", Some("Patience bonus for payment delay"),
                                      now, logFails);
      }
    }
    conv.userStates := conv.userStates - {userId};
    requestId := Some(id);
  }
}
