/** The bot's relational store (bot.db): one datatype per table row, the column defaults of
    a freshly inserted row, the class holding every table, the settings key/value store and
    the default-settings initialisation of `create_tables`. */
module Database {
  import opened Common

  // ---------------------------------------------------------------- rows

  /** A row of `users`. Only the columns the credit logic reads are kept. */
  datatype User = User(
    userId: int,
    firstName: Option<string>,
    isActive: bool,
    isBanned: bool,
    credits: real,
    joinDate: Option<int>)

  /** The starting balance of every new user (the `credits` column default). */
  const NewUserCredits: real := 10.0

  /** A row of `users` as the column defaults fill it when it is inserted at `now`. */
  function NewUser(userId: int, now: int): (u: User)
    ensures u.userId == userId && u.credits == 10.0 && u.isActive && !u.isBanned
    ensures u.joinDate == Some(now)
  {
    User(userId, None, true, false, NewUserCredits, Some(now))
  }

  /** A row of `credit_transactions`: no id of its own, no balance before or after. */
  datatype CreditTransaction = CreditTransaction(
    userId: int,
    amount: real,
    transactionType: string,
    description: Option<string>,
    timestamp: int)

  /** A row of `referrals`. */
  datatype ReferralRecord = ReferralRecord(
    referrerId: int,
    referredId: int,
    referralCode: string,
    creditsEarned: real,
    isClaimed: bool,
    createdAt: int)

  datatype PaymentStatus = Pending | Confirmed | Cancelled

  /** A row of `payment_requests`; `transactionId` is the id the user typed, not a key. */
  datatype PaymentRequest = PaymentRequest(
    userId: int,
    amount: real,
    creditsToAdd: real,
    transactionId: string,
    status: PaymentStatus,
    createdAt: int,
    verifiedAt: Option<int>)

  /** A payment request as inserted: the `status` column defaults to pending. */
  function NewPaymentRequest(userId: int, amount: real, creditsToAdd: real,
                             transactionId: string, now: int): (p: PaymentRequest)
    ensures p.status == Pending && p.verifiedAt.None?
    ensures p.userId == userId && p.amount == amount && p.creditsToAdd == creditsToAdd
  {
    PaymentRequest(userId, amount, creditsToAdd, transactionId, Pending, now, None)
  }

  datatype LinkStatus = Active | Expired | Inactive

  /** A row of `short_links`: one shortened reward URL and the payload it carries. */
  datatype ShortLink = ShortLink(
    id: int,
    url: string,
    payload: string,
    status: LinkStatus,
    createdAt: int,
    expiresAt: Option<int>)

  /** A row of `user_links`: one assignment of a short link to a user. */
  datatype UserLink = UserLink(
    userId: int,
    linkId: int,
    assignedAt: int,
    creditGiven: bool,
    creditedAt: Option<int>)

  /** An assignment as inserted: `creditgiven` defaults to false. */
  function NewUserLink(userId: int, linkId: int, now: int): (l: UserLink)
    ensures !l.creditGiven && l.creditedAt.None? && l.userId == userId && l.linkId == linkId
  {
    UserLink(userId, linkId, now, false, None)
  }

  /** A row of `tts_requests`. */
  datatype TtsRequest = TtsRequest(userId: int, text: string, language: string, creditsUsed: real)

  /** A row of `bot_settings`, keyed by its unique `setting_name`. */
  datatype BotSetting = BotSetting(value: Option<real>, description: Option<string>)

  datatype QrCodeSettings = QrCodeSettings(
    qrCodeUrl: string, paymentNumber: string, paymentName: string, isActive: bool)

  datatype BotStatus = BotStatus(isActive: bool)

  // ---------------------------------------------------------------- the store

  /** Every table of bot.db that the credit logic touches. Tables with an integer
      primary key that the code looks up by key are maps; append-only tables whose
      queries scan them are sequences in insertion order. */
  class BotDb {
    var users: map<int, User>
    var transactions: seq<CreditTransaction>
    var referrals: seq<ReferralRecord>
    var payments: map<int, PaymentRequest>
    var nextPaymentId: int
    var shortLinks: seq<ShortLink>
    var nextLinkId: int
    var userLinks: seq<UserLink>
    var ttsRequests: seq<TtsRequest>
    var settings: map<string, BotSetting>
    var qrSettings: Option<QrCodeSettings>
    var botStatus: Option<BotStatus>

    /** What the table constraints and SQLite's row ids guarantee: each user is stored
        under its own `user_id`, both autoincrement counters are above every id handed
        out, and short link ids and payloads are unique. */
    ghost predicate Valid()
      reads this`users, this`payments, this`nextPaymentId, this`shortLinks, this`nextLinkId
    {
      && (forall k :: k in users ==> users[k].userId == k)
      && (forall k :: k in payments ==> k < nextPaymentId)
      && (forall i :: 0 <= i < |shortLinks| ==> shortLinks[i].id < nextLinkId)
      && (forall i, j :: 0 <= i < j < |shortLinks| ==> shortLinks[i].id != shortLinks[j].id)
      && (forall i, j :: 0 <= i < j < |shortLinks| ==> shortLinks[i].payload != shortLinks[j].payload)
    }

    /** An empty database, as `Base.metadata.create_all` leaves it. */
    constructor ()
      ensures Valid()
      ensures users == map[] && transactions == [] && referrals == [] && payments == map[]
      ensures shortLinks == [] && userLinks == [] && ttsRequests == [] && settings == map[]
      ensures qrSettings.None? && botStatus.None?
      ensures nextPaymentId == 1 && nextLinkId == 1
    {
      users, transactions, referrals := map[], [], [];
      payments, nextPaymentId := map[], 1;
      shortLinks, nextLinkId, userLinks := [], 1, [];
      ttsRequests, settings := [], map[];
      qrSettings, botStatus := None, None;
    }
  }

  // ---------------------------------------------------------------- ledger view

  /** The sum of the amounts logged in `credit_transactions` for one user. */
  function SumFor(txs: seq<CreditTransaction>, userId: int): real
    decreases |txs|
  {
    if |txs| == 0 then 0.0
    else SumFor(txs[..|txs| - 1], userId)
         + (if txs[|txs| - 1].userId == userId then txs[|txs| - 1].amount else 0.0)
  }

  lemma SumForAppend(txs: seq<CreditTransaction>, t: CreditTransaction, userId: int)
    ensures SumFor(txs + [t], userId)
            == SumFor(txs, userId) + (if t.userId == userId then t.amount else 0.0)
  {
    assert (txs + [t])[..|txs|] == txs;
  }

  /** No transaction is logged for a user whose id none of them carries. */
  lemma {:induction false} SumForAbsent(txs: seq<CreditTransaction>, userId: int)
    requires forall i :: 0 <= i < |txs| ==> txs[i].userId != userId
    ensures SumFor(txs, userId) == 0.0
    decreases |txs|
  {
    if |txs| > 0 {
      SumForAbsent(txs[..|txs| - 1], userId);
    }
  }

  /** The ledger reading of the users table: every logged transaction belongs to an
      existing user, and every balance is the starting credit plus that user's logged
      amounts. The source keeps this on some credit paths and not on others. */
  ghost predicate Reconciled(users: map<int, User>, txs: seq<CreditTransaction>)
  {
    && (forall i :: 0 <= i < |txs| ==> txs[i].userId in users)
    && (forall u :: u in users ==> users[u].credits == NewUserCredits + SumFor(txs, u))
  }

  /** Adding `amount` to one user's balance and logging it as one transaction keeps the
      ledger reconciled. */
  lemma CreditAndLogKeepsReconciled(users: map<int, User>, txs: seq<CreditTransaction>,
                                    t: CreditTransaction)
    requires Reconciled(users, txs)
    requires t.userId in users
    ensures Reconciled(users[t.userId := users[t.userId].(credits := users[t.userId].credits + t.amount)],
                       txs + [t])
  {
    var users' := users[t.userId := users[t.userId].(credits := users[t.userId].credits + t.amount)];
    forall u | u in users'
      ensures users'[u].credits == NewUserCredits + SumFor(txs + [t], u)
    {
      SumForAppend(txs, t, u);
    }
  }

  // ---------------------------------------------------------------- settings

  /** `get_setting(name, default)`. */
  function GetSetting(settings: map<string, BotSetting>, name: string, default: real): (r: real)
    ensures name != "" && name in settings && settings[name].value.Some?
            ==> r == settings[name].value.value
    ensures name == "" || name !in settings || settings[name].value.None? ==> r == default
  {
    if name == "" then default
    else if name in settings && settings[name].value.Some? then settings[name].value.value
    else default
  }

  /** The outcome of `update_setting(name, value, description)` on the settings table:
      `None` when it returns False (and the table is left alone), otherwise the new table.
      A row is looked up by the full name but inserted under its first 100 characters,
      so inserting a long name whose shortened form is already taken violates the
      unique constraint on `setting_name` and is rolled back. */
  function SettingUpdate(settings: map<string, BotSetting>, name: string, value: Numeric,
                         description: Option<string>): (r: Option<map<string, BotSetting>>)
  {
    if name == "" || value.NonNumeric? then None
    else
      var desc := if description.Some? && description.value != ""
                  then Some(Take(description.value, 500)) else None;
      if name in settings then
        Some(settings[name := BotSetting(Some(value.value),
                                         if desc.Some? then desc else settings[name].description)])
      else if Take(name, 100) in settings then None
      else Some(settings[Take(name, 100) := BotSetting(Some(value.value), desc)])
  }

  /** `update_setting(name, value, description)` on the store; returns what it returns. */
  method UpdateSetting(db: BotDb, name: string, value: Numeric, description: Option<string>)
    returns (ok: bool)
    requires db.Valid()
    modifies db`settings
    ensures db.Valid()
    ensures ok == SettingUpdate(old(db.settings), name, value, description).Some?
    ensures db.settings == if ok then SettingUpdate(old(db.settings), name, value, description).value
                           else old(db.settings)
  {
    if name == "" {
      return false;
    }
    if value.NonNumeric? {
      return false;
    }
    if name in db.settings {
      var row := db.settings[name];
      row := row.(value := Some(value.value));
      if description.Some? && description.value != "" {
        row := row.(description := Some(Take(description.value, 500)));
      }
      db.settings := db.settings[name := row];
    } else {
      var key := Take(name, 100);
      if key in db.settings {
        // the insert violates the unique constraint on setting_name: rolled back
        return false;
      }
      var desc := if description.Some? && description.value != ""
                  then Some(Take(description.value, 500)) else None;
      db.settings := db.settings[key := BotSetting(Some(value.value), desc)];
    }
    ok := true;
  }

  /** An empty name or a non-numeric value is refused and changes nothing. */
  lemma UpdateSettingRejects(settings: map<string, BotSetting>, name: string, value: Numeric,
                             description: Option<string>)
    ensures SettingUpdate(settings, name, value, description).None?
            <==> (name == "" || value.NonNumeric?
                  || (name !in settings && Take(name, 100) in settings))
  {
  }

  /** After a successful update of a name of at most 100 characters, `get_setting`
      returns the stored value; every other setting keeps its value. */
  lemma SettingRoundTrip(settings: map<string, BotSetting>, name: string, value: real,
                         description: Option<string>, other: string, default: real)
    requires |name| <= 100
    requires SettingUpdate(settings, name, Num(value), description).Some?
    ensures GetSetting(SettingUpdate(settings, name, Num(value), description).value,
                       name, default) == value
    ensures other != name ==>
              GetSetting(SettingUpdate(settings, name, Num(value), description).value,
                         other, default) == GetSetting(settings, other, default)
  {
    assert Take(name, 100) == name;
  }

  /** An update of an existing row keeps its description unless a new one is given,
      and a new description is cut to 500 characters. */
  lemma UpdateSettingDescription(settings: map<string, BotSetting>, name: string, value: real,
                                 description: Option<string>)
    requires name != "" && name in settings
    ensures var m := SettingUpdate(settings, name, Num(value), description);
            m.Some? && name in m.value
            && m.value[name].description
               == (if description.Some? && description.value != ""
                   then Some(Take(description.value, 500)) else settings[name].description)
  {
  }

  /** A name longer than 100 characters is stored under its first 100 characters, where
      `get_setting` with the full name does not find it. */
  lemma LongNameIsNotReadBack(settings: map<string, BotSetting>, name: string, value: real,
                              default: real)
    requires |name| > 100 && name !in settings && Take(name, 100) !in settings
    ensures var m := SettingUpdate(settings, name, Num(value), None);
            m.Some? && name !in m.value && GetSetting(m.value, name, default) == default
  {
    assert Take(name, 100) != name;
  }

  // ---------------------------------------------------------------- create_tables

  datatype DefaultSetting = DefaultSetting(name: string, value: real, description: string)

  // the entries of `default_settings`: name, value and description
  const WelcomeCreditDefault: DefaultSetting := DefaultSetting("welcome_credit", 10.0, "Credits given to new users")
  const TtsChargeDefault: DefaultSetting := DefaultSetting("tts_charge", 0.05, "Credits charged per word for TTS")
  const EarnCreditDefault: DefaultSetting := DefaultSetting("earn_credit", 1.0, "Credits earned per short link process")
  const BotActiveDefault: DefaultSetting := DefaultSetting("bot_active", 1.0, "Bot active/inactive status")
  const MinPaymentDefault: DefaultSetting := DefaultSetting("min_payment_amount", 10.0, "Minimum payment amount in rupees")
  const MaxPaymentDefault: DefaultSetting := DefaultSetting("max_payment_amount", 100.0, "Maximum payment amount in rupees")
  const PaymentRateDefault: DefaultSetting := DefaultSetting("payment_rate", 10.0, "Credits per 1 rupee (10 credits per rupee)")

  /** The `default_settings` list of `create_tables`, in its order. */
  function DefaultSettings(): seq<DefaultSetting>
  {
    [ WelcomeCreditDefault, TtsChargeDefault, EarnCreditDefault, BotActiveDefault,
      MinPaymentDefault, MaxPaymentDefault, PaymentRateDefault ]
  }

  function InsertMissing(settings: map<string, BotSetting>, d: DefaultSetting): map<string, BotSetting>
  {
    if d.name in settings then settings
    else settings[d.name := BotSetting(Some(d.value), Some(d.description))]
  }

  /** The settings table after inserting, in order, every default whose name is missing. */
  function WithDefaults(settings: map<string, BotSetting>, ds: seq<DefaultSetting>): map<string, BotSetting>
    decreases |ds|
  {
    if |ds| == 0 then settings else InsertMissing(WithDefaults(settings, ds[..|ds| - 1]), ds[|ds| - 1])
  }

  /** How many of the defaults the loop inserts. */
  function MissingCount(settings: map<string, BotSetting>, ds: seq<DefaultSetting>): nat
    decreases |ds|
  {
    if |ds| == 0 then 0
    else MissingCount(settings, ds[..|ds| - 1])
         + (if ds[|ds| - 1].name in WithDefaults(settings, ds[..|ds| - 1]) then 0 else 1)
  }

  /** The defaults never overwrite a stored setting, every default name is present
      afterwards, and the keys added are exactly default names. */
  lemma {:induction false} WithDefaultsProperties(settings: map<string, BotSetting>,
                                                 ds: seq<DefaultSetting>)
    ensures forall n :: n in settings ==>
              (n in WithDefaults(settings, ds) && WithDefaults(settings, ds)[n] == settings[n])
    ensures forall i :: 0 <= i < |ds| ==> ds[i].name in WithDefaults(settings, ds)
    ensures forall n :: n in WithDefaults(settings, ds) && n !in settings ==>
              exists i :: 0 <= i < |ds| && ds[i].name == n
    decreases |ds|
  {
    if |ds| > 0 {
      var init := ds[..|ds| - 1];
      WithDefaultsProperties(settings, init);
      forall n | n in WithDefaults(settings, ds) && n !in settings
        ensures exists i :: 0 <= i < |ds| && ds[i].name == n
      {
        if n !in WithDefaults(settings, init) {
          assert ds[|ds| - 1].name == n;
        } else {
          var i :| 0 <= i < |init| && init[i].name == n;
          assert ds[i].name == n;
        }
      }
      forall i | 0 <= i < |ds| ensures ds[i].name in WithDefaults(settings, ds) {
        if i < |ds| - 1 { assert init[i] == ds[i]; }
      }
    }
  }

  /** Nothing is inserted when every default name is already stored. */
  lemma {:induction false} WithDefaultsComplete(settings: map<string, BotSetting>,
                                               ds: seq<DefaultSetting>)
    requires forall i :: 0 <= i < |ds| ==> ds[i].name in settings
    ensures WithDefaults(settings, ds) == settings
    ensures MissingCount(settings, ds) == 0
    decreases |ds|
  {
    if |ds| > 0 {
      WithDefaultsComplete(settings, ds[..|ds| - 1]);
      assert ds[..|ds| - 1][..] == ds[..|ds| - 1];
    }
  }

  /** The result of `create_tables`: True exactly when something was created by this call. */
  function CreateTablesResult(tablesCreated: bool, settingsCreated: nat,
                              statusCreated: bool, qrCreated: bool): bool
  {
    tablesCreated || settingsCreated > 0 || statusCreated || qrCreated
  }

  /** The QR-code row `create_tables` inserts when there is none. */
  function DefaultQrSettings(): QrCodeSettings
  {
    QrCodeSettings("https://via.placeholder.com/300x300.png?text=QR+CODE+PLACEHOLDER",
                   "1234567890@paytm", "Bot Owner", true)
  }

  /** The default-settings loop of `create_tables`: each default whose name is missing
      is inserted, in order; returns how many were. */
  method InsertDefaults(db: BotDb, ds: seq<DefaultSetting>) returns (inserted: nat)
    requires db.Valid()
    modifies db`settings
    ensures db.Valid()
    ensures db.settings == WithDefaults(old(db.settings), ds)
    ensures inserted == MissingCount(old(db.settings), ds)
  {
    inserted := 0;
    for i := 0 to |ds|
      invariant db.settings == WithDefaults(old(db.settings), ds[..i])
      invariant inserted == MissingCount(old(db.settings), ds[..i])
    {
      assert ds[..i + 1][..i] == ds[..i];
      var d := ds[i];
      if d.name !in db.settings {
        db.settings := db.settings[d.name := BotSetting(Some(d.value), Some(d.description))];
        inserted := inserted + 1;
      }
    }
    assert ds[..|ds|] == ds;
  }

  /** `create_tables` over an existing schema: the QR-code defaults, the missing default
      settings and the bot status are each inserted only when absent. Returns whether
      anything was created. A schema that had to be created is passed in as
      `tablesCreated`. */
  method CreateTables(db: BotDb, tablesCreated: bool) returns (created: bool)
    requires db.Valid()
    modifies db`settings, db`qrSettings, db`botStatus
    ensures db.Valid()
    ensures db.settings == WithDefaults(old(db.settings), DefaultSettings())
    ensures db.qrSettings == (if old(db.qrSettings).None?
                              then Some(DefaultQrSettings())
                              else old(db.qrSettings))
    ensures db.botStatus == (if old(db.botStatus).None? then Some(BotStatus(true)) else old(db.botStatus))
    ensures created == CreateTablesResult(tablesCreated, MissingCount(old(db.settings), DefaultSettings()),
                                          old(db.botStatus).None?, old(db.qrSettings).None?)
  {
    var defaults := DefaultSettings();
    var settingsCreated := 0;
    var statusCreated := false;
    var qrCreated := false;

    if db.qrSettings.None? {
      db.qrSettings := Some(DefaultQrSettings());
      qrCreated := true;
    }

    settingsCreated := InsertDefaults(db, defaults);

    if db.botStatus.None? {
      db.botStatus := Some(BotStatus(true));
      statusCreated := true;
    }

    created := tablesCreated || settingsCreated > 0 || statusCreated || qrCreated;
  }

  /** Running the initialisation a second time over an existing schema creates nothing
      and reports False. */
  lemma CreateTablesIdempotent(settings: map<string, BotSetting>)
    ensures WithDefaults(WithDefaults(settings, DefaultSettings()), DefaultSettings())
            == WithDefaults(settings, DefaultSettings())
    ensures !CreateTablesResult(false, MissingCount(WithDefaults(settings, DefaultSettings()),
                                                    DefaultSettings()), false, false)
  {
    WithDefaultsProperties(settings, DefaultSettings());
    WithDefaultsComplete(WithDefaults(settings, DefaultSettings()), DefaultSettings());
  }
}
