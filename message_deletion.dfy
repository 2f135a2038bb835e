/** The message deletion service: the keyword classifier that picks a message's type,
    the callback-prefix grouping, the per-type deletion delays, and the bookkeeping of the
    service (the map of scheduled deletion tasks, the running flag, and the
    `message_tracking` rows it writes through its sessions). Sending and deleting Telegram
    messages and the timers themselves are not modelled; whether Telegram accepts a
    deletion is a parameter. */
module MessageDeletion {
  import opened Common

  // ---------------------------------------------------------------- message types

  /** The `MessageType` names; any other name a caller passes is `Unlisted`. */
  datatype MessageType =
    | Status | Prompt | Error | Menu | Info | TtsResult | Payment | Admin | Welcome | Help | Permanent
    | Unlisted(name: string)

  function TypeName(t: MessageType): string
  {
    match t
    case Status => "status"
    case Prompt => "prompt"
    case Error => "error"
    case Menu => "menu"
    case Info => "info"
    case TtsResult => "tts_result"
    case Payment => "payment"
    case Admin => "admin"
    case Welcome => "welcome"
    case Help => "help"
    case Permanent => "permanent"
    case Unlisted(n) => n
  }

  predicate IsKnownName(name: string)
  {
    name in {"status", "prompt", "error", "menu", "info", "tts_result", "payment", "admin",
             "welcome", "help", "permanent"}
  }

  /** The type a name stands for. */
  function FromName(name: string): MessageType
  {
    if name == "status" then Status
    else if name == "prompt" then Prompt
    else if name == "error" then Error
    else if name == "menu" then Menu
    else if name == "info" then Info
    else if name == "tts_result" then TtsResult
    else if name == "payment" then Payment
    else if name == "admin" then Admin
    else if name == "welcome" then Welcome
    else if name == "help" then Help
    else if name == "permanent" then Permanent
    else Unlisted(name)
  }

  /** Names and types correspond one to one: every type reads back from its name, and
      every name is the name of the type it reads as. */
  lemma NameRoundTrip(t: MessageType, name: string)
    requires t.Unlisted? ==> !IsKnownName(t.name)
    ensures FromName(TypeName(t)) == t
    ensures TypeName(FromName(name)) == name
    ensures FromName(name).Unlisted? <==> !IsKnownName(name)
  {
  }

  /** The `deletion_timings` table, with 30 seconds for a name it does not list. */
  function Timing(t: MessageType): (seconds: nat)
    ensures seconds == 0 <==> t == TtsResult || t == Permanent
    ensures t.Unlisted? ==> seconds == 30
  {
    match t
    case Status => 10
    case Prompt => 30
    case Error => 15
    case Menu => 60
    case Info => 45
    case TtsResult => 0
    case Payment => 8
    case Admin => 20
    case Welcome => 300
    case Help => 180
    case Permanent => 0
    case Unlisted(_) => 30
  }

  /** `custom_delay or deletion_timings.get(message_type, 30)`. */
  function DeleteAfter(t: MessageType, customDelay: Option<int>): int
  {
    if customDelay.Some? && customDelay.value != 0 then customDelay.value else Timing(t)
  }

  /** A custom delay overrides the table unless it is missing or zero: a custom delay of
      0 does not mean "never" but falls back to the type's own delay. Without a custom
      delay, only TTS results and permanent messages get no scheduled deletion task. */
  lemma DeleteAfterChoice(t: MessageType, customDelay: Option<int>)
    ensures customDelay.Some? && customDelay.value != 0 ==> DeleteAfter(t, customDelay) == customDelay.value
    ensures DeleteAfter(t, Some(0)) == DeleteAfter(t, None) == Timing(t)
    ensures DeleteAfter(t, None) == 0 <==> t == TtsResult || t == Permanent
  {
  }

  // ---------------------------------------------------------------- classifier

  /** Whether any of the words occurs in the text. */
  predicate AnyWord(t: string, words: seq<string>)
  {
    exists i :: 0 <= i < |words| && Contains(t, words[i])
  }

  const PaymentWords: seq<string> := ["payment", "rupees", "transaction", "qr code", "screenshot"]
  const AdminWords: seq<string> := ["owner", "admin", "control panel", "master"]
  const ErrorWords: seq<string> := ["error", "failed", "invalid", "kuch galat", "technical issue"]
  const StatusWords: seq<string> := ["success", "completed", "confirmed", "done", "saved", "updated"]
  const PromptWords: seq<string> := ["send", "enter", "type", "provide", "kripaya", "bheje"]
  const WelcomeWords: seq<string> := ["welcome", "namaste", "namaskar", "hello"]
  const HelpWords: seq<string> := ["help", "guide", "how to", "instructions"]
  const TtsWords: seq<string> := ["audio", "voice", "tts", "speech"]
  const MenuWords: seq<string> := ["select", "choose", "option", "menu"]

  /** Python truthiness of an optional string. */
  predicate Given(s: Option<string>)
  {
    s.Some? && s.value != ""
  }

  /** `classify_message_type(text, callback_data, is_owner)`: the first keyword group
      found in the lower-cased text decides; an owner's message is an admin message
      unless it mentions payments; any callback data makes an otherwise unmatched
      message a menu. */
  function Classify(text: string, callbackData: Option<string>, isOwner: bool): (r: MessageType)
    ensures text == "" ==> r == Info
    ensures r != Permanent && !r.Unlisted?
  {
    if text == "" then Info
    else
      var t := Lower(text);
      if AnyWord(t, PaymentWords) then Payment
      else if isOwner || AnyWord(t, AdminWords) then Admin
      else if AnyWord(t, ErrorWords) then Error
      else if AnyWord(t, StatusWords) then Status
      else if AnyWord(t, PromptWords) then Prompt
      else if AnyWord(t, WelcomeWords) then Welcome
      else if AnyWord(t, HelpWords) then Help
      else if AnyWord(t, TtsWords) then TtsResult
      else if Given(callbackData) || AnyWord(t, MenuWords) then Menu
      else Info
  }

  /** The keyword groups in the order the classifier tries them. */
  function KeywordGroups(): seq<(MessageType, seq<string>)>
  {
    [(Payment, PaymentWords), (Admin, AdminWords), (Error, ErrorWords), (Status, StatusWords),
     (Prompt, PromptWords), (Welcome, WelcomeWords), (Help, HelpWords), (TtsResult, TtsWords),
     (Menu, MenuWords)]
  }

  /** Whether group `k` claims a (lower-cased) text; the owner flag joins the admin
      group and callback data the menu group. */
  predicate GroupMatches(k: nat, t: string, callbackGiven: bool, isOwner: bool)
    requires k < |KeywordGroups()|
  {
    AnyWord(t, KeywordGroups()[k].1) || (k == 1 && isOwner) || (k == 8 && callbackGiven)
  }

  /** The classifier's priority: a non-empty text gets the type of group `k` exactly
      when group `k` matches and no earlier group does, and it is `info` exactly when no
      group matches. */
  lemma ClassifyPriority(text: string, callbackData: Option<string>, isOwner: bool, k: nat)
    requires text != "" && k < |KeywordGroups()|
    ensures var t := Lower(text);
            var cb := Given(callbackData);
            && (Classify(text, callbackData, isOwner) == KeywordGroups()[k].0
                <==> GroupMatches(k, t, cb, isOwner) && forall j :: 0 <= j < k ==> !GroupMatches(j, t, cb, isOwner))
            && (Classify(text, callbackData, isOwner) == Info
                <==> forall j :: 0 <= j < |KeywordGroups()| ==> !GroupMatches(j, t, cb, isOwner))
  {
    ClassifyByGroups(text, callbackData, isOwner);
  }

  /** The classifier's if-chain, read group by group. */
  lemma ClassifyByGroups(text: string, callbackData: Option<string>, isOwner: bool)
    requires text != ""
    ensures var t := Lower(text);
            var cb := Given(callbackData);
            Classify(text, callbackData, isOwner)
            == if GroupMatches(0, t, cb, isOwner) then Payment
               else if GroupMatches(1, t, cb, isOwner) then Admin
               else if GroupMatches(2, t, cb, isOwner) then Error
               else if GroupMatches(3, t, cb, isOwner) then Status
               else if GroupMatches(4, t, cb, isOwner) then Prompt
               else if GroupMatches(5, t, cb, isOwner) then Welcome
               else if GroupMatches(6, t, cb, isOwner) then Help
               else if GroupMatches(7, t, cb, isOwner) then TtsResult
               else if GroupMatches(8, t, cb, isOwner) then Menu
               else Info
  {
    var t := Lower(text);
    var cb := Given(callbackData);
    var g := KeywordGroups();
    assert g[0].1 == PaymentWords && g[1].1 == AdminWords && g[2].1 == ErrorWords;
    assert g[3].1 == StatusWords && g[4].1 == PromptWords && g[5].1 == WelcomeWords;
    assert g[6].1 == HelpWords && g[7].1 == TtsWords && g[8].1 == MenuWords;
  }

  /** An owner's message is an admin message unless it mentions payments, and a
      payment keyword wins over everything else. */
  lemma PaymentBeforeOwner(text: string, callbackData: Option<string>, isOwner: bool)
    requires text != ""
    ensures AnyWord(Lower(text), PaymentWords) ==> Classify(text, callbackData, isOwner) == Payment
    ensures isOwner && !AnyWord(Lower(text), PaymentWords) ==> Classify(text, callbackData, isOwner) == Admin
  {
  }

  /** The classifier ignores case: a lower-cased text is classified like the original. */
  lemma ClassifyIgnoresCase(text: string, callbackData: Option<string>, isOwner: bool)
    ensures Classify(Lower(text), callbackData, isOwner) == Classify(text, callbackData, isOwner)
  {
    LowerIdempotent(text);
  }

  // ---------------------------------------------------------------- callback contexts

  predicate StartsWithAny(s: string, prefixes: seq<string>)
  {
    exists i :: 0 <= i < |prefixes| && StartsWith(s, prefixes[i])
  }

  const PaymentPrefixes: seq<string> := ["buy_credit", "payment", "confirm_payment", "cancel_payment"]
  const OwnerPrefixes: seq<string> := ["owner_", "back_to_owner"]
  const UserPrefixes: seq<string> := ["user_", "back_to_user"]
  const SettingsPrefixes: seq<string> := ["settings_"]
  const TtsPrefixes: seq<string> := ["tts_", "voice_"]
  const CreditPrefixes: seq<string> := ["credit", "referral"]

  /** `get_context_from_callback(callback_data)`. */
  function ContextFromCallback(data: string): (ctx: string)
    ensures data == "" ==> ctx == "general"
    ensures ctx in {"general", "payment_flow", "owner_panel", "user_panel", "settings", "tts_flow", "credit_system"}
  {
    if data == "" then "general"
    else if StartsWithAny(data, PaymentPrefixes) then "payment_flow"
    else if StartsWithAny(data, OwnerPrefixes) then "owner_panel"
    else if StartsWithAny(data, UserPrefixes) then "user_panel"
    else if StartsWithAny(data, SettingsPrefixes) then "settings"
    else if StartsWithAny(data, TtsPrefixes) then "tts_flow"
    else if StartsWithAny(data, CreditPrefixes) then "credit_system"
    else "general"
  }

  /** The prefix groups in the order they are tried. */
  function ContextGroups(): seq<(string, seq<string>)>
  {
    [("payment_flow", PaymentPrefixes), ("owner_panel", OwnerPrefixes), ("user_panel", UserPrefixes),
     ("settings", SettingsPrefixes), ("tts_flow", TtsPrefixes), ("credit_system", CreditPrefixes)]
  }

  /** The first prefix group that matches decides the context, and data no group
      matches is `general`. */
  lemma ContextPriority(data: string, k: nat)
    requires k < |ContextGroups()|
    ensures var g := ContextGroups();
            && (ContextFromCallback(data) == g[k].0
                <==> StartsWithAny(data, g[k].1) && forall j :: 0 <= j < k ==> !StartsWithAny(data, g[j].1))
            && (ContextFromCallback(data) == "general"
                <==> forall j :: 0 <= j < |g| ==> !StartsWithAny(data, g[j].1))
  {
    var g := ContextGroups();
    assert g[0].1 == PaymentPrefixes && g[1].1 == OwnerPrefixes && g[2].1 == UserPrefixes;
    assert g[3].1 == SettingsPrefixes && g[4].1 == TtsPrefixes && g[5].1 == CreditPrefixes;
    if data == "" {
      forall j | 0 <= j < |g| ensures !StartsWithAny(data, g[j].1) {
        var ps := g[j].1;
        forall i | 0 <= i < |ps| ensures !StartsWith(data, ps[i]) {
          assert |ps[i]| > 0;
        }
      }
    }
  }

  /** A prefix of a prefix is a prefix. */
  lemma StartsWithTrans(s: string, p: string, q: string)
    requires StartsWith(s, p + q)
    ensures StartsWith(s, p)
  {
    assert s[..|p|] == (p + q)[..|p|];
  }

  /** The owner's payment buttons are grouped with the payment flow. */
  lemma PaymentButtonsInPaymentFlow(data: string)
    requires StartsWith(data, "confirm_payment_") || StartsWith(data, "cancel_payment_")
    ensures ContextFromCallback(data) == "payment_flow"
  {
    if StartsWith(data, "confirm_payment_") {
      assert "confirm_payment_" == "confirm_payment" + "_";
      StartsWithTrans(data, "confirm_payment", "_");
      assert StartsWith(data, PaymentPrefixes[2]);
    } else {
      assert "cancel_payment_" == "cancel_payment" + "_";
      StartsWithTrans(data, "cancel_payment", "_");
      assert StartsWith(data, PaymentPrefixes[3]);
    }
  }

  // ---------------------------------------------------------------- tracking rows and tasks

  /** A row of `message_tracking`. */
  datatype TrackingRow = TrackingRow(
    id: nat,
    chatId: int,
    messageId: int,
    userId: Option<int>,
    messageType: string,
    deleteAfterSeconds: int,
    scheduledDeleteAt: int,
    relatedMessageId: Option<int>,
    context: Option<string>,
    isDeleted: bool,
    deleteAttemptedAt: Option<int>,
    deleteError: Option<string>,
    createdAt: int)

  /** A scheduled deletion: what the task was started with. */
  datatype Task = Task(chatId: int, messageId: int, delay: int, trackingId: nat)

  /** The key of `_deletion_tasks`: `f"{chat_id}_{msg_id}"`. */
  function TaskKey(chatId: int, messageId: int): string
  {
    IntToString(chatId) + "_" + IntToString(messageId)
  }

  /** Distinct messages never share a task key, since a number's text holds no `_`. */
  lemma TaskKeyInjective(c1: int, m1: int, c2: int, m2: int)
    requires TaskKey(c1, m1) == TaskKey(c2, m2)
    ensures c1 == c2 && m1 == m2
  {
    var a1, a2 := IntToString(c1), IntToString(c2);
    var key := TaskKey(c1, m1);
    UnderscoreAt(a1, IntToString(m1));
    UnderscoreAt(a2, IntToString(m2));
    assert |a1| == |a2|;
    assert a1 == key[..|a1|] && a2 == key[..|a2|];
    assert IntToString(m1) == key[|a1| + 1..] && IntToString(m2) == key[|a2| + 1..];
    IntRoundTrip(c1);
    IntRoundTrip(c2);
    IntRoundTrip(m1);
    IntRoundTrip(m2);
  }

  /** In a number's text followed by `_`, the first `_` is the one after the number. */
  lemma UnderscoreAt(a: string, b: string)
    requires forall i :: 0 <= i < |a| ==> IsAsciiDigit(a[i]) || a[i] == '-'
    ensures FindChar(a + "_" + b, '_') == |a|
  {
    var s := a + "_" + b;
    var i := FindChar(s, '_');
    assert s[|a|] == '_';
  }

  /** The message a tracking call names: a Telegram message, or a bare message id. */
  datatype MessageRef =
    | MessageObject(id: int, chat: int, fromUser: Option<int>, text: Option<string>)
    | BareId(id: int)

  /** What `track_message` decides to do before it touches the table. */
  datatype TrackPlan =
    | Refused
    | SkippedPermanent
    | Store(chatId: int, messageId: int, userId: Option<int>, deleteAfter: int)

  predicate Truthy(x: Option<int>)
  {
    x.Some? && x.value != 0
  }

  /** The decision of `track_message`. A bare id needs a chat id; a Telegram message
      brings its chat and, when no user is given, its sender. Permanent messages are
      acknowledged without being stored. */
  function PlanTracking(message: MessageRef, chatId: Option<int>, messageType: string,
                        userId: Option<int>, customDelay: Option<int>): (p: TrackPlan)
    ensures p.Refused? <==> message.BareId? && !Truthy(chatId)
    ensures p.SkippedPermanent? <==> !p.Refused? && messageType == "permanent"
    ensures p.Store? ==>
              && p.messageId == message.id
              && p.chatId == (if message.MessageObject? then message.chat else chatId.value)
              && p.deleteAfter == DeleteAfter(FromName(messageType), customDelay)
              && (p.userId == userId
                  || (message.MessageObject? && !Truthy(userId) && p.userId == message.fromUser))
              && (message.MessageObject? && !Truthy(userId) && message.fromUser.Some?
                  ==> p.userId == message.fromUser)
  {
    match message
    case MessageObject(id, chat, fromUser, _) =>
      var user := if !Truthy(userId) && fromUser.Some? then fromUser else userId;
      if messageType == "permanent" then SkippedPermanent
      else Store(chat, id, user, DeleteAfter(FromName(messageType), customDelay))
    case BareId(id) =>
      if !Truthy(chatId) then Refused
      else if messageType == "permanent" then SkippedPermanent
      else Store(chatId.value, id, userId, DeleteAfter(FromName(messageType), customDelay))
  }

  /** Only the permanent type skips storage, and a stored message is scheduled exactly
      when its delay is positive; a known type without a custom delay is scheduled
      unless it is a TTS result. */
  lemma TrackingSchedules(message: MessageRef, chatId: Option<int>, t: MessageType, userId: Option<int>)
    requires !t.Unlisted? && t != Permanent
    requires message.MessageObject? || Truthy(chatId)
    ensures var p := PlanTracking(message, chatId, TypeName(t), userId, None);
            p.Store? && (p.deleteAfter > 0 <==> t != TtsResult)
  {
  }

  /** The row `track_message` inserts for a stored plan. */
  function NewRow(id: nat, p: TrackPlan, messageType: string, relatedMessageId: Option<int>,
                  context: Option<string>, now: int): (r: TrackingRow)
    requires p.Store?
    ensures !r.isDeleted && r.deleteAttemptedAt.None? && r.deleteError.None?
    ensures r.scheduledDeleteAt == now + p.deleteAfter && r.createdAt == now && r.id == id
  {
    TrackingRow(id, p.chatId, p.messageId, p.userId, messageType, p.deleteAfter, now + p.deleteAfter,
                relatedMessageId, context, false, None, None, now)
  }

  /** The type `track_message_for_deletion` tracks a message as: the given type, or, for
      a Telegram message with classification on, its classified type (the owner flag set
      when a user id is given and it is the owner's), or `info`. */
  function ResolvedType(message: MessageRef, messageType: Option<string>, userId: Option<int>,
                        autoClassify: bool, ownerId: int): (name: string)
    ensures messageType.Some? ==> name == messageType.value
    ensures messageType.None? ==> name != "permanent"
  {
    if messageType.Some? then messageType.value
    else if autoClassify && message.MessageObject? then
      var isOwner := Truthy(userId) && userId.value == ownerId;
      var text := if message.text.Some? then message.text.value else "";
      var t := Classify(text, None, isOwner);
      NameRoundTrip(t, "");
      TypeName(t)
    else "info"
  }

  // ---------------------------------------------------------------- per-row updates

  /** A row whose message was deleted at `now`. */
  function MarkDeleted(r: TrackingRow, now: int): (r': TrackingRow)
    ensures r'.isDeleted && r'.deleteAttemptedAt == Some(now)
    ensures r'.id == r.id && r'.userId == r.userId && r'.chatId == r.chatId && r'.messageId == r.messageId
  {
    r.(isDeleted := true, deleteAttemptedAt := Some(now))
  }

  /** The first row in insertion order for a chat and message. */
  function FirstRowFor(rows: seq<TrackingRow>, chatId: int, messageId: int): (i: nat)
    ensures i <= |rows|
    ensures i < |rows| ==> rows[i].chatId == chatId && rows[i].messageId == messageId
    ensures forall j :: 0 <= j < i ==> !(rows[j].chatId == chatId && rows[j].messageId == messageId)
    decreases |rows|
  {
    if |rows| == 0 then 0
    else if rows[0].chatId == chatId && rows[0].messageId == messageId then 0
    else 1 + FirstRowFor(rows[1..], chatId, messageId)
  }

  /** The first row whose id is `id`. */
  function RowWithId(rows: seq<TrackingRow>, id: nat): (i: nat)
    ensures i <= |rows|
    ensures i < |rows| ==> rows[i].id == id
    ensures forall j :: 0 <= j < i ==> rows[j].id != id
    decreases |rows|
  {
    if |rows| == 0 then 0
    else if rows[0].id == id then 0
    else 1 + RowWithId(rows[1..], id)
  }

  /** The rows after `cancel_deletion`: the first row of the message, if any, is marked
      processed with the error "Deletion cancelled". */
  function CancelRow(rows: seq<TrackingRow>, chatId: int, messageId: int): (r: seq<TrackingRow>)
    ensures |r| == |rows| && forall j :: 0 <= j < |rows| ==> r[j].id == rows[j].id
    ensures var i := FirstRowFor(rows, chatId, messageId);
            && (i < |rows| ==> r[i] == rows[i].(isDeleted := true, deleteError := Some("Deletion cancelled")))
            && forall j :: 0 <= j < |rows| && j != i ==> r[j] == rows[j]
  {
    var i := FirstRowFor(rows, chatId, messageId);
    if i < |rows| then rows[i := rows[i].(isDeleted := true, deleteError := Some("Deletion cancelled"))]
    else rows
  }

  // ---------------------------------------------------------------- statistics

  function DeletedCount(rows: seq<TrackingRow>): nat
    decreases |rows|
  {
    if |rows| == 0 then 0 else DeletedCount(rows[..|rows| - 1]) + (if rows[|rows| - 1].isDeleted then 1 else 0)
  }

  function PendingCount(rows: seq<TrackingRow>): nat
    decreases |rows|
  {
    if |rows| == 0 then 0 else PendingCount(rows[..|rows| - 1]) + (if rows[|rows| - 1].isDeleted then 0 else 1)
  }

  /** Every tracked row is either deleted or pending. */
  lemma {:induction false} DeletedPlusPending(rows: seq<TrackingRow>)
    ensures DeletedCount(rows) + PendingCount(rows) == |rows|
    decreases |rows|
  {
    if |rows| > 0 {
      DeletedPlusPending(rows[..|rows| - 1]);
    }
  }

  /** Marking one pending row deleted moves it from pending to deleted. */
  lemma {:induction false} MarkOneRow(rows: seq<TrackingRow>, i: nat, r: TrackingRow)
    requires i < |rows| && !rows[i].isDeleted && r.isDeleted
    ensures PendingCount(rows[i := r]) == PendingCount(rows) - 1
    ensures DeletedCount(rows[i := r]) == DeletedCount(rows) + 1
    decreases |rows|
  {
    var n := |rows| - 1;
    if i < n {
      assert rows[i := r][..n] == rows[..n][i := r];
      MarkOneRow(rows[..n], i, r);
    } else {
      assert rows[i := r][..n] == rows[..n];
    }
  }

  /** Cancelling a pending message's deletion takes one row out of the pending count. */
  lemma CancelLeavesPending(rows: seq<TrackingRow>, chatId: int, messageId: int)
    ensures var i := FirstRowFor(rows, chatId, messageId);
            PendingCount(CancelRow(rows, chatId, messageId))
            == PendingCount(rows) - (if i < |rows| && !rows[i].isDeleted then 1 else 0)
  {
    var i := FirstRowFor(rows, chatId, messageId);
    if i < |rows| {
      var r := rows[i].(isDeleted := true, deleteError := Some("Deletion cancelled"));
      if !rows[i].isDeleted {
        MarkOneRow(rows, i, r);
      } else {
        SameFlagKeepsPending(rows, i, r);
      }
    }
  }

  /** Replacing a row by one with the same deleted flag keeps the pending count. */
  lemma {:induction false} SameFlagKeepsPending(rows: seq<TrackingRow>, i: nat, r: TrackingRow)
    requires i < |rows| && rows[i].isDeleted == r.isDeleted
    ensures PendingCount(rows[i := r]) == PendingCount(rows)
    decreases |rows|
  {
    var n := |rows| - 1;
    if i < n {
      assert rows[i := r][..n] == rows[..n][i := r];
      SameFlagKeepsPending(rows[..n], i, r);
    } else {
      assert rows[i := r][..n] == rows[..n];
    }
  }

  /** `get_stats()`. */
  datatype DeletionStats = DeletionStats(totalTracked: nat, successfullyDeleted: nat,
                                         pendingDeletion: nat, activeTasks: nat, serviceRunning: bool)

  // ---------------------------------------------------------------- related messages

  /** A row `delete_related_messages(user_id, context)` selects. */
  predicate Related(r: TrackingRow, userId: int, context: string)
  {
    r.userId == Some(userId) && r.context == Some(context) && !r.isDeleted
  }

  /** The rows after every related message has been deleted. */
  function MarkRelated(rows: seq<TrackingRow>, userId: int, context: string, now: int): (r: seq<TrackingRow>)
    ensures |r| == |rows|
    ensures forall i :: 0 <= i < |rows| ==> !Related(r[i], userId, context)
    ensures forall i :: 0 <= i < |rows| && !Related(rows[i], userId, context) ==> r[i] == rows[i]
    ensures forall i :: 0 <= i < |rows| && Related(rows[i], userId, context) ==> r[i] == MarkDeleted(rows[i], now)
  {
    seq(|rows|, i requires 0 <= i < |rows| =>
          if Related(rows[i], userId, context) then MarkDeleted(rows[i], now) else rows[i])
  }

  /** How many rows `delete_related_messages` selects. */
  function RelatedCount(rows: seq<TrackingRow>, userId: int, context: string): (n: nat)
    ensures n <= PendingCount(rows)
    decreases |rows|
  {
    if |rows| == 0 then 0
    else RelatedCount(rows[..|rows| - 1], userId, context) + (if Related(rows[|rows| - 1], userId, context) then 1 else 0)
  }

  /** Deleting the related messages moves exactly the selected rows from pending to
      deleted. */
  lemma {:induction false} MarkRelatedPending(rows: seq<TrackingRow>, userId: int, context: string, now: int)
    ensures PendingCount(MarkRelated(rows, userId, context, now)) == PendingCount(rows) - RelatedCount(rows, userId, context)
    decreases |rows|
  {
    if |rows| > 0 {
      var n := |rows| - 1;
      assert MarkRelated(rows, userId, context, now)[..n] == MarkRelated(rows[..n], userId, context, now);
      MarkRelatedPending(rows[..n], userId, context, now);
    }
  }

  // ---------------------------------------------------------------- conversation cleanup

  /** A row `cleanup_conversation(user_id, ...)` selects. */
  predicate OwnedPending(r: TrackingRow, userId: int)
  {
    r.userId == Some(userId) && !r.isDeleted
  }

  /** The indices of the user's undeleted rows among the first `k`, oldest first. */
  function PendingFor(rows: seq<TrackingRow>, userId: int, k: nat): (r: seq<nat>)
    requires k <= |rows|
    ensures forall j :: 0 <= j < |r| ==> r[j] < k && OwnedPending(rows[r[j]], userId)
    ensures forall j, l :: 0 <= j < l < |r| ==> r[j] < r[l]
    ensures forall i :: 0 <= i < k && OwnedPending(rows[i], userId) ==> i in r
    decreases k
  {
    if k == 0 then []
    else PendingFor(rows, userId, k - 1) + (if OwnedPending(rows[k - 1], userId) then [k - 1] else [])
  }

  /** The user's undeleted messages, newest first. */
  function NewestFirst(rows: seq<TrackingRow>, userId: int): seq<nat>
  {
    Reverse(PendingFor(rows, userId, |rows|))
  }

  /** Python's `s[n:]` for any integer `n`. */
  function SliceFrom<T>(s: seq<T>, n: int): (r: seq<T>)
    ensures n >= 0 ==> r == if n <= |s| then s[n..] else []
    ensures n < 0 ==> r == if -n <= |s| then s[|s| + n..] else s
  {
    if n >= 0 then (if n <= |s| then s[n..] else [])
    else if -n <= |s| then s[|s| + n..] else s
  }

  /** `user_messages[keep_last_n:] if len(user_messages) > keep_last_n else []`. */
  function CleanupTargets(rows: seq<TrackingRow>, userId: int, keepLastN: int): seq<nat>
  {
    var ms := NewestFirst(rows, userId);
    if |ms| > keepLastN then SliceFrom(ms, keepLastN) else []
  }

  /** Keep-last-N: for `N >= 0` the newest `N` undeleted messages of the user are kept
      and every other one is a target; every kept message is newer than every target.
      A negative `N` makes the slice count from the end instead, so only the `-N`
      oldest messages are targets. */
  lemma KeepLastN(rows: seq<TrackingRow>, userId: int, keepLastN: int)
    ensures var ms := NewestFirst(rows, userId);
            var targets := CleanupTargets(rows, userId, keepLastN);
            && (keepLastN >= 0 ==>
                  && |targets| == (if |ms| > keepLastN then |ms| - keepLastN else 0)
                  && ms == Take(ms, keepLastN) + targets
                  && (forall a, b :: 0 <= a < |Take(ms, keepLastN)| && 0 <= b < |targets|
                        ==> Take(ms, keepLastN)[a] > targets[b]))
            && (keepLastN < 0 ==>
                  targets == (if -keepLastN <= |ms| then ms[|ms| + keepLastN..] else ms))
  {
    var asc := PendingFor(rows, userId, |rows|);
    var ms := NewestFirst(rows, userId);
    assert forall j, l :: 0 <= j < l < |ms| ==> ms[j] > ms[l];
    var targets := CleanupTargets(rows, userId, keepLastN);
    if keepLastN >= 0 && |ms| > keepLastN {
      assert targets == ms[keepLastN..];
      assert Take(ms, keepLastN) == ms[..keepLastN];
      assert ms == ms[..keepLastN] + ms[keepLastN..];
    }
  }

  /** Every cleanup target is an undeleted row of the user. */
  lemma CleanupTargetsPending(rows: seq<TrackingRow>, userId: int, keepLastN: int)
    ensures forall b :: 0 <= b < |CleanupTargets(rows, userId, keepLastN)| ==>
              CleanupTargets(rows, userId, keepLastN)[b] < |rows|
              && OwnedPending(rows[CleanupTargets(rows, userId, keepLastN)[b]], userId)
  {
    var ms := NewestFirst(rows, userId);
    var targets := CleanupTargets(rows, userId, keepLastN);
    forall b | 0 <= b < |targets| ensures targets[b] < |rows| && OwnedPending(rows[targets[b]], userId) {
      assert targets[b] in ms;
    }
  }

  /** The rows after the cleanup loop: a target whose message Telegram deleted is
      marked; a failed deletion is ignored and leaves its row alone. */
  function ApplyCleanup(rows: seq<TrackingRow>, targets: seq<nat>, deletable: (int, int) -> bool,
                        now: int): (r: seq<TrackingRow>)
    ensures |r| == |rows|
    ensures forall i :: 0 <= i < |rows| ==>
              r[i] == if i in targets && deletable(rows[i].chatId, rows[i].messageId)
                      then MarkDeleted(rows[i], now) else rows[i]
  {
    seq(|rows|, i requires 0 <= i < |rows| =>
          if i in targets && deletable(rows[i].chatId, rows[i].messageId) then MarkDeleted(rows[i], now)
          else rows[i])
  }

  /** The deletion loop of `cleanup_conversation`: each target's message is deleted in
      turn and its row marked when the deletion succeeds. */
  method MarkTargets(rows: seq<TrackingRow>, targets: seq<nat>, deletable: (int, int) -> bool, now: int)
    returns (staged: seq<TrackingRow>)
    requires forall b :: 0 <= b < |targets| ==> targets[b] < |rows|
    ensures staged == ApplyCleanup(rows, targets, deletable, now)
  {
    staged := rows;
    var j := 0;
    while j < |targets|
      invariant 0 <= j <= |targets|
      invariant staged == ApplyCleanup(rows, targets[..j], deletable, now)
    {
      var t := targets[j];
      assert targets[..j + 1] == targets[..j] + [t];
      CleanupStep(rows, targets[..j], t, deletable, now);
      if deletable(staged[t].chatId, staged[t].messageId) {
        staged := staged[t := MarkDeleted(staged[t], now)];
      }
      j := j + 1;
    }
    assert targets[..j] == targets;
  }

  /** One more target: its row is marked when its message is deleted, whether or not an
      earlier step already marked it. */
  lemma CleanupStep(rows: seq<TrackingRow>, ts: seq<nat>, t: nat, deletable: (int, int) -> bool, now: int)
    requires t < |rows|
    ensures var before := ApplyCleanup(rows, ts, deletable, now);
            ApplyCleanup(rows, ts + [t], deletable, now)
            == if deletable(before[t].chatId, before[t].messageId)
               then before[t := MarkDeleted(before[t], now)] else before
  {
    var before := ApplyCleanup(rows, ts, deletable, now);
    var after := ApplyCleanup(rows, ts + [t], deletable, now);
    assert forall i :: i in ts + [t] <==> i in ts || i == t;
    var expected := if deletable(before[t].chatId, before[t].messageId)
                    then before[t := MarkDeleted(before[t], now)] else before;
    assert forall i :: 0 <= i < |rows| ==> after[i] == expected[i];
  }

  // ---------------------------------------------------------------- scheduled deletion

  /** How a scheduled deletion task ended. */
  datatype DeletionOutcome = Deleted | Cancelled | Failed(error: string)

  /** The rows after a scheduled deletion task ends: on success its row is marked
      deleted; on failure the attempt and the error are recorded; a cancelled task
      changes nothing. */
  function FinishRow(rows: seq<TrackingRow>, trackingId: nat, outcome: DeletionOutcome, now: int)
    : (r: seq<TrackingRow>)
    ensures |r| == |rows|
    ensures forall j :: 0 <= j < |rows| && j != RowWithId(rows, trackingId) ==> r[j] == rows[j]
    ensures forall j :: 0 <= j < |rows| ==> r[j].id == rows[j].id
    ensures outcome.Cancelled? ==> r == rows
    ensures var i := RowWithId(rows, trackingId);
            && (i == |rows| ==> r == rows)
            && (i < |rows| && outcome.Deleted? ==> r[i] == MarkDeleted(rows[i], now))
            && (i < |rows| && outcome.Failed? ==>
                  && r[i] == rows[i].(deleteAttemptedAt := Some(now), deleteError := Some(outcome.error))
                  && r[i].isDeleted == rows[i].isDeleted)
  {
    var i := RowWithId(rows, trackingId);
    if i == |rows| then rows
    else match outcome
      case Deleted => rows[i := MarkDeleted(rows[i], now)]
      case Cancelled => rows
      case Failed(e) => rows[i := rows[i].(deleteAttemptedAt := Some(now), deleteError := Some(e))]
  }

  /** A finished task takes its row out of the pending count only when the message
      was deleted; a failed or cancelled one leaves the row pending. */
  lemma FinishLeavesPending(rows: seq<TrackingRow>, trackingId: nat, outcome: DeletionOutcome, now: int)
    ensures var i := RowWithId(rows, trackingId);
            PendingCount(FinishRow(rows, trackingId, outcome, now))
            == PendingCount(rows) - (if i < |rows| && outcome.Deleted? && !rows[i].isDeleted then 1 else 0)
  {
    var i := RowWithId(rows, trackingId);
    if i < |rows| {
      match outcome {
        case Deleted =>
          if !rows[i].isDeleted {
            MarkOneRow(rows, i, MarkDeleted(rows[i], now));
          } else {
            SameFlagKeepsPending(rows, i, MarkDeleted(rows[i], now));
          }
        case Cancelled =>
        case Failed(e) =>
          SameFlagKeepsPending(rows, i, rows[i].(deleteAttemptedAt := Some(now), deleteError := Some(e)));
      }
    }
  }

  // ---------------------------------------------------------------- the service

  /** `MessageDeletionService`: the task map, the running flag, and the tracking table
      reached through its sessions (with the next row id the table hands out). */
  class DeletionService {
    var running: bool
    var tasks: map<string, Task>
    var rows: seq<TrackingRow>
    var nextRowId: nat

    /** Row ids come from the table's counter: each is below it and none repeats, and
        every task names a row id already handed out. */
    ghost predicate Valid()
      reads this`rows, this`nextRowId, this`tasks
    {
      && (forall i :: 0 <= i < |rows| ==> rows[i].id < nextRowId)
      && (forall i, j :: 0 <= i < j < |rows| ==> rows[i].id != rows[j].id)
      && (forall k :: k in tasks ==> tasks[k].trackingId < nextRowId)
    }

    constructor ()
      ensures Valid()
      ensures !running && tasks == map[] && rows == [] && nextRowId == 1
    {
      running := false;
      tasks := map[];
      rows := [];
      nextRowId := 1;
    }

    /** `start_deletion_service()`: sets the flag once; a second start does nothing. */
    method Start()
      requires Valid()
      modifies this`running
      ensures Valid()
      ensures running
    {
      if running {
        return;
      }
      running := true;
    }

    /** `stop_deletion_service()`: clears the flag and forgets every task. */
    method Stop()
      requires Valid()
      modifies this`running, this`tasks
      ensures Valid()
      ensures !running && tasks == map[]
    {
      running := false;
      tasks := map[];
    }

    /** `get_stats()`. */
    function GetStats(): (s: DeletionStats)
      reads this
      ensures s.successfullyDeleted + s.pendingDeletion == s.totalTracked == |rows|
      ensures s.activeTasks == |tasks| && s.serviceRunning == running
    {
      DeletedPlusPending(rows);
      DeletionStats(|rows|, DeletedCount(rows), PendingCount(rows), |tasks|, running)
    }

    /** `track_message(...)`. `storeFails` stands for a database error at the insert,
        which is rolled back. A stored message with a positive delay gets a task under
        its key. */
    method TrackMessage(message: MessageRef, chatId: Option<int>, messageType: string,
                        userId: Option<int>, customDelay: Option<int>, context: Option<string>,
                        relatedMessageId: Option<int>, now: int, storeFails: bool)
      returns (ok: bool)
      requires Valid()
      modifies this`rows, this`nextRowId, this`tasks
      ensures Valid()
      ensures var p := PlanTracking(message, chatId, messageType, userId, customDelay);
              && ok == (p.SkippedPermanent? || (p.Store? && !storeFails))
              && if p.Store? && !storeFails then
                   && rows == old(rows) + [NewRow(old(nextRowId), p, messageType, relatedMessageId, context, now)]
                   && nextRowId == old(nextRowId) + 1
                   && tasks == if p.deleteAfter > 0
                               then old(tasks)[TaskKey(p.chatId, p.messageId) :=
                                                 Task(p.chatId, p.messageId, p.deleteAfter, old(nextRowId))]
                               else old(tasks)
                 else rows == old(rows) && nextRowId == old(nextRowId) && tasks == old(tasks)
    {
      var msgId := message.id;
      var chat := 0;
      var user := userId;
      if message.MessageObject? {
        chat := message.chat;
        if !Truthy(userId) && message.fromUser.Some? {
          user := message.fromUser;
        }
      } else {
        if !Truthy(chatId) {
          return false;
        }
        chat := chatId.value;
      }
      if messageType == "permanent" {
        return true;
      }
      var deleteAfter := DeleteAfter(FromName(messageType), customDelay);
      if storeFails {
        return false;
      }
      var id := nextRowId;
      rows := rows + [TrackingRow(id, chat, msgId, user, messageType, deleteAfter, now + deleteAfter,
                                  relatedMessageId, context, false, None, None, now)];
      nextRowId := id + 1;
      if deleteAfter > 0 {
        tasks := tasks[TaskKey(chat, msgId) := Task(chat, msgId, deleteAfter, id)];
      }
      ok := true;
    }

    /** `track_message_for_deletion(...)`: resolves the type, then tracks. */
    method TrackForDeletion(message: MessageRef, messageType: Option<string>, chatId: Option<int>,
                            userId: Option<int>, customDelay: Option<int>, context: Option<string>,
                            autoClassify: bool, ownerId: int, now: int, storeFails: bool)
      returns (ok: bool)
      requires Valid()
      modifies this`rows, this`nextRowId, this`tasks
      ensures Valid()
      ensures var name := ResolvedType(message, messageType, userId, autoClassify, ownerId);
              var p := PlanTracking(message, chatId, name, userId, customDelay);
              && ok == (p.SkippedPermanent? || (p.Store? && !storeFails))
              && if p.Store? && !storeFails then
                   && rows == old(rows) + [NewRow(old(nextRowId), p, name, None, context, now)]
                   && nextRowId == old(nextRowId) + 1
                   && tasks == if p.deleteAfter > 0
                               then old(tasks)[TaskKey(p.chatId, p.messageId) :=
                                                 Task(p.chatId, p.messageId, p.deleteAfter, old(nextRowId))]
                               else old(tasks)
                 else rows == old(rows) && nextRowId == old(nextRowId) && tasks == old(tasks)
    {
      var name := ResolvedType(message, messageType, userId, autoClassify, ownerId);
      ok := TrackMessage(message, chatId, name, userId, customDelay, context, None, now, storeFails);
    }

    /** `cancel_deletion(chat_id, message_id)`: the task is forgotten, and the message's
        first tracking row, if any, is marked processed. */
    method CancelDeletion(chatId: int, messageId: int, storeFails: bool)
      requires Valid()
      modifies this`tasks, this`rows
      ensures Valid()
      ensures tasks == old(tasks) - {TaskKey(chatId, messageId)}
      ensures rows == if storeFails then old(rows) else CancelRow(old(rows), chatId, messageId)
    {
      var key := TaskKey(chatId, messageId);
      if key in tasks {
        tasks := tasks - {key};
      }
      var i := FirstRowFor(rows, chatId, messageId);
      if i < |rows| && !storeFails {
        rows := rows[i := rows[i].(isDeleted := true, deleteError := Some("Deletion cancelled"))];
      }
    }

    /** The end of `_schedule_deletion`: the row is updated for the outcome and the task
        drops its own key. */
    method FinishScheduledDeletion(chatId: int, messageId: int, trackingId: nat,
                                   outcome: DeletionOutcome, now: int, storeFails: bool)
      requires Valid()
      modifies this`tasks, this`rows
      ensures Valid()
      ensures tasks == old(tasks) - {TaskKey(chatId, messageId)}
      ensures rows == if storeFails then old(rows) else FinishRow(old(rows), trackingId, outcome, now)
    {
      var i := RowWithId(rows, trackingId);
      if i < |rows| && !storeFails {
        match outcome {
          case Deleted =>
            rows := rows[i := MarkDeleted(rows[i], now)];
          case Cancelled =>
          case Failed(e) =>
            rows := rows[i := rows[i].(deleteAttemptedAt := Some(now), deleteError := Some(e))];
        }
      }
      tasks := tasks - {TaskKey(chatId, messageId)};
    }

    /** `delete_related_messages(user_id, context)`. The selected rows are deleted in
        order; the first message Telegram refuses to delete raises and the whole batch is
        rolled back, as is a database error at the commit (`storeFails`). Returns how many
        rows the success log line reports. */
    method DeleteRelatedMessages(userId: int, context: string, deletable: (int, int) -> bool,
                                 now: int, storeFails: bool) returns (marked: nat)
      requires Valid()
      modifies this`rows
      ensures Valid()
      ensures var refused := exists i :: 0 <= i < |old(rows)| && Related(old(rows)[i], userId, context)
                                         && !deletable(old(rows)[i].chatId, old(rows)[i].messageId);
              && rows == (if refused || storeFails then old(rows) else MarkRelated(old(rows), userId, context, now))
              && marked == (if refused || storeFails then 0 else RelatedCount(old(rows), userId, context))
    {
      var staged := rows;
      var i := 0;
      marked := 0;
      while i < |staged|
        invariant 0 <= i <= |staged| == |rows|
        invariant rows == old(rows)
        invariant forall k :: 0 <= k < i ==>
                    staged[k] == if Related(rows[k], userId, context) then MarkDeleted(rows[k], now) else rows[k]
        invariant forall k :: i <= k < |rows| ==> staged[k] == rows[k]
        invariant forall k :: 0 <= k < i && Related(rows[k], userId, context) ==>
                    deletable(rows[k].chatId, rows[k].messageId)
        invariant marked == RelatedCount(rows[..i], userId, context)
      {
        assert rows[..i + 1][..i] == rows[..i];
        if Related(staged[i], userId, context) {
          if !deletable(staged[i].chatId, staged[i].messageId) {
            marked := 0;
            return;
          }
          staged := staged[i := MarkDeleted(staged[i], now)];
          marked := marked + 1;
        }
        i := i + 1;
      }
      if storeFails {
        marked := 0;
        return;
      }
      assert rows[..|rows|] == rows;
      assert staged == MarkRelated(rows, userId, context, now);
      rows := staged;
    }

    /** `cleanup_conversation(user_id, keep_last_n)`: every target of keep-last-N whose
        message Telegram deletes is marked; refused deletions are skipped. A database
        error at the commit (`storeFails`) rolls the batch back. */
    method CleanupConversation(userId: int, keepLastN: int, deletable: (int, int) -> bool,
                               now: int, storeFails: bool)
      requires Valid()
      modifies this`rows
      ensures Valid()
      ensures rows == if storeFails then old(rows)
                      else ApplyCleanup(old(rows), CleanupTargets(old(rows), userId, keepLastN), deletable, now)
    {
      var targets := CleanupTargets(rows, userId, keepLastN);
      CleanupTargetsPending(rows, userId, keepLastN);
      var staged := MarkTargets(rows, targets, deletable, now);
      if storeFails {
        return;
      }
      rows := staged;
    }
  }
}
