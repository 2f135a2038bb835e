/** The free-credit reward links: random payloads, issuing a link to a user (an active
    link they were never given, or a freshly minted and shortened one), claiming the
    credit through the payload, and the per-day counters. */
module FreeCredit {
  import opened Common
  import opened Database

  const ClaimCredit: real := 10.0
  const LinkLifetime: int := 600
  const DailyLimit: nat := 3
  const PayloadLength: nat := 12

  // ---------------------------------------------------------------- payloads

  /** `string.ascii_letters + string.digits`: `a`-`z`, `A`-`Z`, `0`-`9`. */
  const Alphabet: string :=
    seq(62, i requires 0 <= i < 62 =>
              if i < 26 then ('a' as int + i) as char
              else if i < 52 then ('A' as int + (i - 26)) as char
              else ('0' as int + (i - 52)) as char)

  predicate IsAlphanumeric(s: string)
  {
    forall i :: 0 <= i < |s| ==> IsAsciiLetter(s[i]) || IsAsciiDigit(s[i])
  }

  lemma AlphabetIsAlphanumeric()
    ensures |Alphabet| == 62 && IsAlphanumeric(Alphabet)
    ensures Alphabet[0] == 'a' && Alphabet[25] == 'z' && Alphabet[26] == 'A' && Alphabet[51] == 'Z'
    ensures Alphabet[52] == '0' && Alphabet[61] == '9'
  {
  }

  /** `generate_random_payload(length)`: `draw(i)` is the index `random.choices` picks
      for position `i`. */
  function GenerateRandomPayload(length: nat, draw: nat -> nat): (r: string)
    ensures |r| == length
    ensures IsAlphanumeric(r)
    ensures forall i :: 0 <= i < length ==> r[i] == Alphabet[draw(i) % 62]
  {
    AlphabetIsAlphanumeric();
    seq(length, i requires 0 <= i < length => Alphabet[draw(i) % 62])
  }

  /** The `/start` parameter a minted link carries. */
  function StartParam(payload: string): string
  {
    "credit_" + payload
  }

  /** The long URL that is shortened for a minted link. */
  function LongUrl(botUsername: string, payload: string): string
  {
    "https://t.me/" + botUsername + "?start=" + StartParam(payload)
  }

  /** `/start` recovers the payload with `replace("credit_", "")`; a generated payload
      has no `_`, so it comes back unchanged. */
  lemma StartParamRoundTrip(payload: string)
    requires IsAlphanumeric(payload)
    ensures StartsWith(StartParam(payload), "credit_")
    ensures ReplaceAll(StartParam(payload), "credit_") == payload
  {
    ReplaceAllPrefix("credit_", payload);
    ReplaceAllUntouched(payload, "credit_", 6);
    assert StartParam(payload)[..7] == "credit_";
  }

  // ---------------------------------------------------------------- issuing a link

  /** Whether the user already has an assignment row for this link id. */
  predicate AssignedTo(userLinks: seq<UserLink>, userId: int, linkId: int)
  {
    exists k :: 0 <= k < |userLinks| && userLinks[k].userId == userId && userLinks[k].linkId == linkId
  }

  predicate Unused(links: seq<ShortLink>, userLinks: seq<UserLink>, userId: int, i: int)
    requires 0 <= i < |links|
  {
    links[i].status == Active && !AssignedTo(userLinks, userId, links[i].id)
  }

  /** The first link from position `from` on that is active and not assigned to the user. */
  function FirstUnusedFrom(links: seq<ShortLink>, userLinks: seq<UserLink>, userId: int, from: nat)
    : (r: Option<nat>)
    requires from <= |links|
    ensures r.Some? ==> from <= r.value < |links| && Unused(links, userLinks, userId, r.value)
    ensures r.Some? ==> forall j :: from <= j < r.value ==> !Unused(links, userLinks, userId, j)
    ensures r.None? ==> forall j :: from <= j < |links| ==> !Unused(links, userLinks, userId, j)
    decreases |links| - from
  {
    if from == |links| then None
    else if Unused(links, userLinks, userId, from) then Some(from)
    else FirstUnusedFrom(links, userLinks, userId, from + 1)
  }

  /** The `unused_link` query: the first active link with no assignment for this user. */
  function FirstUnused(links: seq<ShortLink>, userLinks: seq<UserLink>, userId: int): Option<nat>
  {
    FirstUnusedFrom(links, userLinks, userId, 0)
  }

  /** Once a link is assigned to a user it is never offered to that user again. */
  lemma AssignedLinkNotReoffered(links: seq<ShortLink>, userLinks: seq<UserLink>, userId: int,
                                 linkId: int, now: int)
    ensures var r := FirstUnused(links, userLinks + [NewUserLink(userId, linkId, now)], userId);
            r.Some? ==> links[r.value].id != linkId
  {
    var uls := userLinks + [NewUserLink(userId, linkId, now)];
    assert uls[|userLinks|].userId == userId && uls[|userLinks|].linkId == linkId;
  }

  /** Assigning a link to one user leaves the links on offer to every other user alone. */
  lemma AssignmentIsPerUser(links: seq<ShortLink>, userLinks: seq<UserLink>, userId: int,
                            linkId: int, now: int, other: int)
    requires other != userId
    ensures FirstUnused(links, userLinks + [NewUserLink(userId, linkId, now)], other)
            == FirstUnused(links, userLinks, other)
  {
    var uls := userLinks + [NewUserLink(userId, linkId, now)];
    forall j | 0 <= j < |links|
      ensures Unused(links, uls, other, j) == Unused(links, userLinks, other, j)
    {
      if AssignedTo(userLinks, other, links[j].id) {
        var k :| 0 <= k < |userLinks| && userLinks[k].userId == other && userLinks[k].linkId == links[j].id;
        assert uls[k] == userLinks[k];
      }
    }
    FirstUnusedSame(links, uls, userLinks, other, 0);
  }

  lemma {:induction false} FirstUnusedSame(links: seq<ShortLink>, a: seq<UserLink>, b: seq<UserLink>,
                                           userId: int, from: nat)
    requires from <= |links|
    requires forall j :: 0 <= j < |links| ==> Unused(links, a, userId, j) == Unused(links, b, userId, j)
    ensures FirstUnusedFrom(links, a, userId, from) == FirstUnusedFrom(links, b, userId, from)
    decreases |links| - from
  {
    if from < |links| {
      FirstUnusedSame(links, a, b, userId, from + 1);
    }
  }

  predicate PayloadTaken(links: seq<ShortLink>, payload: string)
  {
    exists i :: 0 <= i < |links| && links[i].payload == payload
  }

  const ReuseMessage: string := "🔗 Click this link to earn 10 free credits! (Valid for 10 minutes)"
  const MintMessage: string := "🔗 New link created! Click to earn 10 free credits! (Valid for 10 minutes)"
  const UnavailableMessage: string := "❌ Link shortening service unavailable. Please try again later."
  const TechnicalErrorMessage: string := "❌ Technical error occurred. Please contact admin!"
  const SettingUpMessage: string := "❌ Free credit system is being set up. Please try again in a few minutes!"

  /** What `on_free_credit_button` returns: the URL to show, if any, and the message. */
  datatype IssueReply = IssueReply(url: Option<string>, message: string)

  /** Whether a shortener answer is usable: present, non-empty and not the long URL. */
  predicate ShortenedOk(shortUrl: Option<string>, longUrl: string)
  {
    shortUrl.Some? && shortUrl.value != "" && shortUrl.value != longUrl
  }

  /** `on_free_credit_button(user_id)`. `draw` stands for the random choices of the
      payload, `shorten` for `call_shortener_api`, `tablesMissing` for the probe of the
      two tables failing, and `storeFails` for a database error at commit; the minted
      link takes the next row id. */
  method OnFreeCreditButton(db: BotDb, userId: int, botUsername: string, draw: nat -> nat,
                            shorten: string -> Option<string>, now: int, tablesMissing: bool,
                            storeFails: bool)
    returns (reply: IssueReply)
    requires db.Valid()
    modifies db`shortLinks, db`nextLinkId, db`userLinks
    ensures db.Valid()
    ensures tablesMissing ==>
              && reply == IssueReply(None, SettingUpMessage)
              && db.userLinks == old(db.userLinks) && db.shortLinks == old(db.shortLinks)
              && db.nextLinkId == old(db.nextLinkId)
    ensures !tablesMissing ==>
            match FirstUnused(old(db.shortLinks), old(db.userLinks), userId)
            case Some(i) =>
              if storeFails then
                && reply == IssueReply(None, TechnicalErrorMessage)
                && db.userLinks == old(db.userLinks) && db.shortLinks == old(db.shortLinks)
                && db.nextLinkId == old(db.nextLinkId)
              else
                // reuse: one more assignment, no new link
                && reply == IssueReply(Some(old(db.shortLinks)[i].url), ReuseMessage)
                && db.userLinks == old(db.userLinks) + [NewUserLink(userId, old(db.shortLinks)[i].id, now)]
                && db.shortLinks == old(db.shortLinks) && db.nextLinkId == old(db.nextLinkId)
            case None =>
              var payload := GenerateRandomPayload(PayloadLength, draw);
              var shortUrl := shorten(LongUrl(botUsername, payload));
              if !ShortenedOk(shortUrl, LongUrl(botUsername, payload)) then
                && reply == IssueReply(None, UnavailableMessage)
                && db.userLinks == old(db.userLinks) && db.shortLinks == old(db.shortLinks)
                && db.nextLinkId == old(db.nextLinkId)
              else if storeFails || PayloadTaken(old(db.shortLinks), payload) then
                && reply == IssueReply(None, TechnicalErrorMessage)
                && db.userLinks == old(db.userLinks) && db.shortLinks == old(db.shortLinks)
                && db.nextLinkId == old(db.nextLinkId)
              else
                // mint: one new active link valid for ten minutes, assigned to this user
                && reply == IssueReply(shortUrl, MintMessage)
                && db.shortLinks == old(db.shortLinks)
                   + [ShortLink(old(db.nextLinkId), shortUrl.value, payload, Active, now, Some(now + 600))]
                && db.userLinks == old(db.userLinks) + [NewUserLink(userId, old(db.nextLinkId), now)]
                && db.nextLinkId == old(db.nextLinkId) + 1
  {
    if tablesMissing {
      return IssueReply(None, SettingUpMessage);
    }
    var unused := FirstUnused(db.shortLinks, db.userLinks, userId);
    if unused.Some? {
      var link := db.shortLinks[unused.value];
      var userLink := NewUserLink(userId, link.id, now);
      if storeFails {
        return IssueReply(None, TechnicalErrorMessage);
      }
      db.userLinks := db.userLinks + [userLink];
      return IssueReply(Some(link.url), ReuseMessage);
    }

    var payload := GenerateRandomPayload(PayloadLength, draw);
    var longUrl := LongUrl(botUsername, payload);
    var shortUrl := shorten(longUrl);
    if shortUrl.None? || shortUrl.value == "" || shortUrl.value == longUrl {
      return IssueReply(None, UnavailableMessage);
    }

    var shortLink := ShortLink(db.nextLinkId, shortUrl.value, payload, Active, now, Some(now + LinkLifetime));
    var userLink := NewUserLink(userId, shortLink.id, now);
    // the payload column is unique: a repeated payload fails the commit
    if storeFails || PayloadTaken(db.shortLinks, payload) {
      return IssueReply(None, TechnicalErrorMessage);
    }
    db.shortLinks := db.shortLinks + [shortLink];
    db.nextLinkId := db.nextLinkId + 1;
    db.userLinks := db.userLinks + [userLink];
    reply := IssueReply(shortUrl, MintMessage);
  }

  // ---------------------------------------------------------------- claiming

  /** The first link with this id that carries the payload and is active. */
  function LinkFor(links: seq<ShortLink>, linkId: int, payload: string): (r: Option<nat>)
    ensures r.Some? ==> r.value < |links| && links[r.value].id == linkId
                        && links[r.value].payload == payload && links[r.value].status == Active
    ensures r.None? ==> forall j :: 0 <= j < |links| ==>
                          !(links[j].id == linkId && links[j].payload == payload && links[j].status == Active)
    decreases |links|
  {
    if |links| == 0 then None
    else
      var r := LinkFor(links[1..], linkId, payload);
      if links[0].id == linkId && links[0].payload == payload && links[0].status == Active then Some(0)
      else if r.Some? then Some(r.value + 1)
      else None
  }

  /** The first row of the join of `user_links` with `short_links` on the link id,
      filtered by payload and active status: the assignment and its link. */
  function ClaimRowFrom(links: seq<ShortLink>, userLinks: seq<UserLink>, payload: string, from: nat)
    : (r: Option<(nat, nat)>)
    requires from <= |userLinks|
    ensures r.Some? ==> from <= r.value.0 < |userLinks|
                        && LinkFor(links, userLinks[r.value.0].linkId, payload) == Some(r.value.1)
    ensures r.Some? ==> forall k :: from <= k < r.value.0 ==> LinkFor(links, userLinks[k].linkId, payload).None?
    ensures r.None? ==> forall k :: from <= k < |userLinks| ==> LinkFor(links, userLinks[k].linkId, payload).None?
    decreases |userLinks| - from
  {
    if from == |userLinks| then None
    else match LinkFor(links, userLinks[from].linkId, payload)
      case Some(j) => Some((from, j))
      case None => ClaimRowFrom(links, userLinks, payload, from + 1)
  }

  function ClaimRow(links: seq<ShortLink>, userLinks: seq<UserLink>, payload: string): Option<(nat, nat)>
  {
    ClaimRowFrom(links, userLinks, payload, 0)
  }

  datatype ClaimReply = InvalidLink | LinkExpired | AlreadyClaimed | UserNotFound | ClaimFailed | Credited(balance: real)

  /** The fixed replies; the success reply formats the new balance. */
  function ClaimMessage(r: ClaimReply): string
    requires !r.Credited?
  {
    match r
    case InvalidLink => "❌ Invalid or expired link."
    case LinkExpired => "❌ This link has expired."
    case AlreadyClaimed => "⚠️ You've already claimed this credit."
    case UserNotFound => "❌ User not found."
    case ClaimFailed => "❌ An error occurred while processing your request."
  }

  /** The checks of `on_credit_link_click`, in its order: the row, the expiry, the flag,
      the user of the assignment. `Credited` carries the balance it will have. */
  function ClaimDecision(users: map<int, User>, links: seq<ShortLink>, userLinks: seq<UserLink>,
                         payload: string, now: int): ClaimReply
  {
    match ClaimRow(links, userLinks, payload)
    case None => InvalidLink
    case Some(row) =>
      var userLink := userLinks[row.0];
      var link := links[row.1];
      if link.expiresAt.Some? && link.expiresAt.value < now then LinkExpired
      else if userLink.creditGiven then AlreadyClaimed
      else if userLink.userId !in users then UserNotFound
      else Credited(users[userLink.userId].credits + ClaimCredit)
  }

  /** A claim that is credited pays the user of the first matching assignment, whatever
      user clicked. */
  function ClaimedUser(links: seq<ShortLink>, userLinks: seq<UserLink>, payload: string): (r: Option<int>)
    ensures r.Some? <==> ClaimRow(links, userLinks, payload).Some?
    ensures r.Some? ==>
              var k := ClaimRow(links, userLinks, payload).value.0;
              && k < |userLinks| && r.value == userLinks[k].userId
              // no earlier assignment has a link matching the payload
              && forall j :: 0 <= j < k ==> LinkFor(links, userLinks[j].linkId, payload).None?
  {
    match ClaimRow(links, userLinks, payload)
    case None => None
    case Some(row) => Some(userLinks[row.0].userId)
  }

  /** The writes of a credited claim on the assignment at `k`. */
  function ApplyClaim(users: map<int, User>, userLinks: seq<UserLink>, txs: seq<CreditTransaction>,
                      k: nat, now: int): (map<int, User>, seq<UserLink>, seq<CreditTransaction>)
    requires k < |userLinks| && userLinks[k].userId in users
  {
    var u := userLinks[k].userId;
    (users[u := users[u].(credits := users[u].credits + ClaimCredit)],
     userLinks[k := userLinks[k].(creditGiven := true, creditedAt := Some(now))],
     txs + [CreditTransaction(u, ClaimCredit, "free_credit", Some("Free credit claimed via link"), now)])
  }

  /** Claim idempotence: once a claim is credited, claiming the same payload again,
      at any later time, is never credited; until the link expires it is answered
      "already claimed". */
  lemma ClaimOnce(users: map<int, User>, links: seq<ShortLink>, userLinks: seq<UserLink>,
                  txs: seq<CreditTransaction>, payload: string, now: int, later: int)
    requires ClaimDecision(users, links, userLinks, payload, now).Credited?
    ensures var row := ClaimRow(links, userLinks, payload).value;
            var s := ApplyClaim(users, userLinks, txs, row.0, now);
            && !ClaimDecision(s.0, links, s.1, payload, later).Credited?
            && (links[row.1].expiresAt.None? || later <= links[row.1].expiresAt.value
                ==> ClaimDecision(s.0, links, s.1, payload, later) == AlreadyClaimed)
  {
    var row := ClaimRow(links, userLinks, payload).value;
    var s := ApplyClaim(users, userLinks, txs, row.0, now);
    ClaimRowSameLinks(links, userLinks, s.1, payload, 0);
  }

  /** Changing only flags of assignments leaves the join's first row where it was. */
  lemma {:induction false} ClaimRowSameLinks(links: seq<ShortLink>, a: seq<UserLink>, b: seq<UserLink>,
                                             payload: string, from: nat)
    requires |a| == |b| && from <= |a|
    requires forall k :: 0 <= k < |a| ==> a[k].linkId == b[k].linkId
    ensures ClaimRowFrom(links, a, payload, from) == ClaimRowFrom(links, b, payload, from)
    decreases |a| - from
  {
    if from < |a| {
      ClaimRowSameLinks(links, a, b, payload, from + 1);
    }
  }

  /** A credited claim adds exactly 10 to one balance, logs it, and keeps the ledger
      reconciled. */
  lemma ClaimKeepsReconciled(users: map<int, User>, userLinks: seq<UserLink>,
                             txs: seq<CreditTransaction>, k: nat, now: int)
    requires k < |userLinks| && userLinks[k].userId in users
    requires Reconciled(users, txs)
    ensures var s := ApplyClaim(users, userLinks, txs, k, now);
            && Reconciled(s.0, s.2)
            && s.0[userLinks[k].userId].credits == users[userLinks[k].userId].credits + 10.0
            && s.1[k].creditGiven && s.1[k].creditedAt == Some(now)
  {
    var u := userLinks[k].userId;
    CreditAndLogKeepsReconciled(users, txs,
      CreditTransaction(u, ClaimCredit, "free_credit", Some("Free credit claimed via link"), now));
  }

  /** A link handed to a second user through the reuse path pays its first assignee:
      when B clicks the link both A and B were given, A is credited, and from then on
      B's click is answered "already claimed". */
  lemma ReusedLinkPaysFirstAssignee(a: int, b: int, now: int)
    requires a != b
    ensures var links := [ShortLink(1, "https://short/x", "p", Active, now, Some(now + 600))];
            var uls := [NewUserLink(a, 1, now), NewUserLink(b, 1, now)];
            var users := map[a := NewUser(a, now), b := NewUser(b, now)];
            && ClaimedUser(links, uls, "p") == Some(a)
            && ClaimDecision(users, links, uls, "p", now) == Credited(20.0)
            && var s := ApplyClaim(users, uls, [], 0, now);
               && s.0[b] == users[b]
               && ClaimDecision(s.0, links, s.1, "p", now) == AlreadyClaimed
  {
    var links := [ShortLink(1, "https://short/x", "p", Active, now, Some(now + 600))];
    var uls := [NewUserLink(a, 1, now), NewUserLink(b, 1, now)];
    var users := map[a := NewUser(a, now), b := NewUser(b, now)];
    assert LinkFor(links, 1, "p") == Some(0);
    assert ClaimRow(links, uls, "p") == Some((0, 0));
    var s := ApplyClaim(users, uls, [], 0, now);
    assert ClaimRow(links, s.1, "p") == Some((0, 0));
  }

  /** `on_credit_link_click(payload)`. `storeFails` stands for a database error at
      commit, after which nothing is changed. */
  method OnCreditLinkClick(db: BotDb, payload: string, now: int, storeFails: bool)
    returns (reply: ClaimReply)
    requires db.Valid()
    modifies db`users, db`userLinks, db`transactions
    ensures db.Valid()
    ensures var d := ClaimDecision(old(db.users), db.shortLinks, old(db.userLinks), payload, now);
            if !d.Credited? || storeFails then
              && reply == (if d.Credited? then ClaimFailed else d)
              && db.users == old(db.users) && db.userLinks == old(db.userLinks)
              && db.transactions == old(db.transactions)
            else
              && reply == d
              && var k := ClaimRow(db.shortLinks, old(db.userLinks), payload).value.0;
                 (db.users, db.userLinks, db.transactions)
                 == ApplyClaim(old(db.users), old(db.userLinks), old(db.transactions), k, now)
  {
    var result := ClaimRow(db.shortLinks, db.userLinks, payload);
    if result.None? {
      return InvalidLink;
    }
    var (k, j) := result.value;
    var userLink := db.userLinks[k];
    var shortLink := db.shortLinks[j];
    if shortLink.expiresAt.Some? && shortLink.expiresAt.value < now {
      return LinkExpired;
    }
    if userLink.creditGiven {
      return AlreadyClaimed;
    }
    if userLink.userId !in db.users {
      return UserNotFound;
    }
    var user := db.users[userLink.userId];
    user := user.(credits := user.credits + ClaimCredit);
    userLink := userLink.(creditGiven := true, creditedAt := Some(now));
    var transaction := CreditTransaction(userLink.userId, ClaimCredit, "free_credit",
                                         Some("Free credit claimed via link"), now);
    if storeFails {
      return ClaimFailed;
    }
    db.users := db.users[userLink.userId := user];
    db.userLinks := db.userLinks[k := userLink];
    db.transactions := db.transactions + [transaction];
    reply := Credited(user.credits);
  }

  // ---------------------------------------------------------------- daily counters

  /** Midnight (UTC) of the day containing `now`, in seconds since the epoch. */
  function TodayStart(now: int): (t: int)
    ensures t <= now < t + 86400
  {
    (now / 86400) * 86400
  }

  /** The assignments of a user that were credited at or after `since`. */
  function CreditedSince(userLinks: seq<UserLink>, userId: int, since: Option<int>): nat
    decreases |userLinks|
  {
    if |userLinks| == 0 then 0
    else
      var l := userLinks[|userLinks| - 1];
      CreditedSince(userLinks[..|userLinks| - 1], userId, since)
      + (if l.userId == userId && l.creditGiven
            && (since.None? || (l.creditedAt.Some? && l.creditedAt.value >= since.value)) then 1 else 0)
  }

  /** Counting from a time never finds more than counting them all. */
  lemma {:induction false} TodayAtMostTotal(userLinks: seq<UserLink>, userId: int, since: int)
    ensures CreditedSince(userLinks, userId, Some(since)) <= CreditedSince(userLinks, userId, None)
    decreases |userLinks|
  {
    if |userLinks| > 0 {
      TodayAtMostTotal(userLinks[..|userLinks| - 1], userId, since);
    }
  }

  /** Crediting the assignment at `k` at time `now` counts it for its user from any
      time up to `now`, and for nobody else. */
  lemma {:induction false} CreditedSinceMark(userLinks: seq<UserLink>, k: nat, now: int, since: Option<int>,
                                             userId: int)
    requires k < |userLinks| && !userLinks[k].creditGiven
    requires since.None? || since.value <= now
    ensures CreditedSince(userLinks[k := userLinks[k].(creditGiven := true, creditedAt := Some(now))], userId, since)
            == CreditedSince(userLinks, userId, since) + (if userLinks[k].userId == userId then 1 else 0)
    decreases |userLinks|
  {
    var marked := userLinks[k := userLinks[k].(creditGiven := true, creditedAt := Some(now))];
    var n := |userLinks| - 1;
    if k < n {
      assert marked[..n] == userLinks[..n][k := userLinks[k].(creditGiven := true, creditedAt := Some(now))];
      CreditedSinceMark(userLinks[..n], k, now, since, userId);
    } else {
      assert marked[..n] == userLinks[..n];
    }
  }

  /** A credited claim at `now` raises its user's count for today and in total by
      exactly one, and leaves every other user's counts as they were. */
  lemma ClaimCountsOnce(users: map<int, User>, userLinks: seq<UserLink>, txs: seq<CreditTransaction>,
                        k: nat, now: int, userId: int)
    requires k < |userLinks| && userLinks[k].userId in users && !userLinks[k].creditGiven
    ensures var s := ApplyClaim(users, userLinks, txs, k, now);
            var bump := if userLinks[k].userId == userId then 1 else 0;
            && CreditedSince(s.1, userId, Some(TodayStart(now)))
               == CreditedSince(userLinks, userId, Some(TodayStart(now))) + bump
            && CreditedSince(s.1, userId, None) == CreditedSince(userLinks, userId, None) + bump
  {
    CreditedSinceMark(userLinks, k, now, Some(TodayStart(now)), userId);
    CreditedSinceMark(userLinks, k, now, None, userId);
  }

  /** `check_daily_limit(user_id)`: three or more credited claims since midnight.
      `queryFails` stands for a failed table probe or query, which lets the user pass. */
  function CheckDailyLimit(userLinks: seq<UserLink>, userId: int, now: int, queryFails: bool): (reached: bool)
    ensures reached <==> !queryFails && CreditedSince(userLinks, userId, Some(TodayStart(now))) >= 3
  {
    !queryFails && CreditedSince(userLinks, userId, Some(TodayStart(now))) >= DailyLimit
  }

  /** The limit in motion: a user with two credited claims today reaches the limit with
      the next credited claim on the same day, and a user below it stays below it
      when someone else is credited. */
  lemma ThirdClaimReachesLimit(users: map<int, User>, userLinks: seq<UserLink>, txs: seq<CreditTransaction>,
                               k: nat, now: int, userId: int)
    requires k < |userLinks| && userLinks[k].userId in users && !userLinks[k].creditGiven
    requires !CheckDailyLimit(userLinks, userId, now, false)
    ensures var s := ApplyClaim(users, userLinks, txs, k, now);
            && (userLinks[k].userId == userId ==>
                  (CheckDailyLimit(s.1, userId, now, false)
                   <==> CreditedSince(userLinks, userId, Some(TodayStart(now))) == 2))
            && (userLinks[k].userId != userId ==> !CheckDailyLimit(s.1, userId, now, false))
  {
    ClaimCountsOnce(users, userLinks, txs, k, now, userId);
  }

  datatype CreditStats = CreditStats(
    creditsToday: nat, totalFreeCredits: nat, currentBalance: real, dailyLimit: nat, remainingToday: nat)

  /** `get_user_credit_stats(user_id)`. `queryFails` stands for a failed table probe or
      query, after which the counts are reported as zero. */
  function GetUserCreditStats(users: map<int, User>, userLinks: seq<UserLink>, userId: int, now: int,
                              queryFails: bool)
    : (s: CreditStats)
    ensures s.creditsToday == (if queryFails then 0 else CreditedSince(userLinks, userId, Some(TodayStart(now))))
    ensures s.totalFreeCredits == (if queryFails then 0 else CreditedSince(userLinks, userId, None))
    ensures s.creditsToday <= s.totalFreeCredits
    ensures s.dailyLimit == 3
    ensures s.remainingToday == if s.creditsToday >= 3 then 0 else 3 - s.creditsToday
    ensures s.remainingToday == 0 <==> CheckDailyLimit(userLinks, userId, now, queryFails)
    ensures s.currentBalance == if userId in users then users[userId].credits else 0.0
  {
    if queryFails then
      CreditStats(0, 0, if userId in users then users[userId].credits else 0.0, DailyLimit, DailyLimit)
    else
    var today := CreditedSince(userLinks, userId, Some(TodayStart(now)));
    TodayAtMostTotal(userLinks, userId, TodayStart(now));
    CreditStats(today, CreditedSince(userLinks, userId, None),
                if userId in users then users[userId].credits else 0.0,
                DailyLimit, if today >= DailyLimit then 0 else DailyLimit - today)
  }
}
