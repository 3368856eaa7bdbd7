/** The newsletter subscribe route (`POST /newsletter/subscribe`): a
    process-wide fixed-window rate limiter keyed by client address (5 requests
    per hour), an email-shape check, and the subscriber table transitions
    (insert, resubscribe, or nothing), with emails stored lower-cased. */
module Newsletter {
  import opened Common

  // ---------------------------------------------------------------------------
  // Rate limiting

  /** The per-address record: requests counted in the window and the time
      (milliseconds) at which the window ends. */
  datatype RateRecord = RateRecord(count: int, resetAt: int)

  const RateLimit := 5
  const RateWindow := 60 * 60 * 1000

  datatype RateDecision = RateDecision(record: RateRecord, allowed: bool)

  /** What `checkRateLimit` does to one address's record at time `now`. */
  function RateStep(record: Option<RateRecord>, now: int): (d: RateDecision)
    ensures d.allowed <==> record.None? || now > record.value.resetAt || record.value.count < RateLimit
    ensures !d.allowed ==> Some(d.record) == record
    ensures d.allowed ==> now <= d.record.resetAt
    ensures record.None? || now > record.value.resetAt ==> d.record == RateRecord(1, now + RateWindow)
    ensures d.allowed && record.Some? && now <= record.value.resetAt ==>
              d.record == record.value.(count := record.value.count + 1)
  {
    if record.None? || now > record.value.resetAt then RateDecision(RateRecord(1, now + RateWindow), true)
    else if record.value.count >= RateLimit then RateDecision(record.value, false)
    else RateDecision(record.value.(count := record.value.count + 1), true)
  }

  function Lookup(records: map<string, RateRecord>, key: string): Option<RateRecord> {
    if key in records then Some(records[key]) else None
  }

  /** The record after a run of requests at the given times. */
  function Replay(record: Option<RateRecord>, times: seq<int>): Option<RateRecord>
    decreases |times|
  {
    if times == [] then record else Replay(Some(RateStep(record, times[0]).record), times[1..])
  }

  /** How many of a run of requests are allowed. */
  function AllowedCount(record: Option<RateRecord>, times: seq<int>): nat
    decreases |times|
  {
    if times == [] then 0
    else
      var d := RateStep(record, times[0]);
      (if d.allowed then 1 else 0) + AllowedCount(Some(d.record), times[1..])
  }

  /** The module-level `rateLimitMap`. */
  class RateLimiter {
    var records: map<string, RateRecord>

    /** Every stored count lies between 1 and the limit. */
    ghost predicate Valid()
      reads this
    {
      forall key :: key in records ==> 1 <= records[key].count <= RateLimit
    }

    constructor ()
      ensures Valid() && records == map[]
    {
      records := map[];
    }

    /** `checkRateLimit(ip)` at time `now`. */
    method CheckRateLimit(ip: string, now: int) returns (allowed: bool)
      requires Valid()
      modifies this
      ensures Valid()
      ensures ip !in old(records) || now > old(records)[ip].resetAt ==>
                allowed && records == old(records)[ip := RateRecord(1, now + RateWindow)]
      ensures ip in old(records) && now <= old(records)[ip].resetAt && old(records)[ip].count >= RateLimit ==>
                !allowed && records == old(records)
      ensures ip in old(records) && now <= old(records)[ip].resetAt && old(records)[ip].count < RateLimit ==>
                allowed && records == old(records)[ip := old(records)[ip].(count := old(records)[ip].count + 1)]
      ensures allowed == RateStep(Lookup(old(records), ip), now).allowed
      ensures records == old(records)[ip := RateStep(Lookup(old(records), ip), now).record]
    {
      if ip !in records || now > records[ip].resetAt {
        records := records[ip := RateRecord(1, now + RateWindow)];
        return true;
      }
      var record := records[ip];
      if record.count >= RateLimit {
        return false;
      }
      records := records[ip := record.(count := record.count + 1)];
      allowed := true;
    }
  }

  /** Inside one window an address gets at most what is left of the limit. */
  lemma {:induction false} WithinWindowAllowsAtMostRemaining(r: RateRecord, times: seq<int>)
    requires forall i :: 0 <= i < |times| ==> times[i] <= r.resetAt
    ensures AllowedCount(Some(r), times) <= if r.count >= RateLimit then 0 else RateLimit - r.count
    decreases |times|
  {
    if times != [] {
      var d := RateStep(Some(r), times[0]);
      assert d.record.resetAt == r.resetAt;
      WithinWindowAllowsAtMostRemaining(d.record, times[1..]);
    }
  }

  /** A window opens with the request that finds no record or an expired one;
      from then until the window ends at most `RateLimit` requests are
      allowed. */
  lemma AtMostLimitPerWindow(record: Option<RateRecord>, start: int, times: seq<int>)
    requires record.None? || start > record.value.resetAt
    requires forall i :: 0 <= i < |times| ==> times[i] <= start + RateWindow
    ensures AllowedCount(record, [start] + times) <= RateLimit
  {
    var first := RateStep(record, start);
    assert ([start] + times)[1..] == times;
    WithinWindowAllowsAtMostRemaining(first.record, times);
  }

  /** Inside one window, a run of requests counts up to the limit and then
      stays there. */
  lemma {:induction false} ReplayWithinWindow(r: RateRecord, times: seq<int>)
    requires 1 <= r.count <= RateLimit
    requires forall i :: 0 <= i < |times| ==> times[i] <= r.resetAt
    ensures Replay(Some(r), times) ==
              Some(r.(count := if r.count + |times| >= RateLimit then RateLimit else r.count + |times|))
    decreases |times|
  {
    if times != [] {
      var d := RateStep(Some(r), times[0]);
      ReplayWithinWindow(d.record, times[1..]);
    }
  }

  /** The sixth request from one address inside a window is refused. */
  lemma SixthRequestRefused(record: Option<RateRecord>, start: int, times: seq<int>)
    requires record.None? || start > record.value.resetAt
    requires |times| == 5
    requires forall i :: 0 <= i < 5 ==> times[i] <= start + RateWindow
    ensures !RateStep(Replay(record, [start] + times[..4]), times[4]).allowed
  {
    var first := RateStep(record, start).record;
    assert ([start] + times[..4])[1..] == times[..4];
    ReplayWithinWindow(first, times[..4]);
  }

  // ---------------------------------------------------------------------------
  // Email shape: /^[^\s@]+@[^\s@]+\.[^\s@]+$/

  /** JavaScript's `\s`: white space and line terminators. */
  predicate IsWhitespace(c: char) {
    || '\t' <= c <= '\r'
    || c == ' ' || c == '\U{00A0}' || c == '\U{1680}'
    || '\U{2000}' <= c <= '\U{200A}'
    || c == '\U{2028}' || c == '\U{2029}' || c == '\U{202F}' || c == '\U{205F}'
    || c == '\U{3000}' || c == '\U{FEFF}'
  }

  /** `[^\s@]` */
  predicate EmailChar(c: char) {
    !IsWhitespace(c) && c != '@'
  }

  /** `[^\s@]+` */
  ghost predicate EmailPart(p: string) {
    |p| > 0 && forall i :: 0 <= i < |p| ==> EmailChar(p[i])
  }

  /** The whole string is `A@B.C` with `A`, `B`, `C` non-empty runs of `[^\s@]`. */
  ghost predicate MatchesEmailPattern(s: string) {
    exists at: nat, dot: nat | at < dot < |s| ::
      && EmailPart(s[..at]) && s[at] == '@'
      && EmailPart(s[at + 1..dot]) && s[dot] == '.'
      && EmailPart(s[dot + 1..])
  }

  /** The first position of `c` in `s`. */
  function IndexOf(s: string, c: char): (r: Option<nat>)
    ensures r.Some? ==> r.value < |s| && s[r.value] == c && c !in s[..r.value]
    ensures r.None? ==> c !in s
    decreases |s|
  {
    if s == [] then None
    else if s[0] == c then Some(0)
    else
      var rest := IndexOf(s[1..], c);
      if rest.Some? then
        assert s[..rest.value + 1] == [s[0]] + s[1..][..rest.value];
        Some(rest.value + 1)
      else None
  }

  /** What `isValidEmail` checks, given the first '@' at `at`: something
      before it, no white space anywhere, no second '@', and a '.' after the
      '@' that is neither right after it nor last. */
  predicate EmailChecks(s: string, at: nat)
    requires at < |s|
  {
    var domain := s[at + 1..];
    && at > 0
    && (forall c | c in s :: !IsWhitespace(c))
    && '@' !in domain
    && |domain| >= 3 && '.' in domain[1..|domain| - 1]
  }

  /** `isValidEmail`, as a scan for the first '@' followed by the checks. */
  function IsValidEmail(s: string): (r: bool)
    ensures r <==> MatchesEmailPattern(s)
  {
    match IndexOf(s, '@')
    case None => false
    case Some(at) =>
      if EmailChecks(s, at) then
        EmailChecksSound(s, at);
        true
      else
        EmailChecksComplete(s, at);
        false
  }

  lemma EmailChecksSound(s: string, at: nat)
    requires at < |s| && s[at] == '@' && '@' !in s[..at]
    requires EmailChecks(s, at)
    ensures MatchesEmailPattern(s)
  {
    var domain := s[at + 1..];
    var i :| 0 <= i < |domain[1..|domain| - 1]| && domain[1..|domain| - 1][i] == '.';
    var dot := at + 2 + i;
    assert s[dot] == '.';
    assert forall k :: 0 <= k < |s| && k != at ==> EmailChar(s[k]) by {
      forall k | 0 <= k < |s| && k != at
        ensures EmailChar(s[k])
      {
        assert s[k] in s;
        if k < at {
          assert s[k] == s[..at][k];
        } else {
          assert s[k] == domain[k - at - 1];
        }
      }
    }
    assert EmailPart(s[..at]);
    assert EmailPart(s[at + 1..dot]);
    assert EmailPart(s[dot + 1..]);
  }

  /** In a match, every character but the '@' is a `[^\s@]`. */
  lemma PatternChars(s: string, at: nat, dot: nat)
    requires at < dot < |s| && EmailPart(s[..at]) && s[at] == '@'
    requires EmailPart(s[at + 1..dot]) && s[dot] == '.' && EmailPart(s[dot + 1..])
    ensures forall k :: 0 <= k < |s| && k != at ==> EmailChar(s[k])
  {
    var a, b, c := s[..at], s[at + 1..dot], s[dot + 1..];
    forall k | 0 <= k < |s| && k != at
      ensures EmailChar(s[k])
    {
      if k < at {
        assert s[k] == a[k];
      } else if k < dot {
        assert s[k] == b[k - at - 1];
      } else if k > dot {
        assert s[k] == c[k - dot - 1];
      }
    }
  }

  lemma EmailChecksComplete(s: string, at: nat)
    requires at < |s| && s[at] == '@' && '@' !in s[..at]
    ensures MatchesEmailPattern(s) ==> EmailChecks(s, at)
  {
    if !MatchesEmailPattern(s) {
      return;
    }
    var domain := s[at + 1..];
    var at': nat, dot': nat :| at' < dot' < |s| && EmailPart(s[..at']) && s[at'] == '@'
                               && EmailPart(s[at' + 1..dot']) && s[dot'] == '.' && EmailPart(s[dot' + 1..]);
    PatternChars(s, at', dot');
    assert at' == at;
    assert forall ch | ch in s :: !IsWhitespace(ch) by {
      forall ch | ch in s
        ensures !IsWhitespace(ch)
      {
        var k :| 0 <= k < |s| && s[k] == ch;
      }
    }
    assert '@' !in domain by {
      forall j | 0 <= j < |domain|
        ensures domain[j] != '@'
      {
        assert domain[j] == s[at + 1 + j];
      }
    }
    assert domain[1..|domain| - 1][dot' - at - 2] == '.';
  }

  /** An address with a dotted domain passes. */
  lemma ValidEmailExample()
    ensures IsValidEmail("fan@club.nyc")
  {
    var s := "fan@club.nyc";
    assert s[..3] == "fan" && s[4..8] == "club" && s[9..] == "nyc";
    assert EmailPart("fan") && EmailPart("club") && EmailPart("nyc");
    assert s[3] == '@' && s[8] == '.';
  }

  /** A domain without a '.' fails. */
  lemma UndottedDomainRefused()
    ensures !IsValidEmail("fan@club")
  {
  }

  /** White space anywhere fails. */
  lemma WhitespaceRefused()
    ensures !IsValidEmail("fan @club.nyc")
  {
    var s := "fan @club.nyc";
    assert s[3] == ' ' && IsWhitespace(' ');
    assert !(forall c | c in s :: !IsWhitespace(c));
    assert forall at: nat | at < |s| :: !EmailChecks(s, at);
  }

  // ---------------------------------------------------------------------------
  // Subscribers

  /** A subscriber row, keyed in the table by its (lower-cased) email. */
  datatype Subscriber = Subscriber(email: string, source: string, subscribedAt: int, unsubscribedAt: Option<int>)

  /** The JSON reply: `{message}` for 200, `{error}` otherwise. */
  datatype Reply = Reply(status: int, text: string)

  datatype Transition = Transition(rows: map<string, Subscriber>, reply: Reply)

  const ResubscribedMessage := "Welcome back! You've been resubscribed."
  const AlreadySubscribedMessage := "You're already subscribed!"
  const SubscribedMessage := "Successfully subscribed!"
  const InsertFailedError := "Failed to subscribe. Please try again."
  const RateLimitedError := "Too many requests. Please try again later."
  const InvalidEmailError := "Please enter a valid email address"
  const DatabaseError := "Database not configured"

  /** The table step for a valid email: look the lower-cased address up;
      resubscribe a row that had unsubscribed, leave a subscribed one alone,
      insert a new lower-cased row otherwise (`insertOk` false: the insert
      fails). */
  function SubscribeRows(rows: map<string, Subscriber>, email: string, source: string, now: int,
                         insertOk: bool): (t: Transition)
    ensures t.reply.status in {200, 500}
    ensures t.reply.status == 500 <==> ToLower(email) !in rows && !insertOk
    ensures t.reply.status == 500 ==> t.rows == rows
    ensures t.rows.Keys == rows.Keys + (if t.reply.status == 200 then {ToLower(email)} else {})
  {
    var key := ToLower(email);
    if key in rows then
      if rows[key].unsubscribedAt.Some? then
        Transition(rows[key := rows[key].(unsubscribedAt := None, subscribedAt := now)], Reply(200, ResubscribedMessage))
      else Transition(rows, Reply(200, AlreadySubscribedMessage))
    else if insertOk then
      Transition(rows[key := Subscriber(key, source, now, None)], Reply(200, SubscribedMessage))
    else Transition(rows, Reply(500, InsertFailedError))
  }

  /** Every row is stored under its lower-cased email, and holds it. */
  ghost predicate KeyedByLowerCase(rows: map<string, Subscriber>) {
    forall k :: k in rows ==> ToLower(k) == k && rows[k].email == k
  }

  /** A subscribe leaves the address subscribed (unless the insert fails), and
      keeps the table keyed by lower-cased emails; only that row changes. */
  lemma SubscribeRowsSpec(rows: map<string, Subscriber>, email: string, source: string, now: int, insertOk: bool)
    requires KeyedByLowerCase(rows)
    ensures var t := SubscribeRows(rows, email, source, now, insertOk);
            var key := ToLower(email);
            && KeyedByLowerCase(t.rows)
            && (t.reply.status == 200 <==> key in t.rows)
            && (key in t.rows ==> t.rows[key].unsubscribedAt.None?)
            && (forall k :: k != key ==> (k in t.rows <==> k in rows) && (k in rows ==> t.rows[k] == rows[k]))
            && (key !in rows && t.reply.status == 200 ==> t.rows[key] == Subscriber(key, source, now, None))
  {
    ToLowerIdempotent(email);
  }

  /** Subscribing an address that differs only in letter case from one just
      subscribed changes nothing: "already subscribed". */
  lemma SubscribeAgainIsNoop(rows: map<string, Subscriber>, e1: string, e2: string, source: string,
                             t1: int, t2: int, insertOk: bool)
    requires ToLower(e1) == ToLower(e2)
    requires SubscribeRows(rows, e1, source, t1, insertOk).reply.status == 200
    ensures var after := SubscribeRows(rows, e1, source, t1, insertOk).rows;
            SubscribeRows(after, e2, source, t2, insertOk) == Transition(after, Reply(200, AlreadySubscribedMessage))
  {
  }

  /** The table the route writes. */
  class SubscriberTable {
    var rows: map<string, Subscriber>

    constructor ()
      ensures rows == map[]
    {
      rows := map[];
    }

    method Upsert(email: string, source: string, now: int, insertOk: bool) returns (reply: Reply)
      modifies this
      ensures Transition(rows, reply) == SubscribeRows(old(rows), email, source, now, insertOk)
    {
      var key := ToLower(email);
      if key in rows {
        var existing := rows[key];
        if existing.unsubscribedAt.Some? {
          rows := rows[key := existing.(unsubscribedAt := None, subscribedAt := now)];
          return Reply(200, ResubscribedMessage);
        }
        return Reply(200, AlreadySubscribedMessage);
      }
      if !insertOk {
        return Reply(500, InsertFailedError);
      }
      rows := rows[key := Subscriber(key, source, now, None)];
      reply := Reply(200, SubscribedMessage);
    }
  }

  /** `clientAddress || x-forwarded-for || 'unknown'`. */
  function ClientKey(clientAddress: Option<string>, forwardedFor: Option<string>): string {
    OrElse(clientAddress, OrElse(forwardedFor, "unknown"))
  }

  /** The whole route. The rate limit is charged before the email is looked
      at, so a refused email still uses up quota. */
  method Subscribe(limiter: RateLimiter, table: SubscriberTable, dbConfigured: bool,
                   clientAddress: Option<string>, forwardedFor: Option<string>,
                   email: Option<string>, source: Option<string>, now: int, insertOk: bool)
    returns (reply: Reply)
    requires limiter.Valid()
    modifies limiter, table
    ensures limiter.Valid()
    ensures !dbConfigured ==>
              reply == Reply(500, DatabaseError) && limiter.records == old(limiter.records) && table.rows == old(table.rows)
    ensures dbConfigured ==>
              var ip := ClientKey(clientAddress, forwardedFor);
              limiter.records == old(limiter.records)[ip := RateStep(Lookup(old(limiter.records), ip), now).record]
    ensures dbConfigured && !RateStep(Lookup(old(limiter.records), ClientKey(clientAddress, forwardedFor)), now).allowed ==>
              reply == Reply(429, RateLimitedError) && table.rows == old(table.rows)
    ensures dbConfigured && RateStep(Lookup(old(limiter.records), ClientKey(clientAddress, forwardedFor)), now).allowed ==>
              if !Present(email) || !MatchesEmailPattern(email.value) then
                reply == Reply(400, InvalidEmailError) && table.rows == old(table.rows)
              else
                Transition(table.rows, reply)
                  == SubscribeRows(old(table.rows), email.value, if source.Some? then source.value else "website",
                                   now, insertOk)
  {
    if !dbConfigured {
      return Reply(500, DatabaseError);
    }
    var ip := ClientKey(clientAddress, forwardedFor);
    var allowed := limiter.CheckRateLimit(ip, now);
    if !allowed {
      return Reply(429, RateLimitedError);
    }
    if !Present(email) || !IsValidEmail(email.value) {
      return Reply(400, InvalidEmailError);
    }
    var src := if source.Some? then source.value else "website";
    reply := table.Upsert(email.value, src, now, insertOk);
  }
}
