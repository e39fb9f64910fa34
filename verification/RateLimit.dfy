/**
 The authentication rate limiter: fixed windows per IP in a table that is swept on every
 request and never grows past a hard cap. Times are nanoseconds on the monotonic clock.
 */
module RateLimit {
  import opened Common

  const MAX_CLIENTS := 4096
  const SECOND := 1_000_000_000

  type Ip = string

  datatype Bucket = Bucket(until: int, count: int)

  type Table = map<Ip, Bucket>

  datatype Config = Config(limit: int, window: int)

  datatype Request = Request(now: int, ip: Ip)

  /** The buckets whose window is still running. */
  function Sweep(t: Table, now: int): Table {
    map ip | ip in t && now < t[ip].until :: t[ip]
  }

  /** The bucket a request is judged by. */
  function Candidate(cfg: Config, t: Table, r: Request): Bucket {
    var live := Sweep(t, r.now);
    if r.ip in live then live[r.ip] else Bucket(r.now + cfg.window, 0)
  }

  predicate Blocked(cfg: Config, t: Table, r: Request) {
    var live := Sweep(t, r.now);
    Candidate(cfg, t, r).count >= cfg.limit || (r.ip !in live && |live| >= MAX_CLIENTS)
  }

  function Serve(cfg: Config, t: Table, r: Request): Table {
    var b := Candidate(cfg, t, r);
    if Blocked(cfg, t, r) then Sweep(t, r.now) else Sweep(t, r.now)[r.ip := b.(count := b.count + 1)]
  }

  class Limiter {
    const cfg: Config
    var clients: Table

    constructor (limit: int, window: int)
      ensures cfg == Config(limit, window) && clients == map[]
    {
      cfg, clients := Config(limit, window), map[];
    }

    /** The loop at the head of every request. */
    method DropExpired(now: int)
      modifies this
      ensures clients == Sweep(old(clients), now)
    {
      var keys := clients.Keys;
      ghost var t := clients;
      while keys != {}
        invariant keys <= t.Keys
        invariant forall ip :: ip in clients <==> ip in t && (ip in keys || now < t[ip].until)
        invariant forall ip | ip in clients :: clients[ip] == t[ip]
        decreases keys
      {
        var key :| key in keys;
        if now >= clients[key].until {
          clients := clients - {key};
        }
        keys := keys - {key};
      }
    }

    /** The middleware up to the unlock. */
    method Attempt(r: Request) returns (blocked: bool, until: int)
      modifies this
      ensures blocked == Blocked(cfg, old(clients), r)
      ensures until == Candidate(cfg, old(clients), r).until
      ensures clients == Serve(cfg, old(clients), r)
    {
      DropExpired(r.now);
      var known := r.ip in clients;
      var value := if known then clients[r.ip] else Bucket(r.now + cfg.window, 0);
      blocked := value.count >= cfg.limit || (!known && |clients| >= MAX_CLIENTS);
      if !blocked {
        value := value.(count := value.count + 1);
        clients := clients[r.ip := value];
      }
      until := value.until;
    }
  }

  // ----- whole traces -----

  type Trace = seq<Request>

  /** The clock readings do not decrease in lock order. */
  predicate Ordered(tr: Trace) {
    forall i, j | 0 <= i < j < |tr| :: tr[i].now <= tr[j].now
  }

  /** The table after a trace, starting from the empty one. */
  function After(cfg: Config, tr: Trace): Table {
    if tr == [] then map[] else Serve(cfg, After(cfg, Front(tr)), Last(tr))
  }

  function Front(tr: Trace): Trace
    requires tr != []
  {
    tr[..|tr| - 1]
  }

  function Last(tr: Trace): Request
    requires tr != []
  {
    tr[|tr| - 1]
  }

  /** Whether the last request of a trace is let through. */
  predicate Admitted(cfg: Config, tr: Trace)
    requires tr != []
  {
    !Blocked(cfg, After(cfg, Front(tr)), Last(tr))
  }

  /** How often an IP is let through at times in [from, from + window). */
  function AdmittedIn(cfg: Config, tr: Trace, ip: Ip, from: int): nat {
    if tr == [] then 0
    else
      AdmittedIn(cfg, Front(tr), ip, from)
      + if Last(tr).ip == ip && from <= Last(tr).now < from + cfg.window && Admitted(cfg, tr) then 1 else 0
  }

  /** The bucket that last admitted an IP, remembered even after it was swept. */
  function LastBucket(cfg: Config, tr: Trace, ip: Ip): Option<Bucket> {
    if tr == [] then None
    else if Last(tr).ip == ip && Admitted(cfg, tr) then Some(After(cfg, tr)[ip])
    else LastBucket(cfg, Front(tr), ip)
  }

  /** The table holds exactly the remembered buckets that had not expired at the last request. */
  predicate Remembers(cfg: Config, tr: Trace, ip: Ip) {
    match LastBucket(cfg, tr, ip)
    case None => ip !in After(cfg, tr)
    case Some(b) =>
      && 1 <= b.count <= cfg.limit
      && if tr != [] && Last(tr).now < b.until then ip in After(cfg, tr) && After(cfg, tr)[ip] == b
         else ip !in After(cfg, tr)
  }

  lemma {:induction false} TableRemembers(cfg: Config, tr: Trace, ip: Ip)
    requires Ordered(tr) && cfg.window > 0
    ensures Remembers(cfg, tr, ip)
  {
    if tr != [] {
      TableRemembers(cfg, Front(tr), ip);
    }
  }

  /**
   The account of one IP's admissions in one interval. An admission always opens its bucket at
   its own time, so a bucket that began before the interval has one admission outside it.
   */
  predicate Account(cfg: Config, tr: Trace, ip: Ip, from: int) {
    var n := AdmittedIn(cfg, tr, ip, from);
    && (tr != [] && Last(tr).now < from ==> n == 0)
    && match LastBucket(cfg, tr, ip)
       case None => n == 0
       case Some(b) =>
         var start := b.until - cfg.window;
         && n <= 2 * cfg.limit - 1
         && (tr != [] && start <= Last(tr).now)
         && (start < from ==> n <= b.count - 1)
         && (from <= start < from + cfg.window ==> n <= cfg.limit - 1 + b.count)
  }

  lemma {:induction false} AccountHolds(cfg: Config, tr: Trace, ip: Ip, from: int)
    requires Ordered(tr) && cfg.window > 0
    ensures Account(cfg, tr, ip, from)
  {
    if tr != [] {
      AccountHolds(cfg, Front(tr), ip, from);
      TableRemembers(cfg, Front(tr), ip);
      TableRemembers(cfg, tr, ip);
    }
  }

  /** No interval as long as the window sees an IP let through 2 * limit times or more. */
  lemma SlidingWindow(cfg: Config, tr: Trace, ip: Ip, from: int)
    requires Ordered(tr) && cfg.window > 0
    ensures AdmittedIn(cfg, tr, ip, from) <= Max(0, 2 * cfg.limit - 1)
  {
    AccountHolds(cfg, tr, ip, from);
    TableRemembers(cfg, tr, ip);
  }

  // ----- the bound is reached -----

  /** A table in which one IP at most has a running window. */
  function Lone(ip: Ip, b: Bucket): Table { if b.count == 0 then map[] else map[ip := b] }

  /** What a trace amounts to for the next request r: the admissions so far and the live table. */
  ghost predicate Amounts(cfg: Config, tr: Trace, r: Request, from: int, admitted: nat, live: Table) {
    AdmittedIn(cfg, tr, r.ip, from) == admitted && Sweep(After(cfg, tr), r.now) == live
  }

  /** One request by an IP that is alone in the table and has room. */
  lemma ServeLone(cfg: Config, t: Table, r: Request, b: Bucket)
    requires Sweep(t, r.now) == Lone(r.ip, b)
    requires 0 <= b.count < cfg.limit && r.now < b.until && (b.count == 0 ==> b.until == r.now + cfg.window)
    ensures !Blocked(cfg, t, r) && Serve(cfg, t, r) == Lone(r.ip, b.(count := b.count + 1))
    ensures Sweep(Serve(cfg, t, r), r.now) == Lone(r.ip, b.(count := b.count + 1))
  {
    assert |Lone(r.ip, b)| <= 1;
  }

  /** A trace and one more request. */
  lemma OneMore(cfg: Config, tr: Trace, r: Request, from: int)
    ensures After(cfg, tr + [r]) == Serve(cfg, After(cfg, tr), r)
    ensures from <= r.now < from + cfg.window && !Blocked(cfg, After(cfg, tr), r) ==>
              AdmittedIn(cfg, tr + [r], r.ip, from) == AdmittedIn(cfg, tr, r.ip, from) + 1
  {
    assert Front(tr + [r]) == tr && Last(tr + [r]) == r;
  }

  lemma BurstStep(cfg: Config, tr: Trace, r: Request, from: int, admitted: nat, b: Bucket)
    requires Amounts(cfg, tr, r, from, admitted, Lone(r.ip, b)) && from <= r.now < from + cfg.window
    requires 0 <= b.count < cfg.limit && r.now < b.until && (b.count == 0 ==> b.until == r.now + cfg.window)
    ensures Amounts(cfg, tr + [r], r, from, admitted + 1, Lone(r.ip, b.(count := b.count + 1)))
    ensures After(cfg, tr + [r]) == Lone(r.ip, b.(count := b.count + 1))
  {
    ServeLone(cfg, After(cfg, tr), r, b);
    OneMore(cfg, tr, r, from);
  }

  /** A trace that a request with this clock reading can follow. */
  predicate Followable(tr: Trace, now: int) {
    Ordered(tr) && forall i | 0 <= i < |tr| :: tr[i].now <= now
  }

  lemma FollowedOn(tr: Trace, r: Request)
    requires Followable(tr, r.now)
    ensures Followable(tr + [r], r.now)
  {
  }

  /** A burst by an IP that is alone in the table is let through while its bucket has room. */
  lemma {:induction false} BurstAdmitted(cfg: Config, tr: Trace, r: Request, n: nat, from: int, admitted: nat, b: Bucket)
    returns (all: Trace)
    requires Followable(tr, r.now)
    requires Amounts(cfg, tr, r, from, admitted, Lone(r.ip, b)) && from <= r.now < from + cfg.window
    requires r.now < b.until && (b.count == 0 ==> b.until == r.now + cfg.window)
    requires 0 <= b.count && b.count + n <= cfg.limit
    ensures Followable(all, r.now)
    ensures Amounts(cfg, all, r, from, admitted + n, Lone(r.ip, b.(count := b.count + n)))
    ensures if n == 0 then all == tr else After(cfg, all) == Lone(r.ip, b.(count := b.count + n))
    decreases n
  {
    if n == 0 {
      all := tr;
    } else {
      BurstStep(cfg, tr, r, from, admitted, b);
      FollowedOn(tr, r);
      all := BurstAdmitted(cfg, tr + [r], r, n - 1, from, admitted + 1, b.(count := b.count + 1));
    }
  }

  lemma OpeningOpens(cfg: Config, ip: Ip, next: int)
    requires cfg.limit >= 1 && cfg.window >= 2 && next == cfg.window - 1
    ensures After(cfg, [Request(0, ip)]) == map[ip := Bucket(cfg.window, 1)]
    ensures Amounts(cfg, [Request(0, ip)], Request(next, ip), 1, 0, map[ip := Bucket(cfg.window, 1)])
  {
    assert Front([Request(0, ip)]) == [];
    ServeLone(cfg, map[], Request(0, ip), Bucket(cfg.window, 0));
  }

  /**
   For every positive limit some trace reaches the bound of SlidingWindow: most of a window's
   quota is used just before the window ends, and all of the next one just after.
   */
  lemma SlidingWindowIsTight(cfg: Config, ip: Ip) returns (tr: Trace)
    requires cfg.limit >= 1 && cfg.window >= 2
    ensures Ordered(tr) && AdmittedIn(cfg, tr, ip, 1) == 2 * cfg.limit - 1
  {
    var w, l := cfg.window, cfg.limit;
    OpeningOpens(cfg, ip, w - 1);
    tr := BurstAdmitted(cfg, [Request(0, ip)], Request(w - 1, ip), l - 1, 1, 0, Bucket(w, 1));
    assert After(cfg, tr) == map[ip := Bucket(w, l)];
    tr := BurstAdmitted(cfg, tr, Request(w, ip), l, 1, l - 1, Bucket(w + w, 0));
  }

  // ----- the table against independent counters -----

  lemma {:induction false} TableIsCapped(cfg: Config, tr: Trace)
    ensures |After(cfg, tr)| <= 4096
  {
    if tr != [] {
      var t := After(cfg, Front(tr));
      TableIsCapped(cfg, Front(tr));
      SubmapIsSmaller(Sweep(t, Last(tr).now), t);
      var live := Sweep(t, Last(tr).now);
      if Last(tr).ip in live {
        assert live[Last(tr).ip := Bucket(0, 0)].Keys == live.Keys;
        assert After(cfg, tr).Keys == live.Keys;
        SameKeys(After(cfg, tr), live);
      }
    }
  }

  lemma SameKeys(a: Table, b: Table)
    requires a.Keys == b.Keys
    ensures |a| == |b|
  {
    assert |a| == |a.Keys| && |b| == |b.Keys|;
  }

  lemma {:induction false} SubmapIsSmaller(a: Table, b: Table)
    requires a.Keys <= b.Keys
    ensures |a| <= |b|
  {
    assert b.Keys == a.Keys + (b.Keys - a.Keys);
    assert |a| == |a.Keys| && |b| == |b.Keys|;
  }

  /** One IP's requests, in order. */
  function Own(tr: Trace, ip: Ip): Trace {
    if tr == [] then [] else Own(Front(tr), ip) + if Last(tr).ip == ip then [Last(tr)] else []
  }

  /** The bucket a never-swept counter for one IP judges a request by. */
  function Window(cfg: Config, b: Option<Bucket>, now: int): Bucket {
    if b.Some? && now < b.value.until then b.value else Bucket(now + cfg.window, 0)
  }

  /** A fixed-window counter that serves a single IP and is never swept. */
  function Counter(cfg: Config, own: Trace): Option<Bucket> {
    if own == [] then None
    else
      var b := Counter(cfg, Front(own));
      var cur := Window(cfg, b, Last(own).now);
      if cur.count >= cfg.limit then b else Some(cur.(count := cur.count + 1))
  }

  predicate CounterAdmits(cfg: Config, own: Trace)
    requires own != []
  {
    Window(cfg, Counter(cfg, Front(own)), Last(own).now).count < cfg.limit
  }

  /** Every request of the trace is answered as its IP's own counter would. */
  predicate Agrees(cfg: Config, tr: Trace) {
    tr == [] || (&& Agrees(cfg, Front(tr))
                 && Admitted(cfg, tr) == CounterAdmits(cfg, Own(tr, Last(tr).ip)))
  }

  /** No request of an IP without a running window met a full table. */
  predicate NeverCapped(cfg: Config, tr: Trace) {
    tr == [] || (&& NeverCapped(cfg, Front(tr))
                 && var live := Sweep(After(cfg, Front(tr)), Last(tr).now);
                    Last(tr).ip in live || |live| < 4096)
  }

  lemma OwnLast(tr: Trace)
    requires tr != []
    ensures Own(tr, Last(tr).ip) != []
    ensures Last(Own(tr, Last(tr).ip)) == Last(tr)
    ensures Front(Own(tr, Last(tr).ip)) == Own(Front(tr), Last(tr).ip)
  {
  }

  /** Where table and counter agree before a request they judge it by the same bucket. */
  lemma SameWindow(cfg: Config, tr: Trace)
    requires Ordered(tr) && cfg.window > 0 && tr != []
    requires Counter(cfg, Own(Front(tr), Last(tr).ip)) == LastBucket(cfg, Front(tr), Last(tr).ip)
    ensures Window(cfg, Counter(cfg, Own(Front(tr), Last(tr).ip)), Last(tr).now)
            == Candidate(cfg, After(cfg, Front(tr)), Last(tr))
  {
    TableRemembers(cfg, Front(tr), Last(tr).ip);
  }

  lemma CounterNext(cfg: Config, own: Trace, b: Option<Bucket>, r: Request)
    requires own != [] && Counter(cfg, Front(own)) == b && Last(own) == r
    ensures Counter(cfg, own) == var cur := Window(cfg, b, r.now);
                                 if cur.count >= cfg.limit then b else Some(cur.(count := cur.count + 1))
    ensures CounterAdmits(cfg, own) <==> Window(cfg, b, r.now).count < cfg.limit
  {
  }

  lemma LastBucketNext(cfg: Config, tr: Trace)
    requires tr != []
    ensures var r, t := Last(tr), After(cfg, Front(tr));
            LastBucket(cfg, tr, r.ip)
            == if Blocked(cfg, t, r) then LastBucket(cfg, Front(tr), r.ip)
               else Some(Candidate(cfg, t, r).(count := Candidate(cfg, t, r).count + 1))
  {
  }

  lemma OwnMemory(cfg: Config, tr: Trace)
    requires Ordered(tr) && cfg.window > 0 && tr != [] && Admitted(cfg, tr) == CounterAdmits(cfg, Own(tr, Last(tr).ip))
    requires Counter(cfg, Own(Front(tr), Last(tr).ip)) == LastBucket(cfg, Front(tr), Last(tr).ip)
    ensures Counter(cfg, Own(tr, Last(tr).ip)) == LastBucket(cfg, tr, Last(tr).ip)
  {
    OwnLast(tr);
    SameWindow(cfg, tr);
    CounterNext(cfg, Own(tr, Last(tr).ip), LastBucket(cfg, Front(tr), Last(tr).ip), Last(tr));
    LastBucketNext(cfg, tr);
  }

  lemma {:induction false} AgreementIsMemory(cfg: Config, tr: Trace, ip: Ip)
    requires Ordered(tr) && cfg.window > 0 && Agrees(cfg, tr)
    ensures Counter(cfg, Own(tr, ip)) == LastBucket(cfg, tr, ip)
  {
    if tr != [] {
      AgreementIsMemory(cfg, Front(tr), ip);
      if Last(tr).ip == ip {
        OwnMemory(cfg, tr);
      } else {
        assert Own(tr, ip) == Own(Front(tr), ip);
      }
    }
  }

  /**
   The swept and capped table answers every request like independent, never-swept counters
   exactly as long as no newcomer meets a full table.
   */
  lemma {:induction false} RefinesCounters(cfg: Config, tr: Trace)
    requires Ordered(tr) && cfg.window > 0
    ensures cfg.limit > 0 ==> (Agrees(cfg, tr) <==> NeverCapped(cfg, tr))
    ensures cfg.limit <= 0 ==> Agrees(cfg, tr)
  {
    if tr != [] {
      RefinesCounters(cfg, Front(tr));
      if Agrees(cfg, Front(tr)) {
        AgreementIsMemory(cfg, Front(tr), Last(tr).ip);
        TableRemembers(cfg, Front(tr), Last(tr).ip);
        OwnLast(tr);
      }
    }
  }

  // ----- refusals -----

  /** A refused request leaves no trace: all later requests are answered as if it never came. */
  lemma RefusalsAreInert(cfg: Config, tr: Trace, later: Request)
    requires tr != [] && !Admitted(cfg, tr) && Last(tr).now <= later.now
    ensures Blocked(cfg, After(cfg, tr), later) == Blocked(cfg, After(cfg, Front(tr)), later)
    ensures Serve(cfg, After(cfg, tr), later) == Serve(cfg, After(cfg, Front(tr)), later)
  {
    assert Sweep(After(cfg, tr), later.now) == Sweep(After(cfg, Front(tr)), later.now);
  }

  /**
   What int(d.Seconds()) may be for d nanoseconds. A double is within a microsecond of any 64-bit
   duration's seconds and exact on whole ones, so just below a whole second it may show that one.
   */
  predicate Shows(d: int, seconds: int) {
    if d < 0 then seconds <= 0
    else seconds == d / SECOND || (seconds == d / SECOND + 1 && d % SECOND > SECOND - 1000)
  }

  /** The Retry-After header, computed from a second clock reading after the unlock. */
  function RetryAfter(seconds: int): int { Max(1, seconds + 1) }

  /**
   Waiting as long as Retry-After says is enough: by then the window that refused the request,
   or for a newcomer the one it would have opened, is over, and the wait was at most a second and
   a microsecond longer than that needed.
   */
  lemma RetryAfterSuffices(cfg: Config, t: Table, r: Request, later: int, seconds: int, t': Table, retry: Request)
    requires Blocked(cfg, t, r) && r.now <= later && Shows(Candidate(cfg, t, r).until - later, seconds)
    requires retry.ip == r.ip && (r.ip in t' ==> t'[r.ip].until <= Candidate(cfg, t, r).until)
    requires retry.now >= later + RetryAfter(seconds) * 1_000_000_000
    ensures 1 <= RetryAfter(seconds)
    ensures (RetryAfter(seconds) - 1) * 1_000_000_000 < Max(0, Candidate(cfg, t, r).until - later) + 1000
    ensures Candidate(cfg, t, r).until <= retry.now
    ensures cfg.limit > 0 && |Sweep(t', retry.now)| < MAX_CLIENTS ==> !Blocked(cfg, t', retry)
  {
  }

  lemma {:induction false} WindowsAreBounded(cfg: Config, tr: Trace, ip: Ip)
    requires Ordered(tr) && cfg.window > 0 && ip in After(cfg, tr)
    ensures tr != [] && After(cfg, tr)[ip].until <= Last(tr).now + cfg.window
  {
    if ip in After(cfg, Front(tr)) { WindowsAreBounded(cfg, Front(tr), ip); }
  }

  /** A newcomer refused by a full table outwaits every window that filled it. */
  lemma CapPasses(cfg: Config, tr: Trace, r: Request, later: int, seconds: int, retry: Request, ip: Ip)
    requires Ordered(tr) && (tr != [] ==> Last(tr).now <= r.now) && cfg.window > 0
    requires Blocked(cfg, After(cfg, tr), r) && r.ip !in Sweep(After(cfg, tr), r.now) && r.now <= later
    requires Shows(Candidate(cfg, After(cfg, tr), r).until - later, seconds)
    requires retry.now >= later + RetryAfter(seconds) * 1_000_000_000 && ip in After(cfg, tr)
    ensures After(cfg, tr)[ip].until <= retry.now
  {
    WindowsAreBounded(cfg, tr, ip);
    assert Candidate(cfg, After(cfg, tr), r).until == r.now + cfg.window;
  }
}
