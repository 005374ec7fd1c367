/** The sliding-window rate limiter (src/middleware/rateLimiter.ts): an expiring, pruned sorted set against a
    limiter that remembers every admission. */
module RateLimiter {
  import opened Wrappers

  /** One sorted-set key as Redis holds it: members with their scores, and when the key expires. */
  datatype Key = Key(members: map<string, int>, expiresAt: Option<int>)

  datatype Reply = Reply(allowed: bool, count: nat)

  datatype Request = Request(now: int, member: string)

  const NO_KEY := Key(map[], None)

  /** The key as a command at this time finds it. */
  function Unexpired(k: Key, now: int): Key {
    if k.expiresAt.Some? && k.expiresAt.value <= now then NO_KEY else k
  }

  function RemoveRange(members: map<string, int>, from: int, upTo: int): map<string, int> {
    map m | m in members && !(from <= members[m] <= upTo) :: members[m]
  }

  function Script(k: Key, r: Request, limit: int, windowMs: int): (Key, Reply) {
    var found := Unexpired(k, r.now);
    var members := RemoveRange(found.members, 0, r.now - windowMs);
    if |members| >= limit then (Key(members, found.expiresAt), Reply(false, |members|))
    else (Key(members[r.member := r.now], Some(r.now + windowMs)), Reply(true, |members| + 1))
  }

  /** What the middleware sends back. */
  datatype Response = Response(limit: int, remaining: int, windowMs: int, retryAfterSeconds: Option<int>)

  function RetryAfterSeconds(windowMs: int): int {
    (windowMs + 999) / 1000
  }

  function Respond(reply: Reply, limit: int, windowMs: int): Response {
    Response(limit, if limit > reply.count then limit - reply.count else 0, windowMs,
             if reply.allowed then None else Some(RetryAfterSeconds(windowMs)))
  }

  class SlidingWindow {
    var members: map<string, int>
    var expiresAt: Option<int>

    ghost function State(): Key reads this { Key(members, expiresAt) }

    constructor ()
      ensures State() == NO_KEY
    {
      members, expiresAt := map[], None;
    }

    /** The Lua script, command by command. */
    method Eval(now: int, windowStart: int, limit: int, windowMs: int, member: string) returns (reply: Reply)
      requires windowStart == now - windowMs
      modifies this
      ensures (State(), reply) == Script(old(State()), Request(now, member), limit, windowMs)
    {
      if expiresAt.Some? && expiresAt.value <= now {
        members, expiresAt := map[], None;
      }
      members := RemoveRange(members, 0, windowStart);
      var count := |members|;
      if count >= limit {
        return Reply(false, count);
      }
      members := members[member := now];
      expiresAt := Some(now + windowMs);
      return Reply(true, count + 1);
    }

    /** The middleware: an unreachable Redis lets the request through without headers. */
    method Limit(redisUp: bool, now: int, limit: int, windowMs: int, member: string)
      returns (next: bool, response: Option<Response>)
      modifies this
      ensures !redisUp ==> next && response == None && State() == old(State())
      ensures redisUp ==>
                var (k, reply) := Script(old(State()), Request(now, member), limit, windowMs);
                State() == k && next == reply.allowed && response == Some(Respond(reply, limit, windowMs))
      ensures redisUp ==>
                && response.Some? && response.value.limit == limit && response.value.windowMs == windowMs
                && (response.value.retryAfterSeconds.None? <==> next)
    {
      if !redisUp {
        return true, None;
      }
      var reply := Eval(now, now - windowMs, limit, windowMs, member);
      var remaining := if 0 > limit - reply.count then 0 else limit - reply.count;
      if !reply.allowed {
        return false, Some(Response(limit, remaining, windowMs, Some(RetryAfterSeconds(windowMs))));
      }
      return true, Some(Response(limit, remaining, windowMs, None));
    }
  }

  // ----- the limiter that forgets nothing

  /** Admissions within the window of length windowMs that ends at t. */
  function Window(admitted: map<string, int>, t: int, windowMs: int): map<string, int> {
    map m | m in admitted && t - windowMs < admitted[m] <= t :: admitted[m]
  }

  function Naive(admitted: map<string, int>, r: Request, limit: int, windowMs: int): (map<string, int>, Reply) {
    var count := |Window(admitted, r.now, windowMs)|;
    if count >= limit then (admitted, Reply(false, count)) else (admitted[r.member := r.now], Reply(true, count + 1))
  }

  function RunKey(requests: seq<Request>, limit: int, windowMs: int): (Key, seq<Reply>) {
    if requests == [] then (NO_KEY, [])
    else
      var (k, replies) := RunKey(requests[..|requests| - 1], limit, windowMs);
      var (k', reply) := Script(k, requests[|requests| - 1], limit, windowMs);
      (k', replies + [reply])
  }

  function RunNaive(requests: seq<Request>, limit: int, windowMs: int): (map<string, int>, seq<Reply>) {
    if requests == [] then (map[], [])
    else
      var (admitted, replies) := RunNaive(requests[..|requests| - 1], limit, windowMs);
      var (admitted', reply) := Naive(admitted, requests[|requests| - 1], limit, windowMs);
      (admitted', replies + [reply])
  }

  /** A clock that never runs backwards, and a member of its own for every request. */
  ghost predicate Orderly(requests: seq<Request>) {
    && (forall i :: 0 <= i < |requests| ==> requests[i].now >= 0)
    && (forall i, j :: 0 <= i < j < |requests| ==>
          requests[i].now <= requests[j].now && requests[i].member != requests[j].member)
  }

  /** How the pruned, expiring key relates to the full history at time t. */
  ghost predicate Agrees(k: Key, admitted: map<string, int>, t: int, windowMs: int) {
    && (forall m <- k.members :: m in admitted && admitted[m] == k.members[m])
    && (forall m <- admitted :: 0 <= admitted[m] <= t)
    && (forall m <- admitted :: m in k.members || admitted[m] + windowMs <= t)
    && (k.expiresAt.Some? ==> forall m <- admitted :: admitted[m] + windowMs <= k.expiresAt.value)
  }

  lemma SameWindow(k: Key, admitted: map<string, int>, t: int, now: int, windowMs: int)
    requires Agrees(k, admitted, t, windowMs) && t <= now && windowMs > 0
    ensures RemoveRange(Unexpired(k, now).members, 0, now - windowMs) == Window(admitted, now, windowMs)
  {
    var pruned, window := RemoveRange(Unexpired(k, now).members, 0, now - windowMs), Window(admitted, now, windowMs);
    forall m ensures m in pruned <==> m in window {
      if m in window {
        assert admitted[m] + windowMs > now;
      }
    }
  }

  /** One request: same decision, same count, and the relation holds on. */
  lemma ScriptRefinesNaive(k: Key, admitted: map<string, int>, t: int, r: Request, limit: int, windowMs: int)
    requires Agrees(k, admitted, t, windowMs) && t <= r.now && 0 <= r.now && windowMs > 0 && r.member !in admitted
    ensures var (k', reply) := Script(k, r, limit, windowMs);
            var (admitted', expected) := Naive(admitted, r, limit, windowMs);
            reply == expected && Agrees(k', admitted', r.now, windowMs)
  {
    SameWindow(k, admitted, t, r.now, windowMs);
  }

  lemma {:induction false} AdmittedAreRequests(requests: seq<Request>, limit: int, windowMs: int)
    ensures forall m <- RunNaive(requests, limit, windowMs).0 ::
              exists i :: 0 <= i < |requests| && requests[i] == Request(RunNaive(requests, limit, windowMs).0[m], m)
  {
    if requests != [] {
      var before := requests[..|requests| - 1];
      AdmittedAreRequests(before, limit, windowMs);
      var admitted, admitted' := RunNaive(before, limit, windowMs).0, RunNaive(requests, limit, windowMs).0;
      forall m <- admitted' ensures exists i :: 0 <= i < |requests| && requests[i] == Request(admitted'[m], m) {
        if m in admitted && admitted'[m] == admitted[m] {
          var i :| 0 <= i < |before| && before[i] == Request(admitted[m], m);
          assert requests[i] == Request(admitted'[m], m);
        } else {
          assert requests[|requests| - 1] == Request(admitted'[m], m);
        }
      }
    }
  }

  /** Refinement over whole runs: pruning and key expiry are unobservable. */
  lemma {:induction false} SortedSetRefinesHistory(requests: seq<Request>, limit: int, windowMs: int)
    requires Orderly(requests) && windowMs > 0
    ensures RunKey(requests, limit, windowMs).1 == RunNaive(requests, limit, windowMs).1
    ensures Agrees(RunKey(requests, limit, windowMs).0, RunNaive(requests, limit, windowMs).0,
                   if requests == [] then 0 else requests[|requests| - 1].now, windowMs)
  {
    if requests != [] {
      var before, r := requests[..|requests| - 1], requests[|requests| - 1];
      SortedSetRefinesHistory(before, limit, windowMs);
      var admitted := RunNaive(before, limit, windowMs).0;
      AdmittedAreRequests(before, limit, windowMs);
      assert forall i :: 0 <= i < |before| ==> before[i] == requests[i] && before[i].member != r.member;
      ScriptRefinesNaive(RunKey(before, limit, windowMs).0, admitted,
                         if before == [] then 0 else before[|before| - 1].now, r, limit, windowMs);
    }
  }

  lemma SubmapSize(a: map<string, int>, b: map<string, int>)
    requires a.Keys <= b.Keys
    ensures |a| <= |b|
  {
    SubsetSize(a.Keys, b.Keys);
    assert |a| == |a.Keys| && |b| == |b.Keys|;
  }

  lemma {:induction false} SubsetSize(a: set<string>, b: set<string>)
    requires a <= b
    ensures |a| <= |b|
  {
    if a != {} {
      var x :| x in a;
      SubsetSize(a - {x}, b - {x});
    }
  }

  /** The history never holds more than `limit` admissions in a window. */
  lemma {:induction false} HistoryDoesNotOverflow(requests: seq<Request>, limit: nat, windowMs: int, t: int)
    requires Orderly(requests) && windowMs > 0
    ensures |Window(RunNaive(requests, limit, windowMs).0, t, windowMs)| <= limit
  {
    if requests != [] {
      var before, r := requests[..|requests| - 1], requests[|requests| - 1];
      var admitted, admitted' := RunNaive(before, limit, windowMs).0, RunNaive(requests, limit, windowMs).0;
      HistoryDoesNotOverflow(before, limit, windowMs, t);
      if admitted' != admitted {
        if t < r.now {
          SubmapSize(Window(admitted', t, windowMs), Window(admitted, t, windowMs));
        } else {
          var now := Window(admitted, r.now, windowMs);
          forall m <- Window(admitted', t, windowMs) ensures m in now[r.member := r.now] {
            if m != r.member {
              AdmittedAreRequests(before, limit, windowMs);
              var i :| 0 <= i < |before| && before[i] == Request(admitted[m], m);
              assert requests[i].now <= r.now;
            }
          }
          SubmapSize(Window(admitted', t, windowMs), now[r.member := r.now]);
        }
      }
    }
  }

  /** The count in every reply stays within the limit. */
  lemma {:induction false} CountsStayWithinLimit(requests: seq<Request>, limit: nat, windowMs: int)
    requires Orderly(requests) && windowMs > 0
    ensures forall reply <- RunKey(requests, limit, windowMs).1 :: reply.count <= limit
  {
    if requests != [] {
      var before, r := requests[..|requests| - 1], requests[|requests| - 1];
      CountsStayWithinLimit(before, limit, windowMs);
      SortedSetRefinesHistory(requests, limit, windowMs);
      SortedSetRefinesHistory(before, limit, windowMs);
      HistoryDoesNotOverflow(before, limit, windowMs, r.now);
    }
  }

  // ----- the headers

  /** How many of these members, all arriving at the same instant, the script admits. */
  function AdmittedAtOnce(k: Key, now: int, members: seq<string>, limit: int, windowMs: int): nat
    decreases |members|
  {
    if members == [] then 0
    else
      var (k', reply) := Script(k, Request(now, members[0]), limit, windowMs);
      (if reply.allowed then 1 else 0) + AdmittedAtOnce(k', now, members[1..], limit, windowMs)
  }

  ghost predicate Distinct(members: seq<string>) {
    forall i, j :: 0 <= i < j < |members| ==> members[i] != members[j]
  }

  lemma AdmissionGrowsWindow(admitted: map<string, int>, r: Request, windowMs: int)
    requires windowMs > 0 && r.member !in admitted
    ensures |Window(admitted[r.member := r.now], r.now, windowMs)| == |Window(admitted, r.now, windowMs)| + 1
  {
    WindowAfter(admitted, r, windowMs, r.now);
  }

  lemma {:induction false} AdmittedUpToLimit(
    k: Key, admitted: map<string, int>, t: int, now: int, members: seq<string>, limit: int, windowMs: int)
    requires Agrees(k, admitted, t, windowMs) && 0 <= now && t <= now && windowMs > 0
    requires Distinct(members) && forall m <- members :: m !in admitted
    ensures var free := limit - |Window(admitted, now, windowMs)|;
            AdmittedAtOnce(k, now, members, limit, windowMs)
            == if free < 0 then 0 else if |members| < free then |members| else free
    decreases |members|
  {
    if members != [] {
      var r := Request(now, members[0]);
      ScriptRefinesNaive(k, admitted, t, r, limit, windowMs);
      var (admitted', reply) := Naive(admitted, r, limit, windowMs);
      if reply.allowed {
        AdmissionGrowsWindow(admitted, r, windowMs);
      }
      assert forall m <- members[1..] :: m in members && m != members[0];
      AdmittedUpToLimit(Script(k, r, limit, windowMs).0, admitted', now, now, members[1..], limit, windowMs);
    }
  }

  lemma {:induction false} RepliesAnswer(requests: seq<Request>, limit: int, windowMs: int)
    ensures |RunKey(requests, limit, windowMs).1| == |requests|
  {
    if requests != [] { RepliesAnswer(requests[..|requests| - 1], limit, windowMs); }
  }

  function RepliesTo(requests: seq<Request>, limit: int, windowMs: int): (replies: seq<Reply>)
    ensures |replies| == |requests|
  {
    RepliesAnswer(requests, limit, windowMs);
    RunKey(requests, limit, windowMs).1
  }

  /** X-RateLimit-Remaining is exact: after every run, it is the number of further requests that the script
      would admit at that very instant. */
  lemma RemainingIsExact(requests: seq<Request>, members: seq<string>, limit: int, windowMs: int)
    requires Orderly(requests) && requests != [] && windowMs > 0
    requires Distinct(members) && forall m <- members, r <- requests :: r.member != m
    ensures var n := |requests| - 1;
            var remaining := Respond(RepliesTo(requests, limit, windowMs)[n], limit, windowMs).remaining;
            AdmittedAtOnce(RunKey(requests, limit, windowMs).0, requests[n].now, members, limit, windowMs)
            == if |members| < remaining then |members| else remaining
  {
    var now := requests[|requests| - 1].now;
    LastCount(requests, limit, windowMs);
    NotYetAdmitted(requests, members, limit, windowMs);
    AgreesAfter(requests, limit, windowMs);
    AdmittedUpToLimit(RunKey(requests, limit, windowMs).0, RunNaive(requests, limit, windowMs).0, now, now,
        members, limit, windowMs);
  }

  lemma NotYetAdmitted(requests: seq<Request>, members: seq<string>, limit: int, windowMs: int)
    requires forall m <- members, r <- requests :: r.member != m
    ensures forall m <- members :: m !in RunNaive(requests, limit, windowMs).0
  {
    AdmittedAreRequests(requests, limit, windowMs);
  }

  lemma AgreesAfter(requests: seq<Request>, limit: int, windowMs: int)
    requires Orderly(requests) && requests != [] && windowMs > 0
    ensures Agrees(RunKey(requests, limit, windowMs).0, RunNaive(requests, limit, windowMs).0,
                   requests[|requests| - 1].now, windowMs)
  {
    SortedSetRefinesHistory(requests, limit, windowMs);
  }

  lemma NewMember(requests: seq<Request>, limit: int, windowMs: int)
    requires Orderly(requests) && requests != []
    ensures requests[|requests| - 1].member !in RunNaive(requests[..|requests| - 1], limit, windowMs).0
  {
    var before := requests[..|requests| - 1];
    AdmittedAreRequests(before, limit, windowMs);
    assert forall i :: 0 <= i < |before| ==> before[i] == requests[i];
  }

  /** The reply counts the window that ends with the request. */
  predicate CountsWindow(
      admitted: map<string, int>, admitted': map<string, int>, now: int, reply: Reply, limit: int, windowMs: int) {
    && reply.count == |Window(admitted', now, windowMs)|
    && if reply.allowed then reply.count <= limit else reply.count >= limit && admitted' == admitted
  }

  lemma NaiveCounts(admitted: map<string, int>, r: Request, limit: int, windowMs: int)
    requires windowMs > 0 && r.member !in admitted
    ensures var (admitted', reply) := Naive(admitted, r, limit, windowMs);
            CountsWindow(admitted, admitted', r.now, reply, limit, windowMs)
  {
    AdmissionGrowsWindow(admitted, r, windowMs);
  }

  lemma LastCount(requests: seq<Request>, limit: int, windowMs: int)
    requires Orderly(requests) && requests != [] && windowMs > 0
    ensures |RunKey(requests, limit, windowMs).1| == |requests|
    ensures CountsWindow(RunNaive(requests[..|requests| - 1], limit, windowMs).0, RunNaive(requests, limit, windowMs).0,
                         requests[|requests| - 1].now, RunKey(requests, limit, windowMs).1[|requests| - 1], limit,
                             windowMs)
  {
    var before, r := requests[..|requests| - 1], requests[|requests| - 1];
    SortedSetRefinesHistory(requests, limit, windowMs);
    RepliesAnswer(requests, limit, windowMs);
    NewMember(requests, limit, windowMs);
    NaiveCounts(RunNaive(before, limit, windowMs).0, r, limit, windowMs);
  }

  /** The positions of the admitted requests in the window of length windowMs that ends at t. */
  function AdmittedIn(requests: seq<Request>, replies: seq<Reply>, windowMs: int, t: int): set<int>
    requires |replies| == |requests|
  {
    set i | 0 <= i < |requests| && replies[i].allowed && t - windowMs < requests[i].now <= t
  }

  lemma AdmittedInSnoc(requests: seq<Request>, replies: seq<Reply>, r: Request, reply: Reply, windowMs: int, t: int)
    requires |replies| == |requests|
    ensures |AdmittedIn(requests + [r], replies + [reply], windowMs, t)|
            == |AdmittedIn(requests, replies, windowMs, t)| + if reply.allowed && t - windowMs < r.now <= t then 1
                else 0
  {
    var n := |requests|;
    var added := if reply.allowed && t - windowMs < r.now <= t then {n} else {};
    assert AdmittedIn(requests + [r], replies + [reply], windowMs, t)
        == AdmittedIn(requests, replies, windowMs, t) + added;
  }

  predicate LastCounts(requests: seq<Request>, limit: int, windowMs: int, t: int)
    requires requests != []
  {
    var n := |requests| - 1;
    RepliesTo(requests, limit, windowMs)[n].allowed && t - windowMs < requests[n].now <= t
  }

  lemma LastAdmitted(requests: seq<Request>, limit: int, windowMs: int, t: int)
    requires requests != []
    ensures var before := requests[..|requests| - 1];
            |AdmittedIn(requests, RepliesTo(requests, limit, windowMs), windowMs, t)|
            == |AdmittedIn(before, RepliesTo(before, limit, windowMs), windowMs, t)|
               + if LastCounts(requests, limit, windowMs, t) then 1 else 0
  {
    var n := |requests| - 1;
    var replies := RepliesTo(requests, limit, windowMs);
    AdmittedInSnoc(requests[..n], replies[..n], requests[n], replies[n], windowMs, t);
    assert requests == requests[..n] + [requests[n]] && replies == replies[..n] + [replies[n]];
    assert replies[..n] == RepliesTo(requests[..n], limit, windowMs);
  }

  /** They are as many as the history has in that window. */
  lemma {:induction false} AdmittedAreCounted(requests: seq<Request>, limit: int, windowMs: int, t: int)
    requires Orderly(requests) && windowMs > 0
    ensures |AdmittedIn(requests, RepliesTo(requests, limit, windowMs), windowMs, t)|
            == |Window(RunNaive(requests, limit, windowMs).0, t, windowMs)|
  {
    if requests == [] {
      assert AdmittedIn(requests, RepliesTo(requests, limit, windowMs), windowMs, t) == {};
    } else {
      AdmittedAreCounted(requests[..|requests| - 1], limit, windowMs, t);
      LastAdmitted(requests, limit, windowMs, t);
      LastAdmission(requests, limit, windowMs, t);
    }
  }

  /** The last request adds itself to its windows, exactly if it is admitted. */
  lemma LastAdmission(requests: seq<Request>, limit: int, windowMs: int, t: int)
    requires Orderly(requests) && requests != [] && windowMs > 0
    ensures |Window(RunNaive(requests, limit, windowMs).0, t, windowMs)|
            == |Window(RunNaive(requests[..|requests| - 1], limit, windowMs).0, t, windowMs)|
               + if LastCounts(requests, limit, windowMs, t) then 1 else 0
  {
    var n := |requests| - 1;
    NewMember(requests, limit, windowMs);
    SortedSetRefinesHistory(requests, limit, windowMs);
    WindowAfter(RunNaive(requests[..n], limit, windowMs).0, requests[n], windowMs, t);
  }

  lemma WindowAfter(admitted: map<string, int>, r: Request, windowMs: int, t: int)
    requires r.member !in admitted
    ensures |Window(admitted[r.member := r.now], t, windowMs)|
            == |Window(admitted, t, windowMs)| + if t - windowMs < r.now <= t then 1 else 0
  {
    var window, window' := Window(admitted, t, windowMs), Window(admitted[r.member := r.now], t, windowMs);
    assert window' == if t - windowMs < r.now <= t then window[r.member := r.now] else window;
  }

  /** No window of length windowMs, wherever it lies, ever holds more than `limit` requests that the script
      admitted. */
  lemma NoWindowOverflows(requests: seq<Request>, limit: nat, windowMs: int, t: int)
    requires Orderly(requests) && windowMs > 0
    ensures |AdmittedIn(requests, RepliesTo(requests, limit, windowMs), windowMs, t)| <= limit
  {
    AdmittedAreCounted(requests, limit, windowMs, t);
    HistoryDoesNotOverflow(requests, limit, windowMs, t);
  }

  /** While requests are denied the history stays what it was. */
  lemma {:induction false} DeniedLeaveHistory(requests: seq<Request>, from: nat, limit: int, windowMs: int)
    requires Orderly(requests) && from <= |requests| && windowMs > 0
    requires |RunKey(requests, limit, windowMs).1| == |requests|
    requires forall i :: from <= i < |requests| ==> !RunKey(requests, limit, windowMs).1[i].allowed
    ensures RunNaive(requests, limit, windowMs).0 == RunNaive(requests[..from], limit, windowMs).0
    decreases |requests|
  {
    if from == |requests| {
      assert requests[..from] == requests;
    } else {
      var before := requests[..|requests| - 1];
      RepliesAnswer(before, limit, windowMs);
      LastCount(requests, limit, windowMs);
      assert before[..from] == requests[..from];
      assert forall i :: 0 <= i < |before| ==>
        RunKey(requests, limit, windowMs).1[i] == RunKey(before, limit, windowMs).1[i];
      DeniedLeaveHistory(before, from, limit, windowMs);
    }
  }

  /** Retry-After (section 10.2.3 of RFC 9110) is enough: after every run, a caller that was denied at request i
      and waits out its Retry-After is admitted by the script, if the key has admitted nothing since and the
      limit admits anything at all. */
  lemma RetryAfterSuffices(requests: seq<Request>, i: nat, retry: Request, limit: int, windowMs: int)
    requires Orderly(requests + [retry]) && i < |requests| && windowMs > 0 && limit >= 1
    requires |RunKey(requests, limit, windowMs).1| == |requests|
    requires forall j :: i <= j < |requests| ==> !RunKey(requests, limit, windowMs).1[j].allowed
    requires retry.now >= requests[i].now + 1000 * RetryAfterSeconds(windowMs)
    ensures Script(RunKey(requests, limit, windowMs).0, retry, limit, windowMs).1 == Reply(true, 1)
  {
    var all := requests + [retry];
    var admitted, last := RunNaive(requests, limit, windowMs).0, requests[|requests| - 1];
    assert forall j :: 0 <= j < |requests| ==> all[j] == requests[j];
    assert all[|requests|] == retry;
    SortedSetRefinesHistory(requests, limit, windowMs);
    DeniedLeaveHistory(requests, i, limit, windowMs);
    AdmittedAreRequests(requests[..i], limit, windowMs);
    EmptyWindowAdmits(RunKey(requests, limit, windowMs).0, admitted, last.now, retry, requests[i].now, limit, windowMs);
  }

  /** No smaller whole number of seconds covers the window. */
  lemma RetryAfterIsLeast(windowMs: int)
    ensures windowMs <= 1000 * RetryAfterSeconds(windowMs) < windowMs + 1000
  {
  }

  lemma EmptyWindowAdmits(
      k: Key, admitted: map<string, int>, t: int, retry: Request, latest: int, limit: int, windowMs: int)
    requires Agrees(k, admitted, t, windowMs) && t <= retry.now && windowMs > 0 && limit >= 1
    requires (forall m <- admitted :: admitted[m] <= latest) && retry.now >= latest + 1000 * RetryAfterSeconds(windowMs)
    ensures Script(k, retry, limit, windowMs).1 == Reply(true, 1)
  {
    SameWindow(k, admitted, t, retry.now, windowMs);
    assert 1000 * RetryAfterSeconds(windowMs) >= windowMs;
    assert Window(admitted, retry.now, windowMs) == map[];
  }

  /** The stored key stays small and goes away: it never has more than `limit` members, all of them admissions of
      the window, and it expires one window after the last admission. */
  lemma KeyStaysSmall(k: Key, r: Request, limit: nat, windowMs: int)
    requires windowMs > 0 && forall m <- k.members :: 0 <= k.members[m] <= r.now
    ensures var (k', reply) := Script(k, r, limit, windowMs);
      && (forall m <- k'.members :: r.now - windowMs < k'.members[m] <= r.now)
      && (reply.allowed ==>
            |k'.members| <= limit && r.member in k'.members && Unexpired(k', r.now + windowMs) == NO_KEY)
  {
  }
}
