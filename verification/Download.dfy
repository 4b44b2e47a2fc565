/**
 The transfer of an update file: which progress percentages are reported, and which requests
 a chain of redirects makes.
 */
module Download {

  // ---------------------------------------------------------------- progress

  function Sum(sizes: seq<nat>): nat {
    if sizes == [] then 0 else Sum(sizes[..|sizes| - 1]) + sizes[|sizes| - 1]
  }

  /** `Math.min(100, Math.round((received / total) * 100))`, rounding halves up, on exact fractions. */
  function Percent(received: nat, total: nat): nat
    requires total > 0
  {
    var rounded := (200 * received + total) / (2 * total);
    if rounded > 100 then 100 else rounded
  }

  function Last(reports: seq<nat>): nat {
    if reports == [] then 0 else reports[|reports| - 1]
  }

  /** The percentages reported after chunks of the given sizes. */
  function Reports(sizes: seq<nat>, total: nat): seq<nat> {
    if sizes == [] then []
    else
      var before := Reports(sizes[..|sizes| - 1], total);
      if total == 0 then before
      else
        var percent := Percent(Sum(sizes), total);
        var last := Last(before);
        if percent != last && (percent == 100 || percent - last >= 2) then before + [percent] else before
  }

  lemma {:induction false} DivisionMonotone(a: nat, b: nat, d: nat)
    requires a <= b && d > 0
    ensures a / d <= b / d
  {
    assert (a / d) * d <= b < (b / d + 1) * d;
    CancelFactor(a / d, b / d + 1, d);
  }

  lemma {:induction false} CancelFactor(x: nat, y: nat, d: nat)
    requires x * d < y * d
    ensures x < y
  {
  }

  lemma {:induction false} PercentMonotone(a: nat, b: nat, total: nat)
    requires a <= b && total > 0
    ensures Percent(a, total) <= Percent(b, total)
  {
    DivisionMonotone(200 * a + total, 200 * b + total, 2 * total);
  }

  /**
   Reports strictly increase, stay within 100 and are at most 50; and after every chunk the last
   report trails the true percentage by at most one, and not at all at 100.
   */
  lemma {:induction false} ReportsAreFewAndFresh(sizes: seq<nat>, total: nat)
    requires total > 0
    ensures var r := Reports(sizes, total);
            && (forall i, j | 0 <= i < j < |r| :: r[i] < r[j])
            && (forall i | 0 <= i < |r| :: r[i] <= 100)
            && |r| <= 50
            && (Last(r) < 100 ==> 2 * |r| <= Last(r))
            && Last(r) <= Percent(Sum(sizes), total) <= Last(r) + 1
            && (Percent(Sum(sizes), total) == 100 ==> Last(r) == 100)
    decreases |sizes|
  {
    if sizes == [] {
      assert total / (2 * total) == 0;
    } else {
      var before := sizes[..|sizes| - 1];
      ReportsAreFewAndFresh(before, total);
      PercentMonotone(Sum(before), Sum(sizes), total);
      hide Percent;
      var r := Reports(before, total);
      assert forall i | 0 <= i < |r| :: r[i] <= Last(r);
    }
  }

  /** The percentage is the true one, rounded half up; a complete download is 100. */
  lemma {:induction false} PercentRounds(received: nat, total: nat)
    requires total > 0
    ensures var p := Percent(received, total);
            if received >= total then p == 100
            else 2 * total * p <= 200 * received + total < 2 * total * (p + 1)
  {
    var x, d := 200 * received + total, 2 * total;
    if received >= total {
      PercentMonotone(total, received, total);
      PercentOfAll(total);
    } else {
      assert (x / d) * d <= x < (x / d + 1) * d;
      assert x < 101 * d;
      CancelFactor(x / d, 101, d);
    }
  }

  /** After every chunk the last report is within a percent and a half of the truth. */
  lemma {:induction false} ReportsTrackTheTruth(sizes: seq<nat>, total: nat)
    requires 0 < Sum(sizes) < total
    ensures var last := Last(Reports(sizes, total));
            2 * total * last <= 200 * Sum(sizes) + total < 2 * total * (last + 2)
  {
    hide Percent, Reports;
    ReportsAreFewAndFresh(sizes, total);
    PercentRounds(Sum(sizes), total);
    var last, p := Last(Reports(sizes, total)), Percent(Sum(sizes), total);
    if p == last + 1 { assert 2 * total * last <= 2 * total * p; }
    else { assert 2 * total * (p + 1) <= 2 * total * (last + 2); }
  }

  /** A complete download ends with a report of 100. */
  lemma {:induction false} CompleteReports100(sizes: seq<nat>, total: nat)
    requires total > 0 && Sum(sizes) >= total
    ensures Last(Reports(sizes, total)) == 100
  {
    hide Percent, Reports;
    ReportsAreFewAndFresh(sizes, total);
    PercentMonotone(total, Sum(sizes), total);
    PercentOfAll(total);
  }

  lemma {:induction false} PercentOfAll(total: nat)
    requires total > 0
    ensures Percent(total, total) == 100
  {
    QuotientOf(200 * total + total, 100, 2 * total);
  }

  lemma {:induction false} QuotientOf(x: nat, q: nat, d: nat)
    requires d > 0 && q * d <= x < (q + 1) * d
    ensures x / d == q
  {
    var y := x / d;
    assert y * d <= x < (y + 1) * d;
    CancelFactor(y, q + 1, d);
    CancelFactor(q, y + 1, d);
  }

  /** The `data` callback over all chunks. */
  method ReportProgress(sizes: seq<nat>, total: nat) returns (reports: seq<nat>)
    ensures reports == Reports(sizes, total)
  {
    hide Percent;
    var received: nat, lastEmit: int := 0, 0;
    reports := [];
    for i := 0 to |sizes|
      invariant received == Sum(sizes[..i])
      invariant reports == Reports(sizes[..i], total) && lastEmit == Last(reports)
    {
      assert sizes[..i + 1][..i] == sizes[..i];
      received := received + sizes[i];
      if total > 0 {
        var percent := Percent(received, total);
        if percent != lastEmit && (percent == 100 || percent - lastEmit >= 2) {
          lastEmit := percent;
          reports := reports + [percent];
        }
      }
    }
    assert sizes[..|sizes|] == sizes;
  }

  // ---------------------------------------------------------------- redirects

  const MAX_HOPS: nat := 5

  datatype Response = Redirect(location: string) | Success | Refused(status: nat)

  datatype Ending = TooManyRedirects | UnexpectedHost | Fetched | BadStatus(status: nat)

  datatype Followed = Followed(requests: seq<string>, ending: Ending)

  /** The outside: which addresses are allowed, how each request is answered, how a location is resolved. */
  datatype Web = Web(allowed: string -> bool, answer: (nat, string) -> Response, resolve: (string, string) -> string)

  function Follow(w: Web, target: string, hops: nat): Followed
    decreases MAX_HOPS + 1 - hops
  {
    if hops > MAX_HOPS then Followed([], TooManyRedirects)
    else if !w.allowed(target) then Followed([], UnexpectedHost)
    else
      match w.answer(hops, target)
      case Redirect(location) =>
        var next := Follow(w, w.resolve(location, target), hops + 1);
        Followed([target] + next.requests, next.ending)
      case Success => Followed([target], Fetched)
      case Refused(status) => Followed([target], BadStatus(status))
  }

  /** Each request after the first goes where the one before it was redirected. */
  ghost predicate FollowsRedirect(w: Web, requests: seq<string>, hops: nat, i: nat)
    requires i + 1 < |requests|
  {
    var r := w.answer(hops + i, requests[i]);
    r.Redirect? && requests[i + 1] == w.resolve(r.location, requests[i])
  }

  /** A redirect is one request, and then whatever its target makes. */
  lemma {:induction false} FollowOn(w: Web, target: string, hops: nat) returns (next: string)
    requires hops <= 5 && w.allowed(target) && w.answer(hops, target).Redirect?
    ensures next == w.resolve(w.answer(hops, target).location, target)
    ensures var later := Follow(w, next, hops + 1);
            Follow(w, target, hops) == Followed([target] + later.requests, later.ending)
  {
    next := w.resolve(w.answer(hops, target).location, target);
  }

  /** At most six requests in all, each to an allowed address and each the redirect of the one before. */
  lemma {:induction false} FollowIsBounded(w: Web, target: string, hops: nat)
    requires hops <= 6
    ensures var requests := Follow(w, target, hops).requests;
            && |requests| <= 6 - hops
            && (requests != [] ==> requests[0] == target)
            && (forall i | 0 <= i < |requests| :: w.allowed(requests[i]))
            && (forall i: nat | i + 1 < |requests| :: FollowsRedirect(w, requests, hops, i))
    decreases 6 - hops
  {
    if hops <= 5 && w.allowed(target) && w.answer(hops, target).Redirect? {
      var next := FollowOn(w, target, hops);
      FollowIsBounded(w, next, hops + 1);
      var requests, later := Follow(w, target, hops).requests, Follow(w, next, hops + 1).requests;
      hide Follow;
      forall i: nat | i + 1 < |requests| ensures FollowsRedirect(w, requests, hops, i) {
        if i > 0 { assert FollowsRedirect(w, later, hops + 1, i - 1); }
      }
    }
  }

  /** The last request and its answer, if any was made. */
  ghost function LastAnswer(w: Web, requests: seq<string>, hops: nat): Response
    requires requests != []
  {
    w.answer(hops + |requests| - 1, requests[|requests| - 1])
  }

  lemma {:induction false} LastAnswerLater(w: Web, target: string, later: seq<string>, hops: nat)
    requires later != []
    ensures LastAnswer(w, [target] + later, hops) == LastAnswer(w, later, hops + 1)
  {
    assert ([target] + later)[|later|] == later[|later| - 1];
  }

  /**
   A download succeeds exactly if its last request does and fails with the last request's status; a
   host is refused before it is asked; giving up takes all the requests there may be.
   */
  lemma {:induction false} FollowEnding(w: Web, target: string, hops: nat)
    requires hops <= 6
    ensures var f := Follow(w, target, hops);
            && (f.requests == [] ==> f.ending == if hops == 6 then TooManyRedirects else UnexpectedHost)
            && (f.requests == [] && hops < 6 ==> !w.allowed(target))
            && (f.requests != [] ==>
                  match LastAnswer(w, f.requests, hops)
                  case Success => f.ending == Fetched
                  case Refused(status) => f.ending == BadStatus(status)
                  case Redirect(_) =>
                    f.ending == if |f.requests| == 6 - hops then TooManyRedirects else UnexpectedHost)
    decreases 6 - hops
  {
    if hops <= 5 && w.allowed(target) && w.answer(hops, target).Redirect? {
      var next := FollowOn(w, target, hops);
      FollowEnding(w, next, hops + 1);
      var later := Follow(w, next, hops + 1).requests;
      hide Follow;
      if later != [] { LastAnswerLater(w, target, later, hops); }
    }
  }
}
