// Busy-time accounting of the VDSP: three counters against a recorded history of when work was in progress.
// The clock reads of one call are taken as one instant.
module BusyTime {

  // history[t] says whether work was in progress from t to t + 1; the number of true entries from a to b is
  // the measure of the union of all pieces of work, clipped to that window.
  ghost function Busy(history: seq<bool>, a: nat, b: nat): nat
    requires b <= |history|
  {
    if b <= a then 0 else Busy(history, a, b - 1) + if history[b - 1] then 1 else 0
  }

  lemma {:induction false} BusyBounded(h: seq<bool>, a: nat, b: nat)
    requires a <= b <= |h|
    ensures Busy(h, a, b) <= b - a
  {
    if a < b { BusyBounded(h, a, b - 1); }
  }

  // Consecutive windows add up.
  lemma {:induction false} BusyAdditive(h: seq<bool>, a: nat, b: nat, c: nat)
    requires a <= b <= c <= |h|
    ensures Busy(h, a, c) == Busy(h, a, b) + Busy(h, b, c)
  {
    if b < c { BusyAdditive(h, a, b, c - 1); }
  }

  lemma {:induction false} BusyThroughout(h: seq<bool>, a: nat, b: nat)
    requires a <= b <= |h| && forall t :: a <= t < b ==> h[t]
    ensures Busy(h, a, b) == b - a
  {
    if a < b { BusyThroughout(h, a, b - 1); }
  }

  lemma {:induction false} BusyNever(h: seq<bool>, a: nat, b: nat)
    requires b <= |h| && forall t :: a <= t < b ==> !h[t]
    ensures Busy(h, a, b) == 0
  {
    if a < b { BusyNever(h, a, b - 1); }
  }

  // The past does not change.
  lemma {:induction false} BusyPrefix(h: seq<bool>, more: seq<bool>, a: nat, b: nat)
    requires b <= |h|
    ensures Busy(h + more, a, b) == Busy(h, a, b)
  {
    if a < b { BusyPrefix(h, more, a, b - 1); }
  }

  // d time units, all busy or all not.
  ghost function Span(d: nat, busy: bool): seq<bool> {
    seq(d, _ => busy)
  }

  function Max(a: nat, b: nat): nat {
    if a > b then a else b
  }

  class Accounting {
    var workingCount: nat
    var pieceStart: nat
    var startTime: nat
    var cycleTotal: nat
    ghost var history: seq<bool>
    ghost var origin: nat       // when accounting began
    ghost var sampled: nat      // sum of the totals of all samples since

    ghost function Now(): nat
      reads this
    {
      |history|
    }

    ghost predicate Valid()
      reads this
    {
      && origin <= startTime <= Now() && sampled == Busy(history, origin, startTime)
      && (workingCount == 0 ==> cycleTotal == Busy(history, startTime, Now()))
      && (workingCount > 0 ==>
            && pieceStart <= Now() && (forall t :: pieceStart <= t < Now() ==> history[t])
            && cycleTotal == Busy(history, startTime, Max(pieceStart, startTime)))
    }

    // init_dvfs
    constructor (now: nat)
      ensures Valid() && history == Span(now, false) && workingCount == 0 && startTime == origin == now && sampled == 0
    {
      workingCount, pieceStart, cycleTotal, startTime := 0, 0, 0, now;
      history, origin, sampled := Span(now, false), now, 0;
    }

    // Time passes.
    ghost method Pass(d: nat)
      requires Valid()
      modifies this`history
      ensures Valid() && history == old(history) + Span(d, workingCount > 0)
    {
      var more := Span(d, workingCount > 0);
      BusyPrefix(history, more, origin, startTime);
      BusyPrefix(history, more, startTime, Now());
      BusyPrefix(history, more, startTime, if Max(pieceStart, startTime) <= Now() then Max(pieceStart, startTime) else 0);
      if workingCount == 0 {
        BusyNever(history + more, Now(), Now() + d);
        BusyAdditive(history + more, startTime, Now(), Now() + d);
      }
      history := history + more;
    }

    // preprocess_work_piece at time now
    method Begin(now: nat)
      requires Valid() && now == Now()
      modifies this`workingCount, this`pieceStart
      ensures Valid() && workingCount == old(workingCount) + 1
    {
      if workingCount == 0 {
        pieceStart := now;
      }
      workingCount := workingCount + 1;
    }

    // postprocess_work_piece at time now
    method End(now: nat)
      requires Valid() && now == Now() && workingCount > 0
      modifies this`workingCount, this`cycleTotal
      ensures Valid() && workingCount == old(workingCount) - 1
    {
      workingCount := workingCount - 1;
      if workingCount == 0 {
        var realStart := Max(pieceStart, startTime);
        BusyThroughout(history, realStart, now);
        BusyAdditive(history, startTime, realStart, now);
        cycleTotal := cycleTotal + (now - realStart);
      }
    }

    // calculate_vdsp_usage at time now, with fromtime the start of the current window: exactly the time
    // since then during which work was in progress, in percent.
    method Sample(now: nat) returns (total: nat, percent: nat)
      requires Valid() && now == Now() && now > startTime
      modifies this`cycleTotal, this`startTime, this`sampled
      ensures total == Busy(history, old(startTime), now) && total <= now - old(startTime)
      ensures percent == total * 100 / (now - old(startTime)) && percent <= 100
      ensures Valid() && startTime == now && sampled == Busy(history, origin, now) == old(sampled) + total
    {
      var fromTime := startTime;
      if workingCount != 0 {
        BusyThroughout(history, Max(pieceStart, fromTime), now);
        BusyAdditive(history, fromTime, Max(pieceStart, fromTime), now);
        if pieceStart <= fromTime {
          cycleTotal := now - fromTime;
        } else {
          cycleTotal := cycleTotal + (now - pieceStart);
        }
      }
      total := cycleTotal;
      BusyBounded(history, fromTime, now);
      PercentBounded(total, now - fromTime);
      percent := total * 100 / (now - fromTime);
      BusyAdditive(history, origin, fromTime, now);
      sampled := sampled + total;
      startTime := now;
      cycleTotal := 0;
    }
  }

  lemma PercentBounded(part: nat, whole: nat)
    requires part <= whole && whole > 0
    ensures part * 100 / whole <= 100
  {
    assert part * 100 <= 100 * whole;
  }

  // ---- whole schedules ----

  datatype Event = Wait(d: nat) | Start | Finish | Look

  // Whether the events are ones the service can produce: no piece of work ends that has not begun.
  ghost predicate Matched(es: seq<Event>, working: nat) {
    es == [] ||
    match es[0]
    case Wait(_) => Matched(es[1..], working)
    case Start => Matched(es[1..], working + 1)
    case Finish => working > 0 && Matched(es[1..], working - 1)
    case Look => Matched(es[1..], working)
  }

  // The history a schedule produces, from the definition of busy alone.
  ghost function HistoryOf(es: seq<Event>, working: nat): seq<bool>
    requires Matched(es, working)
  {
    if es == [] then [] else
    match es[0]
    case Wait(d) => Span(d, working > 0) + HistoryOf(es[1..], working)
    case Start => HistoryOf(es[1..], working + 1)
    case Finish => HistoryOf(es[1..], working - 1)
    case Look => HistoryOf(es[1..], working)
  }

  // The time of the last sample.
  ghost function LastLook(es: seq<Event>, now: nat, last: nat): nat {
    if es == [] then last else
    match es[0]
    case Wait(d) => LastLook(es[1..], now + d, last)
    case Look => LastLook(es[1..], now, now)
    case _ => LastLook(es[1..], now, last)
  }

  // Any sequence of beginnings, ends and samples on a clock that does not go back: the samples' totals add
  // up to the busy time from the beginning to the last sample.
  method Play(es: seq<Event>, start: nat) returns (sum: nat, last: nat)
    requires Matched(es, 0)
    ensures start <= last == LastLook(es, start, start) <= start + |HistoryOf(es, 0)|
    ensures sum == Busy(Span(start, false) + HistoryOf(es, 0), start, last)
  {
    var a := new Accounting(start);
    var now, i := start, 0;
    ghost var full := a.history + HistoryOf(es, 0);
    sum, last := 0, start;
    while i < |es|
      invariant i <= |es| && a.Valid() && fresh(a) && a.Now() == now
      invariant Matched(es[i..], a.workingCount) && full == a.history + HistoryOf(es[i..], a.workingCount)
      invariant LastLook(es[i..], now, last) == LastLook(es, start, start)
      invariant sum == a.sampled && last == a.startTime && a.origin == start
    {
      ghost var rest := es[i..];
      assert rest[1..] == es[i + 1..];
      match es[i] {
        case Wait(d) =>
          Reassociate(a.history, Span(d, a.workingCount > 0), HistoryOf(rest[1..], a.workingCount));
          a.Pass(d);
          now := now + d;
        case Start => a.Begin(now);
        case Finish => a.End(now);
        case Look =>
          if now > last {
            var total, percent := a.Sample(now);
            sum, last := sum + total, now;
          }
      }
      i := i + 1;
    }
    assert es[i..] == [] && a.history + [] == a.history;
  }

  lemma Reassociate(a: seq<bool>, b: seq<bool>, c: seq<bool>)
    ensures a + (b + c) == (a + b) + c
  {
  }
}
