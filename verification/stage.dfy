/** The outcome counters of one pipeline stage (tester/metrics/stage.go). */
module MetricsStage {
  import opened Basics

  datatype Outcome = Accepted | Rejected | TimedOut | Failed

  /** The integer counters of a stage, as a value. */
  datatype Counters = Counters(
    attempted: int, retries: int, inFlight: int, skipped: int,
    accepted: int, rejected: int, timedOut: int, failed: int)
  {
    function Begin(retry: bool): Counters {
      var c := if retry then this.(retries := retries + 1) else this.(attempted := attempted + 1);
      c.(inFlight := inFlight + 1)
    }

    function Retrying(): Counters {
      this.(inFlight := inFlight - 1)
    }

    function Finish(o: Outcome): Counters {
      var c := this.(inFlight := inFlight - 1);
      match o
      case Accepted => c.(accepted := accepted + 1)
      case Rejected => c.(rejected := rejected + 1)
      case TimedOut => c.(timedOut := timedOut + 1)
      case Failed => c.(failed := failed + 1)
    }

    function Skip(): Counters {
      this.(skipped := skipped + 1)
    }

    /** Items with a final outcome. */
    function Finished(): int {
      accepted + rejected + timedOut + failed
    }

    /** Items that will never be attempted again: what Done compares with Expected. */
    function Ended(): int {
      Finished() + skipped
    }

    function Begun(): int {
      attempted + retries
    }

    function Plus(o: Counters): Counters {
      Counters(attempted + o.attempted, retries + o.retries, inFlight + o.inFlight, skipped + o.skipped,
               accepted + o.accepted, rejected + o.rejected, timedOut + o.timedOut, failed + o.failed)
    }
  }

  lemma PlusSwaps(a: Counters, b: Counters, c: Counters)
    ensures a.Plus(b).Plus(c) == a.Plus(c).Plus(b)
  {
  }

  lemma PlusCancels(a: Counters, b: Counters, x: Counters)
    requires a.Plus(x) == b.Plus(x)
    ensures a == b
  {
  }

  function Zero(): Counters {
    Counters(0, 0, 0, 0, 0, 0, 0, 0)
  }

  // ---------------------------------------------------------------- the stage

  function Index(o: Outcome): int {
    match o case Accepted => 0 case Rejected => 1 case TimedOut => 2 case Failed => 3
  }

  /** How often c is among the causes recorded. */
  function Times(causes: seq<string>, c: string): nat {
    if causes == [] then 0 else Times(causes[..|causes| - 1], c) + (if causes[|causes| - 1] == c then 1 else 0)
  }

  /** From the first Begin to the last outcome; nothing without both. */
  function Span(first: Option<real>, last: Option<real>): real {
    if first.Some? && last.Some? then last.value - first.value else 0.0
  }

  class Stage {
    const expected: int
    var attempted: int
    var retries: int
    var inFlight: int
    var skipped: int
    var outcomes: seq<int>          // one count per outcome
    var causes: map<string, int>
    var latencies: seq<real>        // what the histogram was given
    var firstAt: Option<real>
    var lastAt: Option<real>
    ghost var failures: seq<string>  // the cause of every outcome that is not Accepted, oldest first

    ghost predicate Shape()
      reads this
    {
      |outcomes| == 4
    }

    ghost function Abs(): Counters
      requires Shape()
      reads this
    {
      Counters(attempted, retries, inFlight, skipped, outcomes[0], outcomes[1], outcomes[2], outcomes[3])
    }

    ghost predicate CausesOk()
      reads this
    {
      && (forall c :: c in causes ==> causes[c] == Times(failures, c) > 0)
      && (forall c :: c !in causes ==> Times(failures, c) == 0)
    }

    /** Every accepted item has a latency, every other outcome one cause, and the times bracket what was counted. */
    ghost predicate Valid()
      reads this
    {
      && Shape()
      && |latencies| == Abs().accepted
      && |failures| == Abs().rejected + Abs().timedOut + Abs().failed
      && CausesOk()
      && (lastAt.Some? <==> Abs().Finished() > 0)
      && (firstAt.None? ==> Abs().Begun() == 0)
      && (lastAt.Some? ==> firstAt.Some? && firstAt.value <= lastAt.value)
    }

    /** The clock has not gone back. */
    ghost predicate Before(now: real)
      reads this
    {
      (firstAt.Some? ==> firstAt.value <= now) && (lastAt.Some? ==> lastAt.value <= now)
    }

    constructor (expected: int)
      ensures Shape() && Abs() == Zero()
      ensures Valid() && this.expected == expected && failures == [] && firstAt.None? && lastAt.None?
    {
      this.expected := expected;
      attempted, retries, inFlight, skipped := 0, 0, 0, 0;
      outcomes := [0, 0, 0, 0];
      causes, latencies, failures := map[], [], [];
      firstAt := None;
      lastAt := None;
    }

    method Begin(retry: bool, now: real)
      requires Valid() && Before(now)
      modifies this
      ensures Valid() && Before(now) && Abs() == old(Abs()).Begin(retry)
      ensures failures == old(failures) && latencies == old(latencies) && lastAt == old(lastAt)
      ensures firstAt == if old(firstAt).None? then Some(now) else old(firstAt)
    {
      if firstAt.None? {
        firstAt := Some(now);
      }
      if retry {
        retries := retries + 1;
      } else {
        attempted := attempted + 1;
      }
      inFlight := inFlight + 1;
    }

    method Retrying()
      requires Valid()
      modifies `inFlight
      ensures Valid() && Abs() == old(Abs()).Retrying()
    {
      inFlight := inFlight - 1;
    }

    /** An outcome follows a Begin. A failure without a cause has the cause "unknown". */
    method Finish(o: Outcome, latency: real, cause: string, now: real)
      requires Valid() && Before(now) && firstAt.Some?
      modifies this
      ensures Valid() && Before(now) && Abs() == old(Abs()).Finish(o)
      ensures lastAt == Some(now) && firstAt == old(firstAt)
      ensures latencies == if o == Accepted then old(latencies) + [latency] else old(latencies)
      ensures failures == if o == Accepted then old(failures)
              else old(failures) + [if cause == "" then "unknown" else cause]
    {
      assert CausesOk();
      hide CausesOk;
      inFlight := inFlight - 1;
      outcomes := outcomes[Index(o) := outcomes[Index(o)] + 1];
      lastAt := Some(now);
      if o == Accepted {
        latencies := latencies + [latency];
        return;
      }
      AddCause(if cause == "" then "unknown" else cause);
    }

    method AddCause(c: string)
      requires CausesOk()
      modifies `causes, `failures
      ensures CausesOk() && failures == old(failures) + [c]
    {
      TimesMore(failures, c);
      causes := causes[c := if c in causes then causes[c] + 1 else 1];
      failures := failures + [c];
    }

    method Skip()
      requires Valid()
      modifies `skipped
      ensures Valid() && Abs() == old(Abs()).Skip()
    {
      skipped := skipped + 1;
    }

    /** Snapshot's Done: every expected item has ended. */
    function Done(): (done: bool)
      requires Valid()
      reads this
      ensures done <==> Abs().Ended() == expected
    {
      outcomes[0] + outcomes[1] + outcomes[2] + outcomes[3] + skipped == expected
    }

    /** Snapshot's total time: it runs with the clock until the stage is done, and then the clock is not in it. */
    method TotalTime(now: real) returns (t: real)
      requires Valid() && Before(now)
      ensures t >= 0.0
      ensures Done() ==> t == Span(firstAt, lastAt)
      ensures !Done() && firstAt.Some? ==> firstAt.value + t == now
    {
      t := 0.0;
      if firstAt.Some? {
        var end := now;
        if Done() {
          end := if lastAt.Some? then lastAt.value else firstAt.value;
        }
        t := end - firstAt.value;
      }
    }
  }

  lemma TimesMore(causes: seq<string>, c: string)
    ensures forall d :: Times(causes + [c], d) == Times(causes, d) + (if d == c then 1 else 0)
  {
    assert (causes + [c])[..|causes|] == causes;
  }
}
