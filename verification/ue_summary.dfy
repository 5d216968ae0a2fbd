/** UE states and the per-state counts of a run (tester/run/snapshot.go). */
module UeSummaries {

  datatype UeState =
    | UePending | UeRegistering | UeRegistered | UeEstablishing | UeEstablished
    | UeFailed | UeSkipped | UeCancelled | UeDeregistering | UeDeregistered

  /** The ten counters, as a value. */
  datatype Summary = Summary(
    pending: int, registering: int, registered: int, establishing: int, established: int,
    failed: int, skipped: int, cancelled: int, deregistering: int, deregistered: int)
  {
    function Of(st: UeState): int {
      match st
      case UePending => pending
      case UeRegistering => registering
      case UeRegistered => registered
      case UeEstablishing => establishing
      case UeEstablished => established
      case UeFailed => failed
      case UeSkipped => skipped
      case UeCancelled => cancelled
      case UeDeregistering => deregistering
      case UeDeregistered => deregistered
    }

    function Add(st: UeState, d: int): Summary {
      match st
      case UePending => this.(pending := pending + d)
      case UeRegistering => this.(registering := registering + d)
      case UeRegistered => this.(registered := registered + d)
      case UeEstablishing => this.(establishing := establishing + d)
      case UeEstablished => this.(established := established + d)
      case UeFailed => this.(failed := failed + d)
      case UeSkipped => this.(skipped := skipped + d)
      case UeCancelled => this.(cancelled := cancelled + d)
      case UeDeregistering => this.(deregistering := deregistering + d)
      case UeDeregistered => this.(deregistered := deregistered + d)
    }

    /** One UE leaves state a for state b: the two additions setUeState makes. */
    function Move(a: UeState, b: UeState): Summary {
      Add(a, -1).Add(b, 1)
    }

    function Total(): int {
      pending + registering + registered + establishing + established
      + failed + skipped + cancelled + deregistering + deregistered
    }
  }

  /** UEs in state st. */
  function CountState(states: seq<UeState>, st: UeState): nat {
    if states == [] then 0 else CountState(states[..|states| - 1], st) + (if states[|states| - 1] == st then 1 else 0)
  }

  lemma {:induction false} CountStateUpdate(states: seq<UeState>, i: nat, st: UeState, x: UeState)
    requires i < |states|
    ensures CountState(states[i := st], x) == CountState(states, x) - (if states[i] == x then 1 else 0)
            + (if st == x then 1 else 0)
  {
    var n := |states| - 1;
    if i == n {
      assert states[i := st][..n] == states[..n];
    } else {
      CountStateUpdate(states[..n], i, st, x);
      assert states[i := st][..n] == states[..n][i := st];
    }
  }

  lemma MovesOne(s: Summary, a: UeState, b: UeState, x: UeState)
    ensures s.Move(a, b).Of(x) == s.Of(x) - (if a == x then 1 else 0) + (if b == x then 1 else 0)
  {
  }

  lemma {:induction false} AllPending(states: seq<UeState>, x: UeState)
    requires forall i :: 0 <= i < |states| ==> states[i] == UePending
    ensures CountState(states, x) == if x == UePending then |states| else 0
  {
    if states != [] {
      AllPending(states[..|states| - 1], x);
    }
  }

  lemma {:induction false} NobodyIn(states: seq<UeState>, st: UeState)
    requires st !in states
    ensures CountState(states, st) == 0
  {
    if states != [] {
      NobodyIn(states[..|states| - 1], st);
    }
  }

  lemma {:induction false} StatesAddUp(states: seq<UeState>, s: Summary)
    requires forall x: UeState :: s.Of(x) == CountState(states, x)
    ensures s.Total() == |states|
  {
    if states == [] {
      AddsFields(s);
    } else {
      var front, last := states[..|states| - 1], states[|states| - 1];
      var t := s.Add(last, -1);
      AddsOne(s, last, -1);
      hide Summary.Add, Summary.Of, Summary.Total;
      StatesAddUp(front, t);
    }
  }

  lemma AddsFields(s: Summary)
    ensures s.Of(UePending) + s.Of(UeRegistering) + s.Of(UeRegistered) + s.Of(UeEstablishing) + s.Of(UeEstablished)
            + s.Of(UeFailed) + s.Of(UeSkipped) + s.Of(UeCancelled) + s.Of(UeDeregistering) + s.Of(UeDeregistered)
            == s.Total()
  {
  }

  lemma AddsOne(s: Summary, st: UeState, d: int)
    ensures s.Add(st, d).Total() == s.Total() + d
    ensures forall x: UeState :: s.Add(st, d).Of(x) == s.Of(x) + (if x == st then d else 0)
  {
  }

  /** The run's UEs and their summary, changed together under the run's lock. */
  class UeStates {
    const states: array<UeState>
    var summary: Summary

    /** Every field of the summary is the number of UEs in its state. */
    ghost predicate Valid()
      reads this, states
    {
      forall x: UeState :: summary.Of(x) == CountState(states[..], x)
    }

    constructor (ues: nat)
      ensures Valid() && fresh(states) && states.Length == ues && forall i :: 0 <= i < ues ==> states[i] == UePending
    {
      states := new UeState[ues](i => UePending);
      summary := Summary(ues, 0, 0, 0, 0, 0, 0, 0, 0, 0);
      new;
      ghost var all := states[..];
      assert |all| == ues && forall i :: 0 <= i < |all| ==> all[i] == UePending;
      forall x: UeState ensures summary.Of(x) == CountState(all, x) {
        AllPending(all, x);
      }
    }

    /** setUeState. */
    method SetState(i: nat, st: UeState)
      requires Valid() && i < states.Length
      modifies `summary, states
      ensures Valid() && states[..] == old(states[..])[i := st]
      ensures summary == old(summary).Move(old(states[i]), st)
    {
      hide Summary.Of, Summary.Add, Summary.Move;
      ghost var before := states[..];
      forall x: UeState ensures summary.Move(states[i], st).Of(x) == CountState(before[i := st], x) {
        CountStateUpdate(before, i, st, x);
        MovesOne(summary, states[i], st, x);
      }
      summary := summary.Move(states[i], st);
      states[i] := st;
      assert states[..] == before[i := st];
    }

    /** The fields add up to the UE count. */
    lemma AddsUp()
      requires Valid()
      ensures summary.Total() == states.Length
    {
      StatesAddUp(states[..], summary);
    }
  }

  // ------------------------------------------------------------------- paging

  /** What a snapshot lists of a gNB. */
  datatype Entry = Entry(index: int, state: int)

  /** The gNBs in the states a page request asks for; none means all. */
  function Wanted(gnbs: seq<Entry>, asked: set<int>): seq<Entry> {
    if gnbs == [] then []
    else
      var g := gnbs[|gnbs| - 1];
      Wanted(gnbs[..|gnbs| - 1], asked) + (if asked == {} || g.state in asked then [g] else [])
  }

  function Clamp(x: int, lo: int, hi: int): (r: int)
    requires lo <= hi
    ensures lo <= r <= hi
  {
    if x < lo then lo else if x > hi then hi else x
  }

  /** Entries offset to offset + limit - 1; a negative limit means all from offset on. */
  function Page(all: seq<Entry>, offset: int, limit: int): seq<Entry> {
    var from := Clamp(offset, 0, |all|);
    all[from..if limit < 0 then |all| else Clamp(offset + limit, from, |all|)]
  }

  function InState(gnbs: seq<Entry>, st: int): nat {
    if gnbs == [] then 0
    else InState(gnbs[..|gnbs| - 1], st) + (if gnbs[|gnbs| - 1].state == st then 1 else 0)
  }

  /** Every gNB counted by state; a state no gNB is in is not listed. */
  ghost predicate StatesCounted(gnbs: seq<Entry>, counts: map<int, int>) {
    forall st :: if st in counts then counts[st] == InState(gnbs, st) > 0 else InState(gnbs, st) == 0
  }

  lemma OneCounted(gnbs: seq<Entry>, counts: map<int, int>, g: Entry)
    requires StatesCounted(gnbs, counts)
    ensures StatesCounted(gnbs + [g], counts[g.state := (if g.state in counts then counts[g.state] else 0) + 1])
  {
    assert (gnbs + [g])[..|gnbs|] == gnbs;
  }

  lemma OneMatched(all: seq<Entry>, offset: int, limit: int, g: Entry)
    ensures Page(all + [g], offset, limit)
            == Page(all, offset, limit) + (if |all| >= offset && (limit < 0 || |all| < offset + limit) then [g] else [])
  {
    var n, more := |all|, all + [g];
    if n < offset {
      assert Page(more, offset, limit) == [] == Page(all, offset, limit);
    } else {
      var from := Clamp(offset, 0, n);
      if limit < 0 || n < offset + limit {
        assert Page(all, offset, limit) == all[from..];
        assert Page(more, offset, limit) == more[from..] == all[from..] + [g];
      } else {
        var to := Clamp(offset + limit, from, n);
        assert Page(all, offset, limit) == all[from..to];
        assert Page(more, offset, limit) == more[from..to] == all[from..to];
      }
    }
  }

  /** GnbPage.pick: the page, how many gNBs the request matches, and all gNBs counted by state. */
  method Pick(gnbs: seq<Entry>, asked: set<int>, offset: int, limit: int)
    returns (page: seq<Entry>, total: nat, counts: map<int, int>)
    ensures total == |Wanted(gnbs, asked)| && page == Page(Wanted(gnbs, asked), offset, limit)
    ensures StatesCounted(gnbs, counts)
  {
    page, total, counts := [], 0, map[];
    for i := 0 to |gnbs|
      invariant total == |Wanted(gnbs[..i], asked)| && page == Page(Wanted(gnbs[..i], asked), offset, limit)
      invariant StatesCounted(gnbs[..i], counts)
    {
      hide Page, StatesCounted;
      var g := gnbs[i];
      assert gnbs[..i + 1][..i] == gnbs[..i] && gnbs[..i + 1] == gnbs[..i] + [g];
      OneCounted(gnbs[..i], counts, g);
      counts := counts[g.state := (if g.state in counts then counts[g.state] else 0) + 1];
      if asked != {} && g.state !in asked {
        continue;
      }
      OneMatched(Wanted(gnbs[..i], asked), offset, limit, g);
      if total >= offset && (limit < 0 || total < offset + limit) {
        page := page + [g];
      }
      total := total + 1;
    }
    assert gnbs[..|gnbs|] == gnbs;
  }

  /** Pages of limit entries, one after the other. */
  function Pages(all: seq<Entry>, offset: nat, limit: nat): seq<Entry>
    requires limit > 0
    decreases |all| - offset
  {
    if offset >= |all| then [] else Page(all, offset, limit) + Pages(all, offset + limit, limit)
  }

  /** Paging through shows every entry once, in order. */
  lemma {:induction false} PagesTile(all: seq<Entry>, offset: nat, limit: nat)
    requires limit > 0 && offset <= |all|
    ensures Pages(all, offset, limit) == all[offset..]
    decreases |all| - offset
  {
    if offset + limit <= |all| {
      PagesTile(all, offset + limit, limit);
    }
  }

  /** What the page request matches is exactly the gNBs in its states, so its total is theirs. */
  lemma {:induction false} WantedOnes(gnbs: seq<Entry>, st: int)
    ensures |Wanted(gnbs, {st})| == InState(gnbs, st) && Wanted(gnbs, {}) == gnbs
    ensures forall g :: g in Wanted(gnbs, {st}) ==> g in gnbs && g.state == st
  {
    if gnbs != [] {
      var n := |gnbs| - 1;
      WantedOnes(gnbs[..n], st);
      assert gnbs == gnbs[..n] + [gnbs[n]];
    }
  }
}
