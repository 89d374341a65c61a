/**
 What one poll cycle reports. The bot compares the stored snapshot with the
 current one in three passes (openings, then size changes, then closures);
 each pass yields steps, a step being a notification to send or a division
 by zero that raises. `Plan` is the list of steps of a whole cycle, `Execute`
 is what sending them produces when a send may fail, and `Classify` with
 `StepFor` is the per-symbol reference the plan is proved against.
 */
module Transitions {
  import opened Wrappers
  import opened Positions
  import opened WeightedAvg

  /** The four transitions a symbol can make between two polls. */
  datatype Transition = Opened | Added | Reduced | Closed

  /** The data of one notification, as the bot hands it to its message templates.
      A closure is reported as a reduction whose remaining size is 0. */
  datatype Event =
    | NewPosition(symbol: Symbol, side: Side, leverage: string,
                  size: real, entryPrice: real, notionalValue: real)
    | PositionAdded(symbol: Symbol, side: Side, leverage: string,
                    currentSize: real, addedSize: real, newAvgPrice: real, notionalValue: real)
    | PositionReduced(symbol: Symbol, side: Side, leverage: string,
                      remainingSize: real, reducedSize: real, exitPrice: real, avgEntryPrice: real,
                      notionalValue: real, pnl: real, pnlPercent: real)

  /** A notification to send, or the ZeroDivisionError raised while computing one. */
  datatype Step = Emit(event: Event) | Raise(symbol: Symbol, during: Transition)

  type Snapshot = map<Symbol, Position>

  function SymbolOf(st: Step): Symbol
  {
    match st
    case Emit(e) => e.symbol
    case Raise(s, _) => s
  }

  function Symbols(p: seq<Step>): (r: seq<Symbol>)
    ensures |r| == |p|
  {
    seq(|p|, i requires 0 <= i < |p| => SymbolOf(p[i]))
  }

  /** The transition a notification reports; a reduction to 0 is a closure. */
  function Reported(e: Event): Transition
  {
    match e
    case NewPosition(_, _, _, _, _, _) => Opened
    case PositionAdded(_, _, _, _, _, _, _) => Added
    case PositionReduced(_, _, _, remaining, _, _, _, _, _, _) =>
      if remaining == 0.0 then Closed else Reduced
  }

  function KindOf(st: Step): Transition
  {
    match st
    case Emit(e) => Reported(e)
    case Raise(_, t) => t
  }

  /** The value of `size` units at `price`. */
  function Notional(size: real, price: real): real
  {
    size * price
  }

  /** PnL as a percentage of the cost basis, the notional value of the stored
      position; None where the division raises. */
  function PnlPercent(pnl: real, size: real, price: real): (r: Option<real>)
    ensures r.None? <==> Notional(size, price) == 0.0
    ensures r.Some? ==> r.value * Notional(size, price) == pnl * 100.0
  {
    var basis := Notional(size, price);
    if basis == 0.0 then None else Some(pnl / basis * 100.0)
  }

  // ---------------------------------------------------------------------------
  // The payload of each kind of notification

  /** A new position: the current lot, with its notional at the entry price. */
  function OpenedStep(s: Symbol, pos: Position): (r: Step)
    ensures r.Emit? && r.event.NewPosition? && SymbolOf(r) == s && KindOf(r) == Opened
    ensures r.event.size == pos.size && r.event.entryPrice == pos.avgPrice
    ensures r.event.notionalValue == Notional(r.event.size, r.event.entryPrice)
  {
    Emit(NewPosition(s, SideOf(pos), pos.leverage, pos.size, pos.avgPrice, Notional(pos.size, pos.avgPrice)))
  }

  /** A grown position: what was added on top of the stored size, its notional
      at the current price, and the two-lot weighted average. */
  function AddedStep(s: Symbol, prev: Position, pos: Position): (r: Step)
    ensures r.Emit? && r.event.PositionAdded? && SymbolOf(r) == s && KindOf(r) == Added
    ensures r.event.currentSize == prev.size + r.event.addedSize
    ensures pos.size > prev.size ==> r.event.addedSize > 0.0
    ensures r.event.notionalValue == Notional(r.event.addedSize, pos.avgPrice)
  {
    var added := pos.size - prev.size;
    Emit(PositionAdded(s, SideOf(pos), pos.leverage, pos.size, added,
                       CalculateWeightedAvg([prev, pos]), Notional(added, pos.avgPrice)))
  }

  /** A shrunk position: what was taken off the stored size, its notional at the
      stored price, and the PnL percentage; a zero stored cost basis raises. */
  function ReducedStep(s: Symbol, prev: Position, pos: Position): (r: Step)
    ensures SymbolOf(r) == s
    ensures r.Raise? <==> Notional(prev.size, prev.avgPrice) == 0.0
    ensures r.Raise? ==> r.during == Reduced
    ensures r.Emit? ==> && r.event.PositionReduced?
                        && r.event.remainingSize + r.event.reducedSize == prev.size
                        && r.event.notionalValue == Notional(r.event.reducedSize, prev.avgPrice)
                        && r.event.pnlPercent * Notional(prev.size, prev.avgPrice) == r.event.pnl * 100.0
    ensures pos.size != 0.0 ==> KindOf(r) == Reduced
  {
    var reduced := prev.size - pos.size;
    match PnlPercent(pos.unrealisedPnl, prev.size, prev.avgPrice)
    case None => Raise(s, Reduced)
    case Some(pct) =>
      Emit(PositionReduced(s, SideOf(pos), pos.leverage, pos.size, reduced, pos.avgPrice,
                           prev.avgPrice, Notional(reduced, prev.avgPrice), pos.unrealisedPnl, pct))
  }

  /** A vanished position, reported as a reduction of the whole stored size to 0;
      a zero stored cost basis raises. */
  function ClosedStep(s: Symbol, prev: Position): (r: Step)
    ensures SymbolOf(r) == s && KindOf(r) == Closed
    ensures r.Raise? <==> Notional(prev.size, prev.avgPrice) == 0.0
    ensures r.Emit? ==> && r.event.PositionReduced?
                        && r.event.remainingSize == 0.0 && r.event.reducedSize == prev.size
                        && r.event.pnlPercent * Notional(prev.size, prev.avgPrice) == r.event.pnl * 100.0
  {
    match PnlPercent(prev.unrealisedPnl, prev.size, prev.avgPrice)
    case None => Raise(s, Closed)
    case Some(pct) =>
      Emit(PositionReduced(s, SideOf(prev), prev.leverage, 0.0, prev.size, prev.avgPrice,
                           prev.avgPrice, Notional(prev.size, prev.avgPrice), prev.unrealisedPnl, pct))
  }

  // ---------------------------------------------------------------------------
  // The three passes of a cycle

  /** The three loops of a poll, in the order they run. */
  datatype Phase = Openings | Modifications | Closures

  function PhaseOrder(phase: Phase): nat
  {
    match phase
    case Openings => 0
    case Modifications => 1
    case Closures => 2
  }

  /** What one pass does for one symbol: the openings and modifications passes
      visit the keys of the current snapshot, the closures pass the symbols that
      were stored but are no longer current. */
  function PhaseStep(phase: Phase, h: Snapshot, c: Snapshot, s: Symbol): (r: seq<Step>)
    ensures |r| <= 1
    ensures forall i :: 0 <= i < |r| ==> SymbolOf(r[i]) == s
  {
    match phase
    case Openings =>
      if s in c && s !in h then [OpenedStep(s, c[s])] else []
    case Modifications =>
      if s in c && s in h then
        if c[s].size > h[s].size then [AddedStep(s, h[s], c[s])]
        else if c[s].size < h[s].size then [ReducedStep(s, h[s], c[s])]
        else []
      else []
    case Closures =>
      if s in h && s !in c then [ClosedStep(s, h[s])] else []
  }

  /** One pass over a list of symbols. */
  function PhaseSteps(phase: Phase, h: Snapshot, c: Snapshot, keys: seq<Symbol>): seq<Step>
  {
    if keys == [] then []
    else PhaseSteps(phase, h, c, keys[..|keys| - 1]) + PhaseStep(phase, h, c, keys[|keys| - 1])
  }

  /** The whole cycle: openings and modifications in the current snapshot's key
      order, closures in `order`, the order in which the set of vanished symbols
      is visited. */
  function Plan(h: Snapshot, cur: Dict, order: seq<Symbol>): seq<Step>
  {
    PhaseSteps(Openings, h, cur.entries, cur.keys)
    + PhaseSteps(Modifications, h, cur.entries, cur.keys)
    + PhaseSteps(Closures, h, cur.entries, order)
  }

  /** `order` lists every element of `s` exactly once. */
  predicate Enumerates(order: seq<Symbol>, s: set<Symbol>)
  {
    && NoDuplicates(order)
    && (forall x :: x in order ==> x in s)
    && (forall x :: x in s ==> x in order)
  }

  /** Some listing of a finite set: the order in which a set of vanished symbols may be visited. */
  ghost function SomeEnumeration(s: set<Symbol>): (r: seq<Symbol>)
    ensures Enumerates(r, s)
    decreases |s|
  {
    if s == {} then []
    else
      var x :| x in s;
      var rest := SomeEnumeration(s - {x});
      assert forall y :: y in rest ==> y != x;
      NoDuplicatesAppend([x], rest);
      [x] + rest
  }

  /** Listing the visited symbols, then the one being visited, then the rest lists the whole set. */
  lemma EnumeratesJoin(visited: seq<Symbol>, x: Symbol, rest: set<Symbol>, all: set<Symbol>)
    requires Enumerates(visited, all - rest) && x in rest && rest <= all
    ensures Enumerates(visited + [x] + SomeEnumeration(rest - {x}), all)
  {
    var e := SomeEnumeration(rest - {x});
    NoDuplicatesAppend(visited, [x]);
    NoDuplicatesAppend(visited + [x], e);
  }

  // ---------------------------------------------------------------------------
  // Sending the steps

  /** What a cycle sent, and whether it ran to the end. */
  datatype Cycle = Cycle(sent: seq<Event>, completed: bool)

  /** Send the steps in order. The first Raise ends the cycle, and so does the
      send numbered `failingSend` (counting from `count`); what was sent before stays sent. */
  function Execute(steps: seq<Step>, failingSend: Option<nat>, count: nat): (r: Cycle)
    ensures r.completed ==> |r.sent| == |steps|
    decreases |steps|
  {
    if steps == [] then Cycle([], true)
    else match steps[0]
      case Raise(_, _) => Cycle([], false)
      case Emit(e) =>
        if failingSend == Some(count) then Cycle([], false)
        else
          var rest := Execute(steps[1..], failingSend, count + 1);
          Cycle([e] + rest.sent, rest.completed)
  }

  /** What a cycle sent is the events of a prefix of its steps. */
  lemma {:induction false} ExecuteSendsSteps(steps: seq<Step>, failingSend: Option<nat>, count: nat)
    ensures var r := Execute(steps, failingSend, count);
            && |r.sent| <= |steps|
            && forall i :: 0 <= i < |r.sent| ==> steps[i] == Emit(r.sent[i])
    decreases |steps|
  {
    if steps != [] && steps[0].Emit? && failingSend != Some(count) {
      ExecuteSendsSteps(steps[1..], failingSend, count + 1);
    }
  }

  /** A cycle runs to the end exactly when no step raises and the failing send, if any, lies outside it. */
  lemma {:induction false} ExecuteCompletes(steps: seq<Step>, failingSend: Option<nat>, count: nat)
    ensures Execute(steps, failingSend, count).completed <==>
              && (forall i :: 0 <= i < |steps| ==> steps[i].Emit?)
              && (failingSend.None? || failingSend.value < count || count + |steps| <= failingSend.value)
    decreases |steps|
  {
    if steps != [] {
      ExecuteCompletes(steps[1..], failingSend, count + 1);
      assert forall i :: 1 <= i < |steps| ==> steps[i] == steps[1..][i - 1];
    }
  }

  /** Running two lists of steps one after the other. */
  lemma {:induction false} ExecuteAppend(a: seq<Step>, b: seq<Step>, failingSend: Option<nat>, count: nat)
    ensures Execute(a + b, failingSend, count)
            == Then(Execute(a, failingSend, count), Execute(b, failingSend, count + |a|))
    decreases |a|
  {
    if a == [] {
      assert a + b == b;
    } else {
      assert (a + b)[0] == a[0];
      assert (a + b)[1..] == a[1..] + b;
      var n := count + 1 + |a[1..]|;
      assert n == count + |a|;
      ExecuteAppend(a[1..], b, failingSend, count + 1);
      var rb := Execute(b, failingSend, n);
      assert rb == Execute(b, failingSend, count + |a|);
      match a[0]
      case Raise(_, _) =>
      case Emit(e) =>
        if failingSend != Some(count) {
          var ra' := Execute(a[1..], failingSend, count + 1);
          assert [e] + (ra'.sent + rb.sent) == ([e] + ra'.sent) + rb.sent;
        }
    }
  }

  /** Run `first`, and `second` after it when `first` ran to the end. */
  function Then(first: Cycle, second: Cycle): Cycle
  {
    if first.completed then Cycle(first.sent + second.sent, second.completed) else first
  }

  /** A cycle run pass by pass: each pass numbers its sends after the previous
      pass's, and runs only if the previous one ran to the end. */
  function RunPasses(h: Snapshot, cur: Dict, order: seq<Symbol>, failingSend: Option<nat>): (r: Cycle)
    ensures r.completed ==> |r.sent| == |Plan(h, cur, order)|
  {
    var ra := Execute(PhaseSteps(Openings, h, cur.entries, cur.keys), failingSend, 0);
    var rb := Execute(PhaseSteps(Modifications, h, cur.entries, cur.keys), failingSend, |ra.sent|);
    var rd := Execute(PhaseSteps(Closures, h, cur.entries, order), failingSend, |ra.sent| + |rb.sent|);
    Then(ra, Then(rb, rd))
  }

  /** Three runs of steps one after another. */
  lemma ThreeRuns(a: seq<Step>, b: seq<Step>, d: seq<Step>, failingSend: Option<nat>)
    ensures var ra := Execute(a, failingSend, 0);
            var rb := Execute(b, failingSend, |ra.sent|);
            Execute(a + b + d, failingSend, 0)
            == Then(ra, Then(rb, Execute(d, failingSend, |ra.sent| + |rb.sent|)))
  {
    assert a + b + d == a + (b + d);
    ExecuteAppend(a, b + d, failingSend, 0);
    ExecuteAppend(b, d, failingSend, |a|);
  }

  /** Running the passes one after another is running the whole plan. */
  lemma CycleOfPasses(h: Snapshot, cur: Dict, order: seq<Symbol>, failingSend: Option<nat>)
    ensures RunPasses(h, cur, order, failingSend) == Execute(Plan(h, cur, order), failingSend, 0)
  {
    ThreeRuns(PhaseSteps(Openings, h, cur.entries, cur.keys),
              PhaseSteps(Modifications, h, cur.entries, cur.keys),
              PhaseSteps(Closures, h, cur.entries, order), failingSend);
  }

  // ---------------------------------------------------------------------------
  // The per-symbol reference

  /** The transition of one symbol between the stored snapshot h and the current one c. */
  function Classify(h: Snapshot, c: Snapshot, s: Symbol): Option<Transition>
  {
    if s !in h then (if s in c then Some(Opened) else None)
    else if s !in c then Some(Closed)
    else if c[s].size > h[s].size then Some(Added)
    else if c[s].size < h[s].size then Some(Reduced)
    else None
  }

  function PhaseOf(t: Transition): Phase
  {
    match t
    case Opened => Openings
    case Added => Modifications
    case Reduced => Modifications
    case Closed => Closures
  }

  predicate InPhase(phase: Phase, h: Snapshot, c: Snapshot, s: Symbol)
  {
    Classify(h, c, s).Some? && PhaseOf(Classify(h, c, s).value) == phase
  }

  /** The step the cycle takes for a symbol that made a transition. */
  function StepFor(h: Snapshot, c: Snapshot, s: Symbol): Step
    requires Classify(h, c, s).Some?
  {
    match Classify(h, c, s).value
    case Opened => OpenedStep(s, c[s])
    case Added => AddedStep(s, h[s], c[s])
    case Reduced => ReducedStep(s, h[s], c[s])
    case Closed => ClosedStep(s, h[s])
  }

  /** The step for a symbol carries that symbol and reports its transition. */
  lemma StepForKind(h: Snapshot, c: Snapshot, s: Symbol)
    requires AllOpen(c)
    requires Classify(h, c, s).Some?
    ensures SymbolOf(StepFor(h, c, s)) == s
    ensures KindOf(StepFor(h, c, s)) == Classify(h, c, s).value
  {
  }

  /** The numbers each notification carries. An opening reports the current lot
      and its notional; an addition a positive added size, with notional at the
      current average price; a reduction a positive reduced size, with notional at
      the stored average price; a closure the whole stored size and a remaining
      size of 0, with side and leverage taken from the stored position. The PnL
      percentage is the PnL per cost basis of the stored position, times 100. */
  lemma StepPayload(h: Snapshot, c: Snapshot, s: Symbol)
    requires AllOpen(c)
    requires Classify(h, c, s).Some? && StepFor(h, c, s).Emit?
    ensures var e := StepFor(h, c, s).event;
            match Classify(h, c, s).value
            case Opened =>
              && e.NewPosition? && e.side == SideOf(c[s]) && e.leverage == c[s].leverage
              && e.size == c[s].size > 0.0 && e.entryPrice == c[s].avgPrice
              && e.notionalValue == Notional(c[s].size, c[s].avgPrice)
            case Added =>
              && e.PositionAdded? && e.side == SideOf(c[s]) && e.leverage == c[s].leverage
              && e.currentSize == c[s].size && e.addedSize == c[s].size - h[s].size > 0.0
              && e.newAvgPrice == CalculateWeightedAvg([h[s], c[s]])
              && e.notionalValue == Notional(e.addedSize, c[s].avgPrice)
            case Reduced =>
              && e.PositionReduced? && e.side == SideOf(c[s]) && e.leverage == c[s].leverage
              && e.remainingSize == c[s].size > 0.0 && e.reducedSize == h[s].size - c[s].size > 0.0
              && e.exitPrice == c[s].avgPrice && e.avgEntryPrice == h[s].avgPrice
              && e.notionalValue == Notional(e.reducedSize, h[s].avgPrice)
              && e.pnl == c[s].unrealisedPnl
              && e.pnlPercent * Notional(h[s].size, h[s].avgPrice) == e.pnl * 100.0
            case Closed =>
              && e.PositionReduced? && e.side == SideOf(h[s]) && e.leverage == h[s].leverage
              && e.remainingSize == 0.0 && e.reducedSize == h[s].size
              && e.exitPrice == h[s].avgPrice && e.avgEntryPrice == h[s].avgPrice
              && e.notionalValue == Notional(h[s].size, h[s].avgPrice)
              && e.pnl == h[s].unrealisedPnl
              && e.pnlPercent * Notional(h[s].size, h[s].avgPrice) == e.pnl * 100.0
  {
  }

  /** Each pass handles a symbol exactly when the symbol's transition belongs to it. */
  lemma PhaseStepReference(phase: Phase, h: Snapshot, c: Snapshot, s: Symbol)
    ensures PhaseStep(phase, h, c, s) == if InPhase(phase, h, c, s) then [StepFor(h, c, s)] else []
  {
  }

  lemma {:induction false} PhaseStepsAppend(phase: Phase, h: Snapshot, c: Snapshot, a: seq<Symbol>, b: seq<Symbol>)
    ensures PhaseSteps(phase, h, c, a + b) == PhaseSteps(phase, h, c, a) + PhaseSteps(phase, h, c, b)
    decreases |b|
  {
    if b == [] {
      assert a + b == a;
    } else {
      var b', x := b[..|b| - 1], b[|b| - 1];
      assert (a + b)[..|a + b| - 1] == a + b';
      assert (a + b)[|a + b| - 1] == x;
      PhaseStepsAppend(phase, h, c, a, b');
      var pa, pb', px := PhaseSteps(phase, h, c, a), PhaseSteps(phase, h, c, b'), PhaseStep(phase, h, c, x);
      assert PhaseSteps(phase, h, c, a + b) == (pa + pb') + px;
      assert PhaseSteps(phase, h, c, b) == pb' + px;
      assert (pa + pb') + px == pa + (pb' + px);
    }
  }

  lemma SymbolsAppend(a: seq<Step>, b: seq<Step>)
    ensures Symbols(a + b) == Symbols(a) + Symbols(b)
  {
  }

  lemma NoDuplicatesAppend(a: seq<Symbol>, b: seq<Symbol>)
    requires NoDuplicates(a) && NoDuplicates(b)
    requires forall x :: x in a ==> x !in b
    ensures NoDuplicates(a + b)
  {
    forall i, j | 0 <= i < j < |a + b|
      ensures (a + b)[i] != (a + b)[j]
    {
      if i < |a| && |a| <= j {
        assert (a + b)[i] in a && (a + b)[j] in b;
      }
    }
  }

  /** Every step is the reference step of its symbol, whose transition belongs to `phase`. */
  predicate ReferenceSteps(phase: Phase, h: Snapshot, c: Snapshot, p: seq<Step>)
  {
    forall i :: 0 <= i < |p| ==> InPhase(phase, h, c, SymbolOf(p[i])) && p[i] == StepFor(h, c, SymbolOf(p[i]))
  }

  lemma ReferenceStepsAppend(phase: Phase, h: Snapshot, c: Snapshot, a: seq<Step>, b: seq<Step>)
    requires ReferenceSteps(phase, h, c, a) && ReferenceSteps(phase, h, c, b)
    ensures ReferenceSteps(phase, h, c, a + b)
  {
    forall i | 0 <= i < |a + b|
      ensures InPhase(phase, h, c, SymbolOf((a + b)[i])) && (a + b)[i] == StepFor(h, c, SymbolOf((a + b)[i]))
    {
      if i < |a| {
        assert (a + b)[i] == a[i];
      } else {
        assert (a + b)[i] == b[i - |a|];
      }
    }
  }

  /** One pass over distinct symbols takes one step for each of them whose
      transition belongs to the pass, and no other step. */
  lemma {:induction false} PhaseStepsReference(phase: Phase, h: Snapshot, c: Snapshot, keys: seq<Symbol>)
    requires NoDuplicates(keys)
    ensures var p := PhaseSteps(phase, h, c, keys);
            && NoDuplicates(Symbols(p))
            && (forall s :: s in Symbols(p) <==> s in keys && InPhase(phase, h, c, s))
            && ReferenceSteps(phase, h, c, p)
  {
    if keys != [] {
      var init, k := keys[..|keys| - 1], keys[|keys| - 1];
      assert keys == init + [k];
      PhaseStepsReference(phase, h, c, init);
      PhaseStepReference(phase, h, c, k);
      var p0, q := PhaseSteps(phase, h, c, init), PhaseStep(phase, h, c, k);
      SymbolsAppend(p0, q);
      ReferenceStepsAppend(phase, h, c, p0, q);
      assert k !in init;
      if q != [] {
        assert Symbols(q) == [k];
        NoDuplicatesAppend(Symbols(p0), Symbols(q));
      } else {
        assert p0 + q == p0;
      }
    }
  }

  /** Where the i-th element of three sequences one after another comes from. */
  lemma ThreeIndex(a: seq<Step>, b: seq<Step>, d: seq<Step>, i: nat)
    requires i < |a| + |b| + |d|
    ensures (a + b + d)[i] == if i < |a| then a[i] else if i < |a| + |b| then b[i - |a|] else d[i - |a| - |b|]
  {
  }

  /** Reference steps of the three passes, one pass after another. */
  lemma ThreeReference(h: Snapshot, c: Snapshot, a: seq<Step>, b: seq<Step>, d: seq<Step>)
    requires ReferenceSteps(Openings, h, c, a)
    requires ReferenceSteps(Modifications, h, c, b)
    requires ReferenceSteps(Closures, h, c, d)
    ensures var p := a + b + d;
            forall i :: 0 <= i < |p| ==>
              Classify(h, c, SymbolOf(p[i])).Some? && p[i] == StepFor(h, c, SymbolOf(p[i]))
  {
    var p := a + b + d;
    forall i | 0 <= i < |p|
      ensures Classify(h, c, SymbolOf(p[i])).Some? && p[i] == StepFor(h, c, SymbolOf(p[i]))
    {
      ThreeIndex(a, b, d, i);
    }
  }

  /** Reference steps of open positions report transitions of their own pass. */
  lemma ThreeOrdered(h: Snapshot, c: Snapshot, a: seq<Step>, b: seq<Step>, d: seq<Step>)
    requires AllOpen(c)
    requires ReferenceSteps(Openings, h, c, a)
    requires ReferenceSteps(Modifications, h, c, b)
    requires ReferenceSteps(Closures, h, c, d)
    ensures var p := a + b + d;
            forall i :: 0 <= i < |p| ==>
              PhaseOrder(PhaseOf(KindOf(p[i]))) == if i < |a| then 0 else if i < |a| + |b| then 1 else 2
  {
    var p := a + b + d;
    forall i | 0 <= i < |p|
      ensures PhaseOrder(PhaseOf(KindOf(p[i]))) == if i < |a| then 0 else if i < |a| + |b| then 1 else 2
    {
      ThreeIndex(a, b, d, i);
      var s := SymbolOf(p[i]);
      if i < |a| {
        assert InPhase(Openings, h, c, SymbolOf(a[i]));
      } else if i < |a| + |b| {
        assert InPhase(Modifications, h, c, SymbolOf(b[i - |a|]));
      } else {
        assert InPhase(Closures, h, c, SymbolOf(d[i - |a| - |b|]));
      }
      StepForKind(h, c, s);
    }
  }

  // ---------------------------------------------------------------------------
  // What a cycle reports

  /** The symbols of a cycle's steps, pass by pass. */
  lemma PlanSymbols(h: Snapshot, cur: Dict, order: seq<Symbol>)
    ensures Symbols(Plan(h, cur, order))
            == Symbols(PhaseSteps(Openings, h, cur.entries, cur.keys))
               + Symbols(PhaseSteps(Modifications, h, cur.entries, cur.keys))
               + Symbols(PhaseSteps(Closures, h, cur.entries, order))
  {
    var a := PhaseSteps(Openings, h, cur.entries, cur.keys);
    var b := PhaseSteps(Modifications, h, cur.entries, cur.keys);
    var d := PhaseSteps(Closures, h, cur.entries, order);
    SymbolsAppend(a, b);
    SymbolsAppend(a + b, d);
  }

  /** A symbol with a transition is visited by the pass its transition belongs to. */
  lemma VisitedByItsPass(h: Snapshot, cur: Dict, order: seq<Symbol>, s: Symbol)
    requires WellFormed(cur)
    requires Enumerates(order, h.Keys - cur.entries.Keys)
    requires Classify(h, cur.entries, s).Some?
    ensures PhaseOf(Classify(h, cur.entries, s).value) == Closures ==> s in order
    ensures PhaseOf(Classify(h, cur.entries, s).value) != Closures ==> s in cur.keys
  {
  }

  /** Every symbol that made a transition gets exactly one step, and that step is
      the reference step for its transition; no other symbol gets a step. */
  lemma PlanIsReference(h: Snapshot, cur: Dict, order: seq<Symbol>)
    requires WellFormed(cur)
    requires Enumerates(order, h.Keys - cur.entries.Keys)
    ensures var p := Plan(h, cur, order);
            && NoDuplicates(Symbols(p))
            && (forall s :: s in Symbols(p) <==> Classify(h, cur.entries, s).Some?)
            && (forall i :: 0 <= i < |p| ==>
                  Classify(h, cur.entries, SymbolOf(p[i])).Some?
                  && p[i] == StepFor(h, cur.entries, SymbolOf(p[i])))
  {
    var c := cur.entries;
    var a := PhaseSteps(Openings, h, c, cur.keys);
    var b := PhaseSteps(Modifications, h, c, cur.keys);
    var d := PhaseSteps(Closures, h, c, order);
    PhaseStepsReference(Openings, h, c, cur.keys);
    PhaseStepsReference(Modifications, h, c, cur.keys);
    PhaseStepsReference(Closures, h, c, order);
    var sa, sb, sd := Symbols(a), Symbols(b), Symbols(d);
    PlanSymbols(h, cur, order);
    NoDuplicatesAppend(sa, sb);
    NoDuplicatesAppend(sa + sb, sd);
    forall s
      ensures s in sa + sb + sd <==> Classify(h, c, s).Some?
    {
      if Classify(h, c, s).Some? {
        VisitedByItsPass(h, cur, order, s);
      }
    }
    StepsOfPlan(h, cur, order);
  }

  /** Every step of a cycle is the reference step for its symbol. */
  lemma StepsOfPlan(h: Snapshot, cur: Dict, order: seq<Symbol>)
    requires NoDuplicates(cur.keys) && NoDuplicates(order)
    ensures var p := Plan(h, cur, order);
            forall i :: 0 <= i < |p| ==>
              Classify(h, cur.entries, SymbolOf(p[i])).Some?
              && p[i] == StepFor(h, cur.entries, SymbolOf(p[i]))
  {
    var c := cur.entries;
    PhaseStepsReference(Openings, h, c, cur.keys);
    PhaseStepsReference(Modifications, h, c, cur.keys);
    PhaseStepsReference(Closures, h, c, order);
    ThreeReference(h, c, PhaseSteps(Openings, h, c, cur.keys), PhaseSteps(Modifications, h, c, cur.keys),
                   PhaseSteps(Closures, h, c, order));
  }

  /** A cycle takes no step at all exactly when the same symbols are stored and
      current with the same sizes; a changed price alone reports nothing. */
  lemma QuietIff(h: Snapshot, cur: Dict, order: seq<Symbol>)
    requires WellFormed(cur)
    requires Enumerates(order, h.Keys - cur.entries.Keys)
    ensures Plan(h, cur, order) == [] <==>
              && h.Keys == cur.entries.Keys
              && forall s :: s in h ==> h[s].size == cur.entries[s].size
  {
    var c := cur.entries;
    var p := Plan(h, cur, order);
    PlanIsReference(h, cur, order);
    if p == [] {
      forall s | s in h
        ensures s in c && h[s].size == c[s].size
      {
        assert s !in Symbols(p);
      }
      forall s | s in c
        ensures s in h
      {
        assert s !in Symbols(p);
      }
    } else {
      var s := SymbolOf(p[0]);
      assert Classify(h, c, s).Some?;
    }
  }

  /** The passes run in order: every opening comes before every size change,
      and every size change before every closure. */
  lemma PlanOrdered(h: Snapshot, cur: Dict, order: seq<Symbol>)
    requires WellFormed(cur) && AllOpen(cur.entries)
    requires NoDuplicates(order)
    ensures var p := Plan(h, cur, order);
            forall i, j :: 0 <= i < j < |p| ==>
              PhaseOrder(PhaseOf(KindOf(p[i]))) <= PhaseOrder(PhaseOf(KindOf(p[j])))
  {
    var c := cur.entries;
    PhaseStepsReference(Openings, h, c, cur.keys);
    PhaseStepsReference(Modifications, h, c, cur.keys);
    PhaseStepsReference(Closures, h, c, order);
    ThreeOrdered(h, c, PhaseSteps(Openings, h, c, cur.keys), PhaseSteps(Modifications, h, c, cur.keys),
                 PhaseSteps(Closures, h, c, order));
  }

  /** What a cycle sends: one notification per symbol at most, openings before
      size changes before closures, each the reference notification for its
      symbol's transition. */
  lemma SentFollowsReference(h: Snapshot, cur: Dict, order: seq<Symbol>, failingSend: Option<nat>)
    requires WellFormed(cur) && AllOpen(cur.entries)
    requires Enumerates(order, h.Keys - cur.entries.Keys)
    ensures var sent := Execute(Plan(h, cur, order), failingSend, 0).sent;
            && (forall i, j :: 0 <= i < j < |sent| ==> sent[i].symbol != sent[j].symbol)
            && (forall i, j :: 0 <= i < j < |sent| ==>
                  PhaseOrder(PhaseOf(Reported(sent[i]))) <= PhaseOrder(PhaseOf(Reported(sent[j]))))
            && (forall i :: 0 <= i < |sent| ==>
                  Classify(h, cur.entries, sent[i].symbol).Some?
                  && Emit(sent[i]) == StepFor(h, cur.entries, sent[i].symbol)
                  && Reported(sent[i]) == Classify(h, cur.entries, sent[i].symbol).value)
  {
    var p := Plan(h, cur, order);
    var sent := Execute(p, failingSend, 0).sent;
    ExecuteSendsSteps(p, failingSend, 0);
    PlanIsReference(h, cur, order);
    PlanOrdered(h, cur, order);
    forall i, j | 0 <= i < j < |sent|
      ensures sent[i].symbol != sent[j].symbol
    {
      assert Symbols(p)[i] == SymbolOf(p[i]) == sent[i].symbol;
      assert Symbols(p)[j] == SymbolOf(p[j]) == sent[j].symbol;
    }
    forall i | 0 <= i < |sent|
      ensures Reported(sent[i]) == Classify(h, cur.entries, sent[i].symbol).value
    {
      StepForKind(h, cur.entries, sent[i].symbol);
      assert KindOf(p[i]) == Reported(sent[i]);
    }
  }

  /** The step for a symbol raises exactly when the symbol was reduced or closed
      and its stored cost basis is 0. */
  lemma StepForRaises(h: Snapshot, c: Snapshot, s: Symbol)
    requires Classify(h, c, s).Some?
    ensures StepFor(h, c, s).Raise? <==> Raises(h, c, s)
  {
  }

  /** A cycle raises exactly when a symbol that was reduced or closed was stored
      with a cost basis (size times average price) of 0. */
  lemma RaisesIff(h: Snapshot, cur: Dict, order: seq<Symbol>)
    requires WellFormed(cur)
    requires Enumerates(order, h.Keys - cur.entries.Keys)
    ensures var p := Plan(h, cur, order);
            (exists i :: 0 <= i < |p| && p[i].Raise?) <==>
            (exists s :: s in h && Raises(h, cur.entries, s))
  {
    PlanIsReference(h, cur, order);
    RaisesOfReference(h, cur.entries, Plan(h, cur, order));
  }

  /** Steps that are the reference steps of exactly the symbols with a
      transition contain a Raise exactly when some symbol raises. */
  lemma RaisesOfReference(h: Snapshot, c: Snapshot, p: seq<Step>)
    requires forall s :: s in Symbols(p) <==> Classify(h, c, s).Some?
    requires forall i :: 0 <= i < |p| ==>
               Classify(h, c, SymbolOf(p[i])).Some? && p[i] == StepFor(h, c, SymbolOf(p[i]))
    ensures (exists i :: 0 <= i < |p| && p[i].Raise?) <==> (exists s :: s in h && Raises(h, c, s))
  {
    if exists i :: 0 <= i < |p| && p[i].Raise? {
      var i :| 0 <= i < |p| && p[i].Raise?;
      var s := SymbolOf(p[i]);
      StepForRaises(h, c, s);
      assert s in h && Raises(h, c, s);
    }
    if exists s :: s in h && Raises(h, c, s) {
      var s :| s in h && Raises(h, c, s);
      assert s in Symbols(p);
      var i :| 0 <= i < |p| && Symbols(p)[i] == s;
      StepForRaises(h, c, s);
      assert p[i].Raise?;
    }
  }

  /** The symbol was reduced or closed, and its stored cost basis is 0. */
  predicate Raises(h: Snapshot, c: Snapshot, s: Symbol)
  {
    && (Classify(h, c, s) == Some(Reduced) || Classify(h, c, s) == Some(Closed))
    && s in h && Notional(h[s].size, h[s].avgPrice) == 0.0
  }

  /** When every stored position is open, as the bot's invariant keeps it, what
      makes a step raise is a stored average price of 0 on a reduced or closed symbol. */
  lemma ZeroPriceRaises(h: Snapshot, c: Snapshot, s: Symbol)
    requires AllOpen(h)
    ensures Raises(h, c, s) <==>
              && s in h && h[s].avgPrice == 0.0
              && (Classify(h, c, s) == Some(Reduced) || Classify(h, c, s) == Some(Closed))
  {
  }

  /** Polling again with the same fetched list after a completed cycle sends
      nothing and completes, whatever send would have failed. */
  lemma SecondPollIsQuiet(ps: seq<Position>, failingSend: Option<nat>)
    ensures var cur := Collect(ps);
            && Enumerates([], cur.entries.Keys - cur.entries.Keys)
            && Plan(cur.entries, cur, []) == []
            && Execute(Plan(cur.entries, cur, []), failingSend, 0) == Cycle([], true)
  {
    var cur := Collect(ps);
    assert cur.entries.Keys - cur.entries.Keys == {};
    QuietIff(cur.entries, cur, []);
  }

  /** With nothing stored, a cycle reports every current position as new, in
      key order, and cannot raise. */
  lemma {:induction false} FirstPollOpens(cur: Dict, keys: seq<Symbol>)
    requires forall k :: k in keys ==> k in cur.entries
    ensures var p := PhaseSteps(Openings, map[], cur.entries, keys);
            && |p| == |keys|
            && forall i :: 0 <= i < |keys| ==> p[i] == OpenedStep(keys[i], cur.entries[keys[i]])
  {
    if keys != [] {
      var init, k := keys[..|keys| - 1], keys[|keys| - 1];
      FirstPollOpens(cur, init);
      var p0 := PhaseSteps(Openings, map[], cur.entries, init);
      var st := OpenedStep(k, cur.entries[k]);
      assert PhaseStep(Openings, map[], cur.entries, k) == [st];
      assert PhaseSteps(Openings, map[], cur.entries, keys) == p0 + [st];
      assert forall i :: 0 <= i < |init| ==> keys[i] == init[i];
    }
  }

  /** With nothing stored, the modifications pass takes no step. */
  lemma {:induction false} NothingToModify(c: Snapshot, keys: seq<Symbol>)
    ensures PhaseSteps(Modifications, map[], c, keys) == []
  {
    if keys != [] {
      NothingToModify(c, keys[..|keys| - 1]);
    }
  }

  /** With nothing stored, a cycle takes one opening step per current position and no other step. */
  lemma FirstPoll(cur: Dict)
    requires WellFormed(cur)
    ensures var p := Plan(map[], cur, []);
            && |p| == |cur.keys|
            && (forall i :: 0 <= i < |p| ==> p[i] == OpenedStep(cur.keys[i], cur.entries[cur.keys[i]]))
            && Execute(p, None, 0).completed
  {
    var c := cur.entries;
    FirstPollOpens(cur, cur.keys);
    NothingToModify(c, cur.keys);
    assert Plan(map[], cur, []) == PhaseSteps(Openings, map[], c, cur.keys) + [] + [];
    ExecuteCompletes(Plan(map[], cur, []), None, 0);
  }
}
