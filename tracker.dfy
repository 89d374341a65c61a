/**
 The bot object: the snapshot kept between polls and one poll cycle, which
 fetches the positions, sends a notification per transition in three passes,
 and replaces the snapshot only when the whole cycle ran without raising.
 Each pass is a method of its own; sends are numbered across the cycle so
 that the send that fails can be named.
 */
module Tracker {
  import opened Wrappers
  import opened Positions
  import opened WeightedAvg
  import opened Transitions

  class PrecisionTradingBot {
    /** The snapshot of the last completed cycle. */
    var positionHistory: Snapshot
    /** The notifications delivered to the chat so far, oldest first. */
    var outbox: seq<Event>

    /** Every stored position is open; under it a zero stored average price is what makes a step raise (`ZeroPriceRaises`). */
    ghost predicate Valid()
      reads this
    {
      AllOpen(positionHistory)
    }

    constructor ()
      ensures Valid()
      ensures positionHistory == map[] && outbox == []
    {
      positionHistory := map[];
      outbox := [];
    }

    /** Deliver one notification. The send numbered `failingSend` within the cycle
        (counting from 0) raises instead and delivers nothing. */
    method SendNotification(e: Event, failingSend: Option<nat>, count: nat) returns (delivered: bool)
      modifies this`outbox
      ensures delivered <==> failingSend != Some(count)
      ensures outbox == if delivered then old(outbox) + [e] else old(outbox)
    {
      delivered := failingSend != Some(count);
      if delivered {
        outbox := outbox + [e];
      }
    }

    /** One poll cycle. `fetched` is the exchange's position list, None when
        fetching it raised; `failingSend` is the send that raises, if any.
        `order` is the order in which the vanished symbols were visited. */
    method MonitorPositions(fetched: Option<seq<Position>>, failingSend: Option<nat>)
      returns (completed: bool, ghost order: seq<Symbol>)
      modifies this
      ensures fetched.None? ==>
                !completed && positionHistory == old(positionHistory) && outbox == old(outbox)
      ensures fetched.Some? ==>
                var cur := Collect(fetched.value);
                var run := RunPasses(old(positionHistory), cur, order, failingSend);
                && Enumerates(order, old(positionHistory).Keys - cur.entries.Keys)
                && outbox == old(outbox) + run.sent
                && completed == run.completed
                && positionHistory == (if completed then cur.entries else old(positionHistory))
      ensures old(Valid()) ==> Valid()
    {
      order := [];
      if fetched.None? {
        return false, order;
      }
      var current := Collect(fetched.value);
      var h := positionHistory;
      var c := current.entries;
      ghost var start := outbox;
      ghost var missing := h.Keys - c.Keys;
      var ok, count := ProcessOpenings(h, current, failingSend, 0);
      ghost var count1 := count;
      if !ok {
        order := PickOrder(missing);
        StopInOpenings(h, current, order, failingSend);
        return false, order;
      }
      ghost var mid := outbox;
      ok, count := ProcessModifications(h, current, failingSend, count);
      if !ok {
        order := PickOrder(missing);
        StopInModifications(h, current, order, failingSend, start, mid, outbox, count1);
        return false, order;
      }
      ghost var late := outbox;
      ghost var count2 := count;
      ok, count, order := ProcessClosures(h, c, failingSend, count);
      RunThroughClosures(h, current, order, failingSend, start, mid, late, outbox, count1, count2);
      if ok {
        positionHistory := c;
      }
      completed := ok;
    }

    /** The first pass: a new-position notification for every current symbol
        that was not stored, in key order. */
    method ProcessOpenings(h: Snapshot, current: Dict, failingSend: Option<nat>, count0: nat)
      returns (ok: bool, count: nat)
      requires WellFormed(current)
      modifies this`outbox
      ensures var run := Execute(PhaseSteps(Openings, h, current.entries, current.keys), failingSend, count0);
              && outbox == old(outbox) + run.sent
              && ok == run.completed
              && count == count0 + |run.sent|
    {
      var c, keys := current.entries, current.keys;
      ghost var sent: seq<Event> := [];
      count := count0;
      for i := 0 to |keys|
        invariant Execute(PhaseSteps(Openings, h, c, keys[..i]), failingSend, count0) == Cycle(sent, true)
        invariant outbox == old(outbox) + sent
        invariant count == count0 + |sent|
      {
        var symbol := keys[i];
        if symbol !in h {
          var e := OpeningNotice(h, c, symbol);
          PassStep(Openings, h, c, keys, i, sent, Emit(e), failingSend, count0, count);
          var delivered := SendNotification(e, failingSend, count);
          if !delivered {
            return false, count;
          }
          AppendOne(old(outbox), sent, e);
          sent := sent + [e];
          count := count + 1;
        } else {
          PassSkip(Openings, h, c, keys, i);
        }
      }
      assert keys[..|keys|] == keys;
      ok := true;
    }

    /** The new-position notification for a current symbol that was not stored. */
    method OpeningNotice(h: Snapshot, c: Snapshot, symbol: Symbol) returns (e: Event)
      requires symbol in c && symbol !in h
      ensures PhaseStep(Openings, h, c, symbol) == [Emit(e)]
    {
      var pos := c[symbol];
      var size := pos.size;
      var entry := pos.avgPrice;
      e := NewPosition(symbol, SideOf(pos), pos.leverage, size, entry, Notional(size, entry));
    }

    /** The second pass: for every current symbol that was stored, an added
        notification when its size grew and a reduced one when it shrank. */
    method ProcessModifications(h: Snapshot, current: Dict, failingSend: Option<nat>, count0: nat)
      returns (ok: bool, count: nat)
      requires WellFormed(current)
      modifies this`outbox
      ensures var run := Execute(PhaseSteps(Modifications, h, current.entries, current.keys), failingSend, count0);
              && outbox == old(outbox) + run.sent
              && ok == run.completed
              && count == count0 + |run.sent|
    {
      var c, keys := current.entries, current.keys;
      ghost var sent: seq<Event> := [];
      count := count0;
      for i := 0 to |keys|
        invariant Execute(PhaseSteps(Modifications, h, c, keys[..i]), failingSend, count0) == Cycle(sent, true)
        invariant outbox == old(outbox) + sent
        invariant count == count0 + |sent|
      {
        var symbol := keys[i];
        if symbol !in h {
          PassSkip(Modifications, h, c, keys, i);
          continue;
        }
        var notice := ModificationNotice(h, c, symbol);
        if notice.None? {
          PassSkip(Modifications, h, c, keys, i);
          continue;
        }
        var st := notice.value;
        PassStep(Modifications, h, c, keys, i, sent, st, failingSend, count0, count);
        var delivered := false;
        if st.Emit? {
          delivered := SendNotification(st.event, failingSend, count);
        }
        if !delivered {
          return false, count;
        }
        AppendOne(old(outbox), sent, st.event);
        sent := sent + [st.event];
        count := count + 1;
      }
      assert keys[..|keys|] == keys;
      ok := true;
    }

    /** The notification for a symbol that is current and was stored: none when
        its size is unchanged, an added one when it grew, a reduced one when it
        shrank, where a cost basis of 0 raises instead. */
    method ModificationNotice(h: Snapshot, c: Snapshot, symbol: Symbol) returns (notice: Option<Step>)
      requires symbol in c && symbol in h
      ensures PhaseStep(Modifications, h, c, symbol) == if notice.Some? then [notice.value] else []
      ensures notice.Some? <==> c[symbol].size != h[symbol].size
    {
      var prev := h[symbol];
      var pos := c[symbol];
      var currentSize := pos.size;
      var prevSize := prev.size;
      if currentSize > prevSize {
        var addedSize := currentSize - prevSize;
        var newAvg := CalculateWeightedAvg([prev, pos]);
        notice := Some(Emit(PositionAdded(symbol, SideOf(pos), pos.leverage, currentSize, addedSize,
                                          newAvg, Notional(addedSize, pos.avgPrice))));
      } else if currentSize < prevSize {
        var reducedSize := prevSize - currentSize;
        var pnl := pos.unrealisedPnl;
        match PnlPercent(pnl, prevSize, prev.avgPrice)
        case None =>
          // a cost basis of 0 makes the division raise ZeroDivisionError
          notice := Some(Raise(symbol, Reduced));
        case Some(pnlPercent) =>
          notice := Some(Emit(PositionReduced(symbol, SideOf(pos), pos.leverage, currentSize, reducedSize,
                                              pos.avgPrice, prev.avgPrice, Notional(reducedSize, prev.avgPrice),
                                              pnl, pnlPercent)));
      } else {
        notice := None;
      }
    }

    /** The third pass: a reduction to 0 for every stored symbol that is no
        longer current, visiting that set in an order it does not specify. */
    method ProcessClosures(h: Snapshot, c: Snapshot, failingSend: Option<nat>, count0: nat)
      returns (ok: bool, count: nat, ghost order: seq<Symbol>)
      modifies this`outbox
      ensures Enumerates(order, h.Keys - c.Keys)
      ensures var run := Execute(PhaseSteps(Closures, h, c, order), failingSend, count0);
              && outbox == old(outbox) + run.sent
              && ok == run.completed
              && count == count0 + |run.sent|
    {
      ghost var all := h.Keys - c.Keys;
      var remaining := h.Keys - c.Keys;
      ghost var visited: seq<Symbol> := [];
      ghost var sent: seq<Event> := [];
      count := count0;
      while remaining != {}
        invariant remaining <= all
        invariant Enumerates(visited, all - remaining)
        invariant Execute(PhaseSteps(Closures, h, c, visited), failingSend, count0) == Cycle(sent, true)
        invariant outbox == old(outbox) + sent
        invariant count == count0 + |sent|
        decreases |remaining|
      {
        var symbol :| symbol in remaining;
        var st := ClosureNotice(h, c, symbol);
        ClosureStep(h, c, visited, symbol, remaining, all, sent, st, failingSend, count0, count);
        var delivered := false;
        if st.Emit? {
          delivered := SendNotification(st.event, failingSend, count);
        }
        if !delivered {
          return false, count, visited + [symbol] + SomeEnumeration(remaining - {symbol});
        }
        AppendOne(old(outbox), sent, st.event);
        sent := sent + [st.event];
        count := count + 1;
        remaining := remaining - {symbol};
        visited := visited + [symbol];
      }
      ok, order := true, visited;
    }

    /** The reduction to 0 for a stored symbol that is no longer current; a cost
        basis of 0 raises instead. */
    method ClosureNotice(h: Snapshot, c: Snapshot, symbol: Symbol) returns (st: Step)
      requires symbol in h && symbol !in c
      ensures PhaseStep(Closures, h, c, symbol) == [st]
    {
      var prev := h[symbol];
      var pnl := prev.unrealisedPnl;
      match PnlPercent(pnl, prev.size, prev.avgPrice)
      case None =>
        // a cost basis of 0 makes the division raise ZeroDivisionError
        st := Raise(symbol, Closed);
      case Some(pnlPercent) =>
        st := Emit(PositionReduced(symbol, SideOf(prev), prev.leverage, 0.0, prev.size, prev.avgPrice,
                                   prev.avgPrice, Notional(prev.size, prev.avgPrice), pnl, pnlPercent));
    }
  }

  /** Some order in which a set of vanished symbols may be visited. */
  lemma PickOrder(s: set<Symbol>) returns (order: seq<Symbol>)
    ensures Enumerates(order, s)
  {
    order := SomeEnumeration(s);
  }

  lemma AppendOne(start: seq<Event>, sent: seq<Event>, e: Event)
    ensures start + sent + [e] == start + (sent + [e])
  {
  }

  /** A cycle whose first pass stops is that pass's run. */
  lemma StopInOpenings(h: Snapshot, cur: Dict, order: seq<Symbol>, failingSend: Option<nat>)
    requires !Execute(PhaseSteps(Openings, h, cur.entries, cur.keys), failingSend, 0).completed
    ensures RunPasses(h, cur, order, failingSend)
            == Execute(PhaseSteps(Openings, h, cur.entries, cur.keys), failingSend, 0)
  {
  }

  /** A cycle whose second pass stops has sent what the first two passes sent. */
  lemma StopInModifications(h: Snapshot, cur: Dict, order: seq<Symbol>, failingSend: Option<nat>,
                            start: seq<Event>, mid: seq<Event>, out: seq<Event>, count1: nat)
    requires var ra := Execute(PhaseSteps(Openings, h, cur.entries, cur.keys), failingSend, 0);
             var rb := Execute(PhaseSteps(Modifications, h, cur.entries, cur.keys), failingSend, count1);
             && ra.completed && mid == start + ra.sent && count1 == |ra.sent|
             && !rb.completed && out == mid + rb.sent
    ensures out == start + RunPasses(h, cur, order, failingSend).sent
    ensures !RunPasses(h, cur, order, failingSend).completed
  {
    var ra := Execute(PhaseSteps(Openings, h, cur.entries, cur.keys), failingSend, 0);
    var rb := Execute(PhaseSteps(Modifications, h, cur.entries, cur.keys), failingSend, count1);
    ThenStop(start, mid, out, ra, rb,
             Execute(PhaseSteps(Closures, h, cur.entries, order), failingSend, count1 + |rb.sent|));
  }

  /** A cycle that reaches the third pass has sent what the three passes sent,
      and completes when the third pass does. */
  lemma RunThroughClosures(h: Snapshot, cur: Dict, order: seq<Symbol>, failingSend: Option<nat>,
                           start: seq<Event>, mid: seq<Event>, late: seq<Event>, out: seq<Event>,
                           count1: nat, count2: nat)
    requires var ra := Execute(PhaseSteps(Openings, h, cur.entries, cur.keys), failingSend, 0);
             var rb := Execute(PhaseSteps(Modifications, h, cur.entries, cur.keys), failingSend, count1);
             var rd := Execute(PhaseSteps(Closures, h, cur.entries, order), failingSend, count2);
             && ra.completed && mid == start + ra.sent && count1 == |ra.sent|
             && rb.completed && late == mid + rb.sent && count2 == count1 + |rb.sent|
             && out == late + rd.sent
    ensures out == start + RunPasses(h, cur, order, failingSend).sent
    ensures Execute(PhaseSteps(Closures, h, cur.entries, order), failingSend, count2).completed
            == RunPasses(h, cur, order, failingSend).completed
  {
    var ra := Execute(PhaseSteps(Openings, h, cur.entries, cur.keys), failingSend, 0);
    var rb := Execute(PhaseSteps(Modifications, h, cur.entries, cur.keys), failingSend, count1);
    ThenThree(start, mid, late, out, ra, rb,
              Execute(PhaseSteps(Closures, h, cur.entries, order), failingSend, count2));
  }

  /** Two runs that follow one another, the second of which stops. */
  lemma ThenStop(start: seq<Event>, mid: seq<Event>, out: seq<Event>, ra: Cycle, rb: Cycle, rd: Cycle)
    requires ra.completed && mid == start + ra.sent
    requires !rb.completed && out == mid + rb.sent
    ensures out == start + Then(ra, Then(rb, rd)).sent
    ensures !Then(ra, Then(rb, rd)).completed
  {
    assert start + ra.sent + rb.sent == start + (ra.sent + rb.sent);
  }

  /** Three runs that follow one another, each appended to what the previous left. */
  lemma ThenThree(start: seq<Event>, mid: seq<Event>, late: seq<Event>, out: seq<Event>,
                  ra: Cycle, rb: Cycle, rd: Cycle)
    requires ra.completed && mid == start + ra.sent
    requires rb.completed && late == mid + rb.sent
    requires out == late + rd.sent
    ensures out == start + Then(ra, Then(rb, rd)).sent
    ensures Then(ra, Then(rb, rd)).completed == rd.completed
  {
    assert start + ra.sent + rb.sent + rd.sent == start + (ra.sent + rb.sent + rd.sent);
  }

  /** One more step after steps that ran to the end and sent `sent`: it sends
      and the run goes on, or it stops the run, and then nothing after it matters. */
  lemma StepAfter(done: seq<Step>, st: Step, rest: seq<Step>, sent: seq<Event>,
                  failingSend: Option<nat>, count0: nat, count: nat)
    requires Execute(done, failingSend, count0) == Cycle(sent, true) && count == count0 + |sent|
    ensures st.Emit? && failingSend != Some(count) ==>
              Execute(done + [st], failingSend, count0) == Cycle(sent + [st.event], true)
    ensures !(st.Emit? && failingSend != Some(count)) ==>
              Execute(done + [st] + rest, failingSend, count0) == Cycle(sent, false)
  {
    ExecuteAppend(done, [st], failingSend, count0);
    assert [st][1..] == [];
    ExecuteAppend(done + [st], rest, failingSend, count0);
  }

  /** A pass over a list of symbols, split around the i-th one. */
  lemma SplitPass(phase: Phase, h: Snapshot, c: Snapshot, keys: seq<Symbol>, i: nat)
    requires i < |keys|
    ensures PhaseSteps(phase, h, c, keys[..i + 1])
            == PhaseSteps(phase, h, c, keys[..i]) + PhaseStep(phase, h, c, keys[i])
    ensures PhaseSteps(phase, h, c, keys)
            == PhaseSteps(phase, h, c, keys[..i + 1]) + PhaseSteps(phase, h, c, keys[i + 1..])
  {
    assert keys[..i + 1][..i] == keys[..i];
    assert keys == keys[..i + 1] + keys[i + 1..];
    PhaseStepsAppend(phase, h, c, keys[..i + 1], keys[i + 1..]);
  }

  /** A key of a pass that yields no step. */
  lemma PassSkip(phase: Phase, h: Snapshot, c: Snapshot, keys: seq<Symbol>, i: nat)
    requires i < |keys| && PhaseStep(phase, h, c, keys[i]) == []
    ensures PhaseSteps(phase, h, c, keys[..i + 1]) == PhaseSteps(phase, h, c, keys[..i])
  {
    SplitPass(phase, h, c, keys, i);
  }

  /** A key of a pass that yields the step `st`, after keys whose steps all ran
      and sent `sent`: the pass goes on with one more send, or it stops here. */
  lemma PassStep(phase: Phase, h: Snapshot, c: Snapshot, keys: seq<Symbol>, i: nat,
                 sent: seq<Event>, st: Step, failingSend: Option<nat>, count0: nat, count: nat)
    requires i < |keys| && count == count0 + |sent|
    requires Execute(PhaseSteps(phase, h, c, keys[..i]), failingSend, count0) == Cycle(sent, true)
    requires PhaseStep(phase, h, c, keys[i]) == [st]
    ensures st.Emit? && failingSend != Some(count) ==>
              Execute(PhaseSteps(phase, h, c, keys[..i + 1]), failingSend, count0)
              == Cycle(sent + [st.event], true)
    ensures !(st.Emit? && failingSend != Some(count)) ==>
              Execute(PhaseSteps(phase, h, c, keys), failingSend, count0) == Cycle(sent, false)
  {
    SplitPass(phase, h, c, keys, i);
    StepAfter(PhaseSteps(phase, h, c, keys[..i]), st, PhaseSteps(phase, h, c, keys[i + 1..]),
              sent, failingSend, count0, count);
  }

  /** A vanished symbol visited after symbols whose steps all ran and sent
      `sent`: the visit extends the enumeration, and the pass goes on with one
      more send, or it stops here, whatever order the rest is visited in. */
  lemma ClosureStep(h: Snapshot, c: Snapshot, visited: seq<Symbol>, x: Symbol,
                    remaining: set<Symbol>, all: set<Symbol>,
                    sent: seq<Event>, st: Step, failingSend: Option<nat>, count0: nat, count: nat)
    requires Enumerates(visited, all - remaining) && x in remaining && remaining <= all
    requires count == count0 + |sent|
    requires Execute(PhaseSteps(Closures, h, c, visited), failingSend, count0) == Cycle(sent, true)
    requires PhaseStep(Closures, h, c, x) == [st]
    ensures Enumerates(visited + [x], all - (remaining - {x}))
    ensures st.Emit? && failingSend != Some(count) ==>
              Execute(PhaseSteps(Closures, h, c, visited + [x]), failingSend, count0)
              == Cycle(sent + [st.event], true)
    ensures !(st.Emit? && failingSend != Some(count)) ==>
              var order := visited + [x] + SomeEnumeration(remaining - {x});
              && Enumerates(order, all)
              && Execute(PhaseSteps(Closures, h, c, order), failingSend, count0) == Cycle(sent, false)
  {
    NoDuplicatesAppend(visited, [x]);
    var rest := SomeEnumeration(remaining - {x});
    EnumeratesJoin(visited, x, remaining, all);
    VisitOne(h, c, visited, x, rest);
    StepAfter(PhaseSteps(Closures, h, c, visited), st, PhaseSteps(Closures, h, c, rest),
              sent, failingSend, count0, count);
  }

  /** The closure pass over the visited symbols, one more, and the rest. */
  lemma VisitOne(h: Snapshot, c: Snapshot, visited: seq<Symbol>, x: Symbol, rest: seq<Symbol>)
    ensures PhaseSteps(Closures, h, c, visited + [x])
            == PhaseSteps(Closures, h, c, visited) + PhaseStep(Closures, h, c, x)
    ensures PhaseSteps(Closures, h, c, visited + [x] + rest)
            == PhaseSteps(Closures, h, c, visited + [x]) + PhaseSteps(Closures, h, c, rest)
  {
    assert (visited + [x])[..|visited|] == visited;
    PhaseStepsAppend(Closures, h, c, visited + [x], rest);
  }
}
