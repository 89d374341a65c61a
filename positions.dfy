/**
 Positions as the exchange reports them, and the snapshot the bot builds from
 one poll: an insertion-ordered dictionary from symbol to position that keeps
 only the positions whose size is positive.
 */
module Positions {

  type Symbol = string

  /** One entry of the exchange's position list, with its numeric fields already parsed. */
  datatype Position = Position(
    symbol: Symbol,
    size: real,
    avgPrice: real,
    leverage: string,
    positionIdx: int,
    unrealisedPnl: real)

  /** The side shown in a notification: index 1 is the buy side, everything else is reported as short. */
  datatype Side = Buy | Short

  function SideOf(p: Position): Side
  {
    if p.positionIdx == 1 then Buy else Short
  }

  /** An insertion-ordered dictionary, as a Python dict is: the keys in the order
      they were first inserted, and the entry stored under each. */
  datatype Dict = Dict(keys: seq<Symbol>, entries: map<Symbol, Position>)

  predicate NoDuplicates<T(==)>(s: seq<T>)
  {
    forall i, j :: 0 <= i < j < |s| ==> s[i] != s[j]
  }

  /** The keys list each stored symbol exactly once. */
  predicate WellFormed(d: Dict)
  {
    && NoDuplicates(d.keys)
    && (forall k :: k in d.keys ==> k in d.entries)
    && (forall k :: k in d.entries ==> k in d.keys)
  }

  /** Every stored position is open, that is, has a positive size. */
  predicate AllOpen(m: map<Symbol, Position>)
  {
    forall k :: k in m ==> m[k].size > 0.0
  }

  /** `d[k] = p` on a dict: a new key goes to the end, an existing key keeps its place. */
  function Put(d: Dict, k: Symbol, p: Position): (r: Dict)
    ensures r.entries == d.entries[k := p]
    ensures WellFormed(d) ==> WellFormed(r)
    ensures k in d.entries ==> r.keys == d.keys
    ensures k !in d.entries ==> r.keys == d.keys + [k]
  {
    if k in d.entries then Dict(d.keys, d.entries[k := p])
    else Dict(d.keys + [k], d.entries[k := p])
  }

  /** The dict comprehension that turns the fetched list into the current
      snapshot: entries of size zero or less are skipped, and a symbol listed
      twice keeps the later entry at the earlier entry's place. */
  function Collect(ps: seq<Position>): (d: Dict)
    ensures WellFormed(d) && AllOpen(d.entries)
    ensures forall k :: k in d.entries ==> d.entries[k].symbol == k
  {
    if ps == [] then Dict([], map[])
    else
      var d := Collect(ps[..|ps| - 1]);
      var p := ps[|ps| - 1];
      if p.size > 0.0 then Put(d, p.symbol, p) else d
  }

  /** A symbol is in the snapshot exactly when some fetched entry for it has a positive size. */
  lemma {:induction false} CollectKeys(ps: seq<Position>, k: Symbol)
    ensures k in Collect(ps).entries <==> exists i :: 0 <= i < |ps| && ps[i].symbol == k && ps[i].size > 0.0
  {
    if ps != [] {
      var init := ps[..|ps| - 1];
      CollectKeys(init, k);
      if k in Collect(init).entries {
        var i :| 0 <= i < |init| && init[i].symbol == k && init[i].size > 0.0;
        assert ps[i] == init[i];
      }
      if exists i :: 0 <= i < |ps| && ps[i].symbol == k && ps[i].size > 0.0 {
        var i :| 0 <= i < |ps| && ps[i].symbol == k && ps[i].size > 0.0;
        if i < |init| {
          assert init[i] == ps[i];
        }
      }
    }
  }

  /** The position stored for a symbol is its last fetched entry with a positive size. */
  lemma {:induction false} CollectLastWins(ps: seq<Position>, k: Symbol, i: nat)
    requires i < |ps| && ps[i].symbol == k && ps[i].size > 0.0
    requires forall j :: i < j < |ps| && ps[j].symbol == k ==> ps[j].size <= 0.0
    ensures k in Collect(ps).entries && Collect(ps).entries[k] == ps[i]
  {
    var init := ps[..|ps| - 1];
    if i < |ps| - 1 {
      forall j | i < j < |init| && init[j].symbol == k
        ensures init[j].size <= 0.0
      {
        assert init[j] == ps[j];
      }
      CollectLastWins(init, k, i);
    }
  }

  /** The index of the first fetched entry for `k` with a positive size, or |ps| when there is none. */
  function FirstPositive(ps: seq<Position>, k: Symbol): (r: nat)
    ensures r <= |ps|
    ensures r < |ps| ==> ps[r].symbol == k && ps[r].size > 0.0
    ensures forall j :: 0 <= j < r ==> !(ps[j].symbol == k && ps[j].size > 0.0)
  {
    if ps == [] then 0
    else
      var f := FirstPositive(ps[..|ps| - 1], k);
      if f < |ps| - 1 then f
      else if ps[|ps| - 1].symbol == k && ps[|ps| - 1].size > 0.0 then |ps| - 1
      else |ps|
  }

  /** A symbol is stored exactly when it has a first positive entry. */
  lemma StoredIffFirstPositive(ps: seq<Position>, k: Symbol)
    ensures k in Collect(ps).entries <==> FirstPositive(ps, k) < |ps|
  {
    CollectKeys(ps, k);
    var f := FirstPositive(ps, k);
    if f < |ps| {
      assert ps[f].symbol == k && ps[f].size > 0.0;
    }
  }

  /** The snapshot's keys come in the order of their first positive entries in
      the fetched list, as a dict keeps the place where a key was first inserted. */
  lemma {:induction false} CollectOrder(ps: seq<Position>, i: nat, j: nat)
    requires i < j < |Collect(ps).keys|
    ensures var keys := Collect(ps).keys;
            FirstPositive(ps, keys[i]) < FirstPositive(ps, keys[j]) < |ps|
  {
    var init, p := ps[..|ps| - 1], ps[|ps| - 1];
    var d := Collect(init);
    var keys := Collect(ps).keys;
    var ki, kj := keys[i], keys[j];
    StoredIffFirstPositive(init, ki);
    StoredIffFirstPositive(init, kj);
    if p.size > 0.0 && p.symbol !in d.entries {
      assert keys == d.keys + [p.symbol];
      if j == |d.keys| {
        assert ki == d.keys[i] && kj == p.symbol;
      } else {
        assert ki == d.keys[i] && kj == d.keys[j];
        CollectOrder(init, i, j);
      }
    } else {
      assert keys == d.keys;
      CollectOrder(init, i, j);
    }
  }
}
