/**
 * The traveller's progress record (core.py, `PlayerState`): stats clamped to
 * [0, 100], a fracture-key charge counter, collected key fragments, per-universe
 * reputation, an ordered inventory and the set of visited universes, together
 * with its persisted dictionary form (`to_dict` / `from_dict`).
 *
 * `PlayerRecord` is the value of the record and carries each mutator as a
 * function; the class `PlayerState` is the object the game mutates in place,
 * and each of its methods is specified by the matching `PlayerRecord` function.
 */
module Player {
  import opened Wrappers

  /** Defaults of a fresh record, which `from_dict` also uses for absent fields. */
  const DefaultMorality := 50
  const DefaultMemorySync := 0
  const DefaultCharges := 5

  /** `max(0, min(100, x))`: the range every morality and memory-sync mutator keeps. */
  function Clamp(x: int): (r: int)
    ensures 0 <= r <= 100
    ensures 0 <= x <= 100 ==> r == x
    ensures x < 0 ==> r == 0
    ensures x > 100 ==> r == 100
  {
    if x < 0 then 0 else if x > 100 then 100 else x
  }

  predicate Distinct<T(==)>(xs: seq<T>) {
    forall i, j :: 0 <= i < j < |xs| ==> xs[i] != xs[j]
  }

  /** `xs` lists every element of `s` exactly once: what `list(a_set)` produces, in some order. */
  predicate Enumerates(xs: seq<string>, s: set<string>) {
    && (forall i :: 0 <= i < |xs| ==> xs[i] in s)
    && (forall x :: x in s ==> x in xs)
    && Distinct(xs)
  }

  /** A list that enumerates a set has one entry per element. */
  lemma {:induction false} EnumeratesCard(xs: seq<string>, s: set<string>)
    requires Enumerates(xs, s)
    ensures |xs| == |s|
  {
    if xs == [] {
      assert s == {};
    } else {
      var x, tail := xs[0], xs[1..];
      forall y | y in s - {x}
        ensures y in tail
      {
        var k :| 0 <= k < |xs| && xs[k] == y;
        assert k != 0;
        assert tail[k - 1] == y;
      }
      assert forall i :: 0 <= i < |tail| ==> tail[i] == xs[i + 1] && xs[i + 1] != x;
      EnumeratesCard(tail, s - {x});
    }
  }

  function SetOf(xs: seq<string>): (s: set<string>)
    ensures forall x :: x in s <==> x in xs
  {
    set x | x in xs
  }

  /** Position of the first occurrence of `x` in `xs`. */
  function FirstIndex<T(==)>(xs: seq<T>, x: T): (i: nat)
    requires x in xs
    ensures i < |xs| && xs[i] == x && x !in xs[..i]
  {
    if xs[0] == x then 0 else 1 + FirstIndex(xs[1..], x)
  }

  /** Python's `list.remove(x)` guarded by `x in list`: drops the first occurrence only. */
  function RemoveFirst<T(==)>(xs: seq<T>, x: T): (r: seq<T>)
    ensures x !in xs ==> r == xs
    ensures x in xs ==> r == xs[..FirstIndex(xs, x)] + xs[FirstIndex(xs, x) + 1..]
  {
    if xs == [] then []
    else if xs[0] == x then xs[1..]
    else
      var rest := RemoveFirst(xs[1..], x);
      if x in xs then
        FirstIndexPastHead(xs, x);
        CutPastHead(xs, FirstIndex(xs[1..], x));
        [xs[0]] + rest
      else
        assert xs == [xs[0]] + xs[1..];
        [xs[0]] + rest
  }

  /** Past a head that is not `x`, the first occurrence of `x` sits one place further on. */
  lemma FirstIndexPastHead<T>(xs: seq<T>, x: T)
    requires x in xs && xs[0] != x
    ensures x in xs[1..] && FirstIndex(xs, x) == 1 + FirstIndex(xs[1..], x)
  {
    assert xs == [xs[0]] + xs[1..];
  }

  /** Cutting out position `k` of the tail, then putting the head back, cuts out position `k + 1`. */
  lemma CutPastHead<T>(xs: seq<T>, k: nat)
    requires k + 1 < |xs|
    ensures [xs[0]] + (xs[1..][..k] + xs[1..][k + 1..]) == xs[..k + 1] + xs[k + 2..]
  {
    assert xs[1..][..k] == xs[1..k + 1];
    assert xs[1..][k + 1..] == xs[k + 2..];
    assert [xs[0]] + xs[1..k + 1] == xs[..k + 1];
  }

  /** Removing the first occurrence takes exactly one copy of `x` out of the multiset. */
  lemma {:induction false} RemoveFirstMultiset<T>(xs: seq<T>, x: T)
    ensures multiset(RemoveFirst(xs, x)) == multiset(xs) - multiset{x}
  {
    if xs != [] {
      assert xs == [xs[0]] + xs[1..];
      if xs[0] != x {
        RemoveFirstMultiset(xs[1..], x);
      }
    }
  }

  /** `xs` without the elements of `drop`, in the same order. */
  function FilterOut(xs: seq<string>, drop: set<string>): (ys: seq<string>)
    ensures forall x :: x in ys <==> x in xs && x !in drop
    ensures |ys| <= |xs|
    ensures Distinct(xs) ==> Distinct(ys)
  {
    if xs == [] then []
    else
      var rest := FilterOut(xs[1..], drop);
      assert Distinct(xs) ==> Distinct(xs[1..]) && xs[0] !in xs[1..];
      if xs[0] in drop then rest else [xs[0]] + rest
  }

  /** Filtering an extended list: the new element lands at the end, if kept. */
  lemma {:induction false} FilterOutAppend(xs: seq<string>, x: string, drop: set<string>)
    ensures FilterOut(xs + [x], drop) == FilterOut(xs, drop) + (if x in drop then [] else [x])
  {
    if xs == [] {
      assert xs + [x] == [x];
    } else {
      assert (xs + [x])[1..] == xs[1..] + [x];
      FilterOutAppend(xs[1..], x, drop);
    }
  }

  /** The value of a `PlayerState`. */
  datatype PlayerRecord = PlayerRecord(
    morality: int,
    memorySync: int,
    fractureKeyCharges: int,
    keyFragments: set<string>,
    reputation: map<string, int>,
    inventory: seq<string>,
    visitedUniverses: set<string>)
  {
    /** `reputation.get(universe, 0)`, the reading every threshold test uses. */
    function ReputationOf(universe: string): int {
      if universe in reputation then reputation[universe] else 0
    }

    /** core.py `adjust_morality`: add, then clamp to [0, 100]; nothing else changes. */
    function AdjustMorality(amount: int): (r: PlayerRecord)
      ensures 0 <= r.morality <= 100
      ensures 0 <= morality + amount <= 100 ==> r.morality == morality + amount
      ensures morality + amount < 0 ==> r.morality == 0
      ensures morality + amount > 100 ==> r.morality == 100
      ensures r == this.(morality := r.morality)
    {
      this.(morality := Clamp(morality + amount))
    }

    /** core.py `adjust_memory_sync`: add, then clamp to [0, 100]; nothing else changes. */
    function AdjustMemorySync(amount: int): (r: PlayerRecord)
      ensures 0 <= r.memorySync <= 100
      ensures 0 <= memorySync + amount <= 100 ==> r.memorySync == memorySync + amount
      ensures memorySync + amount < 0 ==> r.memorySync == 0
      ensures memorySync + amount > 100 ==> r.memorySync == 100
      ensures r == this.(memorySync := r.memorySync)
    {
      this.(memorySync := Clamp(memorySync + amount))
    }

    /** core.py `add_item`: the item goes at the end, duplicates allowed. */
    function AddItem(item: string): (r: PlayerRecord)
      ensures |r.inventory| == |inventory| + 1
      ensures r.inventory[..|inventory|] == inventory && r.inventory[|inventory|] == item
      ensures r == this.(inventory := r.inventory)
    {
      this.(inventory := inventory + [item])
    }

    /** core.py `remove_item`: only the first occurrence goes, the others keep their order. */
    function RemoveItem(item: string): (r: PlayerRecord)
      ensures item !in inventory ==> r == this
      ensures item in inventory ==> |r.inventory| == |inventory| - 1
      // only the first occurrence goes, the rest keep their order
      ensures item in inventory ==>
        r.inventory == inventory[..FirstIndex(inventory, item)] + inventory[FirstIndex(inventory, item) + 1..]
      ensures multiset(r.inventory) == multiset(inventory) - multiset{item}
      ensures r == this.(inventory := r.inventory)
    {
      RemoveFirstMultiset(inventory, item);
      this.(inventory := RemoveFirst(inventory, item))
    }

    /**
     * core.py `adjust_reputation`: an absent universe starts at `amount`, a
     * present one gains `amount`; no clamping, other universes untouched.
     */
    function AdjustReputation(universe: string, amount: int): (r: PlayerRecord)
      ensures r.reputation.Keys == reputation.Keys + {universe}
      ensures r.reputation[universe] == ReputationOf(universe) + amount
      ensures forall u :: u in reputation && u != universe ==> r.reputation[u] == reputation[u]
      ensures r == this.(reputation := r.reputation)
    {
      if universe in reputation then
        this.(reputation := reputation[universe := reputation[universe] + amount])
      else
        this.(reputation := reputation[universe := amount])
    }

    /** core.py `add_key_fragment`: set insertion, so at most one fragment per universe. */
    function AddKeyFragment(universe: string): (r: PlayerRecord)
      ensures universe in r.keyFragments
      ensures r.keyFragments - {universe} == keyFragments - {universe}
      ensures |r.keyFragments| == |keyFragments| + (if universe in keyFragments then 0 else 1)
      ensures r == this.(keyFragments := r.keyFragments)
    {
      var fragments := keyFragments + {universe};
      assert universe in keyFragments ==> fragments == keyFragments;
      assert universe !in keyFragments ==> fragments - {universe} == keyFragments && |fragments - {universe}| == |fragments| - 1;
      this.(keyFragments := fragments)
    }

    /** core.py `use_fracture_key_charge`: no change without a charge, else exactly one fewer. */
    function UseFractureKeyCharge(): (r: PlayerRecord)
      ensures fractureKeyCharges <= 0 ==> r == this
      ensures fractureKeyCharges > 0 ==> r.fractureKeyCharges == fractureKeyCharges - 1
      ensures fractureKeyCharges >= 0 ==> r.fractureKeyCharges >= 0
      ensures r == this.(fractureKeyCharges := r.fractureKeyCharges)
    {
      if fractureKeyCharges <= 0 then this
      else this.(fractureKeyCharges := fractureKeyCharges - 1)
    }

    /** Both bounded stats lie in [0, 100], the range every mutator of them keeps. */
    predicate StatsInRange() {
      0 <= morality <= 100 && 0 <= memorySync <= 100
    }

    /** core.py `has_completed_universe`: the universe's key fragment has been collected. */
    predicate HasCompletedUniverse(universe: string): (b: bool)
      ensures b <==> universe in keyFragments
    {
      universe in keyFragments
    }
  }

  /** `PlayerState()`: the state of a new game. */
  const NewPlayer := PlayerRecord(DefaultMorality, DefaultMemorySync, DefaultCharges, {}, map[], [], {})

  /**
   * The persisted `player_state` dictionary. Each field may be absent from a
   * file (`None`); the two sets are stored as lists.
   */
  datatype StateDict = StateDict(
    morality: Option<int>,
    memorySync: Option<int>,
    fractureKeyCharges: Option<int>,
    keyFragments: Option<seq<string>>,
    reputation: Option<map<string, int>>,
    inventory: Option<seq<string>>,
    visitedUniverses: Option<seq<string>>)

  /** `{}`: a dictionary with every field absent. */
  const EmptyDict := StateDict(None, None, None, None, None, None, None)

  /**
   * core.py `to_dict`. `list(set)` has no defined order, so the caller supplies
   * the lists that enumerate the two sets.
   */
  function DictOf(r: PlayerRecord, fragments: seq<string>, visited: seq<string>): (d: StateDict)
    requires Enumerates(fragments, r.keyFragments) && Enumerates(visited, r.visitedUniverses)
    ensures d.keyFragments.Some? && SetOf(d.keyFragments.value) == r.keyFragments
    ensures d.visitedUniverses.Some? && SetOf(d.visitedUniverses.value) == r.visitedUniverses
  {
    StateDict(Some(r.morality), Some(r.memorySync), Some(r.fractureKeyCharges),
              Some(fragments), Some(r.reputation), Some(r.inventory), Some(visited))
  }

  /** `d` is what `to_dict` produces for `r` under some order of its two sets. */
  predicate IsSnapshotOf(d: StateDict, r: PlayerRecord) {
    && d.keyFragments.Some? && d.visitedUniverses.Some?
    && Enumerates(d.keyFragments.value, r.keyFragments)
    && Enumerates(d.visitedUniverses.value, r.visitedUniverses)
    && d == DictOf(r, d.keyFragments.value, d.visitedUniverses.value)
  }

  /**
   * core.py `from_dict`: every absent field takes its default (morality 50,
   * memory sync 0, charges 5, empty collections); present values are taken
   * as they are, without clamping.
   */
  function FromDict(d: StateDict): (r: PlayerRecord)
    ensures d.morality.Some? ==> r.morality == d.morality.value
    ensures d.morality.None? ==> r.morality == DefaultMorality
    ensures d.memorySync.Some? ==> r.memorySync == d.memorySync.value
    ensures d.memorySync.None? ==> r.memorySync == DefaultMemorySync
    ensures d.fractureKeyCharges.Some? ==> r.fractureKeyCharges == d.fractureKeyCharges.value
    ensures d.fractureKeyCharges.None? ==> r.fractureKeyCharges == DefaultCharges
    ensures forall x :: x in r.keyFragments <==> d.keyFragments.Some? && x in d.keyFragments.value
    ensures forall x :: x in r.visitedUniverses <==> d.visitedUniverses.Some? && x in d.visitedUniverses.value
    ensures d.inventory.Some? ==> r.inventory == d.inventory.value
    ensures d.inventory.None? ==> r.inventory == []
    ensures d.reputation.Some? ==> r.reputation == d.reputation.value
    ensures d.reputation.None? ==> r.reputation == map[]
  {
    PlayerRecord(
      d.morality.GetOr(DefaultMorality),
      d.memorySync.GetOr(DefaultMemorySync),
      d.fractureKeyCharges.GetOr(DefaultCharges),
      SetOf(d.keyFragments.GetOr([])),
      d.reputation.GetOr(map[]),
      d.inventory.GetOr([]),
      SetOf(d.visitedUniverses.GetOr([])))
  }

  /** `from_dict(to_dict(s))` gives back `s`, field by field, sets compared as sets. */
  lemma ToDictRoundTrip(r: PlayerRecord, fragments: seq<string>, visited: seq<string>)
    requires Enumerates(fragments, r.keyFragments) && Enumerates(visited, r.visitedUniverses)
    ensures IsSnapshotOf(DictOf(r, fragments, visited), r)
    ensures FromDict(DictOf(r, fragments, visited)) == r
  {
  }

  /** Every snapshot of `r` loads back as `r`, whatever order its lists have. */
  lemma SnapshotLoadsBack(d: StateDict, r: PlayerRecord)
    requires IsSnapshotOf(d, r)
    ensures FromDict(d) == r
  {
    ToDictRoundTrip(r, d.keyFragments.value, d.visitedUniverses.value);
  }

  /** `from_dict({})` is the state of a new game. */
  lemma FromEmptyDictIsNewPlayer()
    ensures FromDict(EmptyDict) == NewPlayer
  {
  }

  /** `from_dict` does no clamping: a stored morality of 150 loads as 150. */
  lemma FromDictDoesNotClamp()
    ensures FromDict(EmptyDict.(morality := Some(150))).morality == 150
  {
  }

  /** Python's `list(s)`: the elements of a set in an unspecified order. */
  method ListOf(s: set<string>) returns (xs: seq<string>)
    ensures Enumerates(xs, s)
  {
    xs := [];
    var rest := s;
    while rest != {}
      invariant rest <= s
      invariant forall i :: 0 <= i < |xs| ==> xs[i] in s && xs[i] !in rest
      invariant forall x :: x in s && x !in rest ==> x in xs
      invariant Distinct(xs)
      decreases rest
    {
      var x :| x in rest;
      xs := xs + [x];
      rest := rest - {x};
    }
  }

  /** core.py `PlayerState`: the mutable record each universe updates in place. */
  class PlayerState {
    var morality: int
    var memorySync: int
    var fractureKeyCharges: int
    var keyFragments: set<string>
    var reputation: map<string, int>
    var inventory: seq<string>
    var visitedUniverses: set<string>

    function Value(): PlayerRecord
      reads this
    {
      PlayerRecord(morality, memorySync, fractureKeyCharges, keyFragments, reputation, inventory, visitedUniverses)
    }

    /** `PlayerState()`. */
    constructor ()
      ensures Value() == NewPlayer
    {
      morality, memorySync, fractureKeyCharges := DefaultMorality, DefaultMemorySync, DefaultCharges;
      keyFragments, reputation, inventory, visitedUniverses := {}, map[], [], {};
    }

    /** The object `from_dict` builds, given the record it describes. */
    constructor FromRecord(r: PlayerRecord)
      ensures Value() == r
    {
      morality, memorySync, fractureKeyCharges := r.morality, r.memorySync, r.fractureKeyCharges;
      keyFragments, reputation, inventory, visitedUniverses := r.keyFragments, r.reputation, r.inventory, r.visitedUniverses;
    }

    method AdjustMorality(amount: int)
      modifies this
      ensures Value() == old(Value()).AdjustMorality(amount)
    {
      morality := Clamp(morality + amount);
    }

    method AdjustMemorySync(amount: int)
      modifies this
      ensures Value() == old(Value()).AdjustMemorySync(amount)
    {
      memorySync := Clamp(memorySync + amount);
    }

    method AddItem(item: string)
      modifies this
      ensures Value() == old(Value()).AddItem(item)
    {
      inventory := inventory + [item];
    }

    method RemoveItem(item: string) returns (removed: bool)
      modifies this
      ensures removed <==> item in old(inventory)
      ensures Value() == old(Value()).RemoveItem(item)
    {
      removed := item in inventory;
      if removed {
        inventory := RemoveFirst(inventory, item);
      }
    }

    method AdjustReputation(universe: string, amount: int)
      modifies this
      ensures Value() == old(Value()).AdjustReputation(universe, amount)
    {
      if universe in reputation {
        reputation := reputation[universe := reputation[universe] + amount];
      } else {
        reputation := reputation[universe := amount];
      }
    }

    method AddKeyFragment(universe: string)
      modifies this
      ensures Value() == old(Value()).AddKeyFragment(universe)
    {
      keyFragments := keyFragments + {universe};
    }

    method UseFractureKeyCharge() returns (used: bool)
      modifies this
      ensures used <==> old(fractureKeyCharges) > 0
      ensures Value() == old(Value()).UseFractureKeyCharge()
    {
      if fractureKeyCharges <= 0 {
        return false;
      }
      fractureKeyCharges := fractureKeyCharges - 1;
      return true;
    }

    /** core.py `has_completed_universe` on the object: the query of its current record. */
    predicate HasCompletedUniverse(universe: string): (b: bool)
      reads this
      ensures b <==> universe in keyFragments
    {
      Value().HasCompletedUniverse(universe)
    }

    /** core.py `to_dict`, with `list(set)` in whatever order it comes. */
    method ToDict() returns (d: StateDict)
      ensures IsSnapshotOf(d, Value())
      ensures FromDict(d) == Value()
    {
      var fragments := ListOf(keyFragments);
      var visited := ListOf(visitedUniverses);
      d := DictOf(Value(), fragments, visited);
      ToDictRoundTrip(Value(), fragments, visited);
    }
  }

  /** Scenario: a new player's morality 50 lowered by 60 ends at 0, not -10. */
  lemma MoralityFloorScenario()
    ensures NewPlayer.AdjustMorality(-60).morality == 0
  {
  }

  /** Scenario: one charge is used, then the next attempt fails and changes nothing. */
  lemma LastChargeScenario(r: PlayerRecord)
    requires r.fractureKeyCharges == 1
    ensures r.UseFractureKeyCharge().fractureKeyCharges == 0
    ensures r.UseFractureKeyCharge().UseFractureKeyCharge() == r.UseFractureKeyCharge()
  {
  }

  /** A universe counts as completed after its fragment is added, and adding a fragment completes no other universe. */
  lemma AddKeyFragmentCompletes(r: PlayerRecord, key: string, universe: string)
    ensures r.AddKeyFragment(key).HasCompletedUniverse(universe) <==> universe == key || r.HasCompletedUniverse(universe)
  {
  }

  /** Adding the same fragment twice is the same as adding it once. */
  lemma AddKeyFragmentIdempotent(r: PlayerRecord, universe: string)
    ensures r.AddKeyFragment(universe).AddKeyFragment(universe) == r.AddKeyFragment(universe)
  {
  }
}
