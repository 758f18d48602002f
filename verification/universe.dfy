/**
 * What every universe shares (core.py `Universe` and `Choice`): the numbered
 * choice list with its exit choice, the lookup `handle_choice` performs, the
 * bookkeeping of `on_entry`, the three-tier exit narration and the scene
 * registry's first-visit flags.
 */
module Universe {
  import opened Wrappers
  import opened Player

  /** The scene every universe starts in; it offers no exit choice. */
  const InitialScene := "awakening"

  /** What an executable consequence returns to leave the universe. */
  const ExitSentinel := "exit"

  /** Reputation at which extra choices unlock and the middle exit tier begins. */
  const UnlockReputation := 20

  /** Reputation at which the best exit tier begins. */
  const HonouredReputation := 50

  /** A consequence: narration only, or an executable transition named by `A`. */
  datatype Consequence<A> = Text(message: string) | Transition(action: A)

  /** core.py `Choice`: its number within one choice list, and its consequence (the prompt is display text). */
  datatype Choice<A> = Choice(id: int, consequence: Consequence<A>)

  /**
   * What a consequence reads from outside while it runs: the answers typed at
   * its inline prompts (`sub`, then a nested `response`), the answer to a yes/no
   * confirmation, the values `random.random()` returns (`roll`, then `roll2`)
   * and the index `random.choice` picks.
   */
  datatype Inputs = Inputs(sub: string, response: string, confirm: bool, roll: real, roll2: real, pick: nat)

  /** Choice `i` (from 0) carries the number `i + 1`. */
  predicate NumberedInOrder<A>(cs: seq<Choice<A>>) {
    forall i :: 0 <= i < |cs| ==> cs[i].id == i + 1
  }

  /** Numbers a list of consequences 1, 2, 3, ... */
  function Numbered<A>(consequences: seq<Consequence<A>>): (cs: seq<Choice<A>>)
    ensures |cs| == |consequences|
    ensures NumberedInOrder(cs)
    ensures forall i :: 0 <= i < |cs| ==> cs[i].consequence == consequences[i]
  {
    seq(|consequences|, i requires 0 <= i < |consequences| => Choice(i + 1, consequences[i]))
  }

  /**
   * The tail of every `get_choices`: outside the initial scene, one exit
   * choice numbered one past the others.
   */
  function WithExitChoice<A>(scene: string, cs: seq<Choice<A>>, exit: A): (r: seq<Choice<A>>)
    ensures scene == InitialScene ==> r == cs
    ensures scene != InitialScene ==>
      |r| == |cs| + 1 && r[..|cs|] == cs && r[|cs|] == Choice(|cs| + 1, Transition(exit))
    ensures NumberedInOrder(cs) ==> NumberedInOrder(r)
  {
    if scene != InitialScene then cs + [Choice(|cs| + 1, Transition(exit))] else cs
  }

  /** The first choice numbered `id`, as the search in `handle_choice` finds it. */
  function Lookup<A>(cs: seq<Choice<A>>, id: int): (r: Option<Choice<A>>)
    ensures r.None? <==> forall i :: 0 <= i < |cs| ==> cs[i].id != id
    ensures r.Some? ==> r.value.id == id && r.value in cs
  {
    if cs == [] then None
    else if cs[0].id == id then Some(cs[0])
    else Lookup(cs[1..], id)
  }

  /** In a list numbered 1..n, exactly the numbers 1..n are valid, and `id` picks the `id`-th choice. */
  lemma {:induction false} LookupNumbered<A>(cs: seq<Choice<A>>, id: int)
    requires NumberedInOrder(cs)
    ensures Lookup(cs, id).Some? <==> 1 <= id <= |cs|
    ensures 1 <= id <= |cs| ==> Lookup(cs, id) == Some(cs[id - 1])
  {
    if 1 <= id <= |cs| {
      LookupFinds(cs, id - 1);
    }
  }

  /** When no earlier choice has the same number, the lookup returns choice `k`. */
  lemma {:induction false} LookupFinds<A>(cs: seq<Choice<A>>, k: nat)
    requires k < |cs|
    requires forall j :: 0 <= j < k ==> cs[j].id != cs[k].id
    ensures Lookup(cs, cs[k].id) == Some(cs[k])
  {
    if k > 0 {
      LookupFinds(cs[1..], k - 1);
    }
  }

  /** The search loop of `handle_choice`: the first choice whose number is `id`, if any. */
  method FindChoice<A>(cs: seq<Choice<A>>, id: int) returns (found: Option<Choice<A>>)
    ensures found == Lookup(cs, id)
  {
    var i := 0;
    while i < |cs|
      invariant 0 <= i <= |cs|
      invariant Lookup(cs, id) == Lookup(cs[i..], id)
    {
      if cs[i].id == id {
        return Some(cs[i]);
      }
      assert cs[i..][1..] == cs[i + 1..];
      i := i + 1;
    }
    return None;
  }

  /**
   * The bookkeeping of every `on_entry`: the universe is marked visited and its
   * reputation entry is created at 0 when absent, an existing value kept.
   */
  function MarkEntered(r: PlayerRecord, key: string): (e: PlayerRecord)
    ensures e.visitedUniverses == r.visitedUniverses + {key}
    ensures e.reputation.Keys == r.reputation.Keys + {key}
    ensures key in r.reputation ==> e.reputation == r.reputation
    ensures e.ReputationOf(key) == r.ReputationOf(key)
    ensures e == r.(visitedUniverses := e.visitedUniverses, reputation := e.reputation)
  {
    r.(visitedUniverses := r.visitedUniverses + {key},
       reputation := if key in r.reputation then r.reputation else r.reputation[key := 0])
  }

  /** Entering twice does no more than entering once. */
  lemma MarkEnteredIdempotent(r: PlayerRecord, key: string)
    ensures MarkEntered(MarkEntered(r, key), key) == MarkEntered(r, key)
  {
  }

  /** The narration an `on_exit` gives, by the universe's reputation. */
  datatype ExitTier = Honoured | Respected | Baseline

  /** The three-tier policy of every `on_exit`: at least 50, at least 20, otherwise. */
  function ExitTierOf(reputation: int): (t: ExitTier)
    ensures t == Honoured <==> reputation >= HonouredReputation
    ensures t == Respected <==> UnlockReputation <= reputation < HonouredReputation
    ensures t == Baseline <==> reputation < UnlockReputation
  {
    if reputation >= HonouredReputation then Honoured
    else if reputation >= UnlockReputation then Respected
    else Baseline
  }

  /** The tier never drops when reputation grows. */
  lemma ExitTierMonotonic(a: int, b: int)
    requires a <= b
    ensures ExitTierOf(a) == Honoured ==> ExitTierOf(b) == Honoured
    ensures ExitTierOf(a) == Respected ==> ExitTierOf(b) != Baseline
  {
  }

  /**
   * `_show_scene_description`: a registered scene's first-visit flag becomes
   * false; no flag ever goes back to true and no other flag moves.
   */
  function MarkVisited(firstVisit: map<string, bool>, scene: string): (r: map<string, bool>)
    ensures r.Keys == firstVisit.Keys
    ensures scene in firstVisit ==> !r[scene]
    ensures forall s :: s in firstVisit && s != scene ==> r[s] == firstVisit[s]
    ensures forall s :: s in r && r[s] ==> s in firstVisit && firstVisit[s]
  {
    if scene in firstVisit && firstVisit[scene] then firstVisit[scene := false] else firstVisit
  }

  /** A universe's scene pointer and its registry of first-visit flags. */
  datatype SceneState = SceneState(current: string, firstVisit: map<string, bool>)
  {
    /** `_change_scene`: point at `scene` and show it, which clears its first-visit flag. */
    function Enter(scene: string): (s: SceneState)
      ensures s.current == scene
      ensures s.firstVisit.Keys == firstVisit.Keys
      ensures scene in firstVisit ==> !s.firstVisit[scene]
    {
      SceneState(scene, MarkVisited(firstVisit, scene))
    }
  }

  /** A universe freshly constructed: in the initial scene, every registered scene not yet seen. */
  function FreshScenes(scenes: set<string>): (s: SceneState)
    ensures s.current == InitialScene
    ensures s.firstVisit.Keys == scenes
    ensures forall k :: k in s.firstVisit ==> s.firstVisit[k]
  {
    SceneState(InitialScene, map k | k in scenes :: true)
  }

  /**
   * What running one executable consequence does: the player's new record,
   * the scene it moves to (if it calls `_change_scene`) and whether it returns
   * the exit sentinel.
   */
  datatype Outcome = Outcome(record: PlayerRecord, moveTo: Option<string>, exits: bool)

  /** A consequence that returns `self.current_scene`. */
  function Stay(r: PlayerRecord): Outcome {
    Outcome(r, None, false)
  }

  /** A consequence that ends in `self._change_scene(scene, state)`. */
  function Move(r: PlayerRecord, scene: string): Outcome {
    Outcome(r, Some(scene), false)
  }

  /** A consequence that returns "exit". */
  function Leave(r: PlayerRecord): Outcome {
    Outcome(r, None, true)
  }

  /** What `handle_choice` leaves behind: the universe's scenes, the player's record and the returned string. */
  datatype Reply = Reply(scenes: SceneState, record: PlayerRecord, result: string)

  /**
   * Applies an outcome: the scene change, if any, then the value `handle_choice`
   * returns, which is "exit" or the (possibly new) current scene.
   */
  function Settle(s: SceneState, o: Outcome): (t: Reply)
    ensures t.record == o.record
    ensures o.exits ==> t.result == ExitSentinel
    ensures !o.exits ==> t.result == t.scenes.current
    ensures o.moveTo.None? ==> t.scenes == s
    ensures o.moveTo.Some? ==> t.scenes == s.Enter(o.moveTo.value)
  {
    var s' := if o.moveTo.Some? then s.Enter(o.moveTo.value) else s;
    Reply(s', o.record, if o.exits then ExitSentinel else s'.current)
  }
}
