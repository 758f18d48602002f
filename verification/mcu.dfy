/**
 * The Marvel Cinematic Universe (universes/mcu.py): five scenes of New York,
 * the choices each offers, what each choice does to the player, and an exit
 * that, once confirmed, always leaves, spending a charge if one is left.
 */
module Mcu {
  import opened Wrappers
  import opened Player
  import opened Universe

  /** The key this universe records reputation, visits and its fragment under. */
  const Key := "mcu"

  const Awakening := InitialScene
  const StarkTower := "stark_tower"
  const ShieldHq := "shield_hq"
  const CentralPark := "central_park"
  const Sanctum := "sanctum"

  /** The scene registry. */
  const Scenes := {Awakening, StarkTower, ShieldHq, CentralPark, Sanctum}

  const Communicator := "S.H.I.E.L.D. Communicator"
  const VisitorBadge := "Stark Tower Visitor Badge"
  const AgentsCard := "S.H.I.E.L.D. Agent's Card"
  const EnergyCore := "Chitauri Energy Core"
  const MultiverseData := "S.H.I.E.L.D. Multiverse Data"
  const FieldKit := "S.H.I.E.L.D. Field Kit"

  /** The executable consequences: one per consequence method, plus the scene-change lambdas. */
  datatype Action =
    | GoToStarkTower | GoToCentralPark | FollowShieldAgent
    | SpeakWithStark | ExploreStarkTower | EavesdropStarkTower | UseCommunicator
    | HelpLostChild | InvestigateEnergy | GoToSanctum
    | SpeakWithFury | AccessShieldTerminal | RequestResources
    | ExamineArtifacts | SpeakWithMaster
    | ChangeSceneTo(scene: string)
    | ExitUniverse

  /** The choices of a scene before the exit choice. */
  function SceneConsequences(scene: string, r: PlayerRecord): (consequences: seq<Consequence<Action>>)
    ensures forall i :: 0 <= i < |consequences| ==> StaysRegistered(consequences[i])
  {
    if scene == Awakening then
      [Transition(GoToStarkTower), Transition(GoToCentralPark), Transition(FollowShieldAgent)]
    else if scene == StarkTower then
      [Transition(SpeakWithStark), Transition(ExploreStarkTower), Transition(EavesdropStarkTower)]
      + (if Communicator in r.inventory then [Transition(UseCommunicator)] else [])
    else if scene == CentralPark then
      [Transition(HelpLostChild), Transition(InvestigateEnergy), Transition(GoToSanctum)]
    else if scene == ShieldHq then
      [Transition(SpeakWithFury), Transition(AccessShieldTerminal), Transition(ChangeSceneTo(Awakening))]
      + (if r.ReputationOf(Key) >= UnlockReputation then [Transition(RequestResources)] else [])
    else if scene == Sanctum then
      [Transition(ExamineArtifacts), Transition(SpeakWithMaster), Transition(ChangeSceneTo(CentralPark))]
    else
      []
  }

  /**
   * The choices each scene offers before the exit: three, plus at Stark Tower
   * a fourth exactly when the communicator is held and at S.H.I.E.L.D.
   * headquarters one exactly when reputation reaches the threshold; the
   * third choices of headquarters and the sanctum lead back out; the exit is
   * never among them and an unknown scene offers nothing.
   */
  lemma SceneConsequencesShape(scene: string, r: PlayerRecord)
    ensures var cs := SceneConsequences(scene, r);
      forall i :: 0 <= i < |cs| ==> cs[i] != Transition(ExitUniverse)
    ensures scene == Awakening || scene == CentralPark || scene == Sanctum ==> |SceneConsequences(scene, r)| == 3
    ensures var cs := SceneConsequences(scene, r);
      scene == StarkTower ==>
        |cs| == (if Communicator in r.inventory then 4 else 3)
        && (Communicator in r.inventory ==> cs[3] == Transition(UseCommunicator))
    ensures var cs := SceneConsequences(scene, r);
      scene == ShieldHq ==>
        |cs| == (if r.ReputationOf(Key) >= UnlockReputation then 4 else 3)
        && cs[2] == Transition(ChangeSceneTo(Awakening))
        && (r.ReputationOf(Key) >= UnlockReputation ==> cs[3] == Transition(RequestResources))
    ensures var cs := SceneConsequences(scene, r);
      scene == Sanctum ==> cs[2] == Transition(ChangeSceneTo(CentralPark))
    ensures scene !in Scenes ==> SceneConsequences(scene, r) == []
  {
  }

  /** A consequence that changes the scene directly names a registered scene. */
  predicate StaysRegistered(c: Consequence<Action>) {
    c.Transition? && c.action.ChangeSceneTo? ==> c.action.scene in Scenes
  }

  /**
   * `get_choices`: numbered from 1; outside the awakening scene the exit choice
   * comes last and appears nowhere else; Stark Tower and S.H.I.E.L.D.
   * headquarters offer a fourth choice exactly when their conditions hold, and
   * the third choices of headquarters and the sanctum lead back out.
   */
  function GetChoices(scene: string, r: PlayerRecord): (cs: seq<Choice<Action>>)
    ensures NumberedInOrder(cs)
    ensures forall i :: 0 <= i < |cs| ==> StaysRegistered(cs[i].consequence)
    ensures forall i :: 0 <= i < |cs| - 1 ==> cs[i].consequence != Transition(ExitUniverse)
    ensures scene == Awakening ==> |cs| == 3 && cs[2].consequence != Transition(ExitUniverse)
    ensures scene != Awakening ==> |cs| >= 1 && cs[|cs| - 1] == Choice(|cs|, Transition(ExitUniverse))
    ensures scene == StarkTower ==>
      |cs| == (if Communicator in r.inventory then 5 else 4)
      && (Communicator in r.inventory ==> cs[3].consequence == Transition(UseCommunicator))
    ensures scene == ShieldHq ==>
      |cs| == (if r.ReputationOf(Key) >= UnlockReputation then 5 else 4)
      && (r.ReputationOf(Key) >= UnlockReputation ==> cs[3].consequence == Transition(RequestResources))
      && cs[2].consequence == Transition(ChangeSceneTo(Awakening))
    ensures scene == Sanctum ==> |cs| == 4 && cs[2].consequence == Transition(ChangeSceneTo(CentralPark))
    ensures scene !in Scenes ==> cs == [Choice(1, Transition(ExitUniverse))]
  {
    WithExitChoice(scene, Numbered(SceneConsequences(scene, r)), ExitUniverse)
  }

  /**
   * What each consequence does to the player and the scene. The inputs
   * carry the inline answers, the exit confirmation and the random draws.
   */
  function Effect(a: Action, r: PlayerRecord, inp: Inputs): (o: Outcome)
    ensures o.exits <==> a == ExitUniverse && inp.confirm
    ensures o.exits ==> o.record == r.UseFractureKeyCharge() && o.moveTo.None?
    ensures a == ExitUniverse && !inp.confirm ==> o == Stay(r)
    ensures a != ExitUniverse ==> o.record.fractureKeyCharges == r.fractureKeyCharges
    ensures o.record.keyFragments == r.keyFragments
    ensures o.record.visitedUniverses == r.visitedUniverses
    ensures !a.ChangeSceneTo? && o.moveTo.Some? ==> o.moveTo.value in Scenes
    ensures a.ChangeSceneTo? ==> o == Move(r, a.scene)
    ensures a == FollowShieldAgent ==> o == Move(r.AdjustMorality(-5), ShieldHq)
    ensures a == UseCommunicator && inp.sub == "1" ==> o == Move(r, ShieldHq)
  {
    if OfferedInAwakening(a) then AwakeningEffect(a, r, inp)
    else if OfferedInStarkTower(a) then StarkTowerEffect(a, r, inp)
    else if OfferedInCentralPark(a) then CentralParkEffect(a, r, inp)
    else if OfferedInShieldHq(a) then ShieldHqEffect(a, r, inp)
    else if OfferedInSanctum(a) then SanctumEffect(a, r, inp)
    else
      match a
      case ChangeSceneTo(scene) => Move(r, scene)
      case ExitUniverse =>
        if inp.confirm then Leave(r.UseFractureKeyCharge()) else Stay(r)
  }

  /** The actions the choices of the awakening scene lead to. */
  predicate OfferedInAwakening(a: Action) {
    a.GoToStarkTower? || a.GoToCentralPark? || a.FollowShieldAgent?
  }

  /** The actions the choices of Stark Tower lead to. */
  predicate OfferedInStarkTower(a: Action) {
    a.SpeakWithStark? || a.ExploreStarkTower? || a.EavesdropStarkTower? || a.UseCommunicator?
  }

  /** The actions the choices of Central Park lead to. */
  predicate OfferedInCentralPark(a: Action) {
    a.HelpLostChild? || a.InvestigateEnergy? || a.GoToSanctum?
  }

  /** The actions the choices of S.H.I.E.L.D. headquarters lead to. */
  predicate OfferedInShieldHq(a: Action) {
    a.SpeakWithFury? || a.AccessShieldTerminal? || a.RequestResources?
  }

  /** The actions the choices of the Sanctum lead to. */
  predicate OfferedInSanctum(a: Action) {
    a.ExamineArtifacts? || a.SpeakWithMaster?
  }

  /** What the consequences offered in the awakening scene do. */
  function AwakeningEffect(a: Action, r: PlayerRecord, inp: Inputs): (o: Outcome)
    requires OfferedInAwakening(a)
    ensures !o.exits
    ensures o.record.fractureKeyCharges == r.fractureKeyCharges
    ensures o.record.keyFragments == r.keyFragments
    ensures o.record.visitedUniverses == r.visitedUniverses
    ensures o.moveTo.Some? ==> o.moveTo.value in Scenes
    ensures a == FollowShieldAgent ==> o == Move(r.AdjustMorality(-5), ShieldHq)
  {
    match a
    case GoToStarkTower => Move(r, StarkTower)
    case GoToCentralPark => Move(r, CentralPark)
    case FollowShieldAgent => Move(r.AdjustMorality(-5), ShieldHq)
  }

  /** What the consequences offered in Stark Tower do. */
  function StarkTowerEffect(a: Action, r: PlayerRecord, inp: Inputs): (o: Outcome)
    requires OfferedInStarkTower(a)
    ensures !o.exits
    ensures o.record.fractureKeyCharges == r.fractureKeyCharges
    ensures o.record.keyFragments == r.keyFragments
    ensures o.record.visitedUniverses == r.visitedUniverses
    ensures o.moveTo.Some? ==> o.moveTo.value in Scenes
    ensures a == UseCommunicator && inp.sub == "1" ==> o == Move(r, ShieldHq)
  {
    match a
    case SpeakWithStark =>
      Stay(if inp.sub == "1" then
             (if inp.roll < 0.3 then
                var impressed := r.AdjustReputation(Key, 15);
                if inp.roll2 < 0.4 then impressed.AdjustMemorySync(4) else impressed
              else r)
           else if inp.sub == "2" then r
           else r.AdjustReputation(Key, -10))
    case ExploreStarkTower =>
      Stay(if inp.roll < 0.3 then r.AddItem(VisitorBadge).AdjustMorality(-5) else r)
    case EavesdropStarkTower =>
      Stay(if inp.roll < 0.2 then
             (if VisitorBadge in r.inventory then r else r.AdjustReputation(Key, -5))
           else r.AdjustReputation(Key, 5))
    case UseCommunicator =>
      if inp.sub == "1" then Move(r, ShieldHq)
      else if inp.sub == "2" then Stay(r.AdjustReputation(Key, -5))
      else Stay(r.AdjustReputation(Key, 5))
  }

  /** What the consequences offered in Central Park do. */
  function CentralParkEffect(a: Action, r: PlayerRecord, inp: Inputs): (o: Outcome)
    requires OfferedInCentralPark(a)
    ensures !o.exits
    ensures o.record.fractureKeyCharges == r.fractureKeyCharges
    ensures o.record.keyFragments == r.keyFragments
    ensures o.record.visitedUniverses == r.visitedUniverses
    ensures o.moveTo.Some? ==> o.moveTo.value in Scenes
  {
    match a
    case HelpLostChild =>
      var helped := r.AdjustMorality(10);
      Stay(if inp.roll < 0.2 then helped.AddItem(AgentsCard).AdjustReputation(Key, 10) else helped)
    case InvestigateEnergy =>
      Stay(if inp.sub == "1" then r.AddItem(EnergyCore).AdjustMorality(-5).AdjustMemorySync(3)
           else if inp.sub == "2" then r
           else r.AdjustMorality(5).AdjustReputation(Key, 5))
    case GoToSanctum => Move(r, Sanctum)
  }

  /** What the consequences offered in S.H.I.E.L.D. headquarters do. */
  function ShieldHqEffect(a: Action, r: PlayerRecord, inp: Inputs): (o: Outcome)
    requires OfferedInShieldHq(a)
    ensures !o.exits
    ensures o.record.fractureKeyCharges == r.fractureKeyCharges
    ensures o.record.keyFragments == r.keyFragments
    ensures o.record.visitedUniverses == r.visitedUniverses
    ensures o.moveTo.Some? ==> o.moveTo.value in Scenes
  {
    match a
    case SpeakWithFury =>
      Stay(if Communicator in r.inventory || AgentsCard in r.inventory then
             r.AdjustReputation(Key, 15).AdjustMemorySync(5)
           else r)
    case AccessShieldTerminal =>
      var chance := if Communicator in r.inventory then 0.6 else 0.3;
      Stay(if inp.roll < chance then r.AddItem(MultiverseData).AdjustMemorySync(5).AdjustMorality(-10)
           else r.AdjustReputation(Key, -15))
    case RequestResources => Stay(r.AddItem(FieldKit).AdjustReputation(Key, 10))
  }

  /** What the consequences offered in the Sanctum do. */
  function SanctumEffect(a: Action, r: PlayerRecord, inp: Inputs): (o: Outcome)
    requires OfferedInSanctum(a)
    ensures !o.exits
    ensures o.record.fractureKeyCharges == r.fractureKeyCharges
    ensures o.record.keyFragments == r.keyFragments
    ensures o.record.visitedUniverses == r.visitedUniverses
    ensures o.moveTo.Some? ==> o.moveTo.value in Scenes
  {
    match a
    case ExamineArtifacts =>
      Stay(if inp.sub == "1" then r.AdjustMemorySync(10)
           else if inp.sub == "2" then r
           else r.AdjustReputation(Key, 10))
    case SpeakWithMaster =>
      Stay(if inp.sub == "1" then r.AdjustMemorySync(7)
           else if inp.sub == "2" then r.AdjustReputation(Key, 5)
           else r)
  }


  /** No consequence takes morality or memory sync out of [0, 100]. */
  lemma EffectKeepsStatsInRange(a: Action, r: PlayerRecord, inp: Inputs)
    requires r.StatsInRange()
    ensures Effect(a, r, inp).record.StatsInRange()
  {
    match a
    case _ =>
  }

  /** The player is on the exit choice: outside the awakening scene, the last number offered. */
  predicate ExitChosen(scene: string, r: PlayerRecord, choiceId: int) {
    scene != Awakening && choiceId == |GetChoices(scene, r)|
  }

  /**
   * `handle_choice`: look the number up among the current choices; an unknown
   * number changes nothing and returns the current scene; otherwise run the
   * consequence and return its result. No choice here awards the fragment.
   */
  function Respond(s: SceneState, r: PlayerRecord, choiceId: int, inp: Inputs): (t: Reply)
    ensures Lookup(GetChoices(s.current, r), choiceId).None? ==> t == Reply(s, r, s.current)
    ensures t.record.visitedUniverses == r.visitedUniverses
    ensures t.record.keyFragments == r.keyFragments
    ensures t.scenes.firstVisit.Keys == s.firstVisit.Keys
  {
    var cs := GetChoices(s.current, r);
    match Lookup(cs, choiceId)
    case None => Reply(s, r, s.current)
    case Some(c) =>
      match c.consequence
      case Text(_) => Reply(s, r, s.current)
      case Transition(a) => Settle(s, Effect(a, r, inp))
  }

  /** From a registered scene, `handle_choice` only ever leads to a registered scene. */
  lemma RespondStaysInScenes(s: SceneState, r: PlayerRecord, choiceId: int, inp: Inputs)
    requires s.current in Scenes
    ensures Respond(s, r, choiceId, inp).scenes.current in Scenes
  {
    var cs := GetChoices(s.current, r);
    var found := Lookup(cs, choiceId);
    if found.Some? && found.value.consequence.Transition? {
      var i :| 0 <= i < |cs| && cs[i] == found.value;
      assert StaysRegistered(cs[i].consequence);
      var o := Effect(cs[i].consequence.action, r, inp);
      assert o.moveTo.Some? ==> o.moveTo.value in Scenes;
    }
  }

  /** No answer to `handle_choice` takes morality or memory sync out of [0, 100]. */
  lemma RespondKeepsStatsInRange(s: SceneState, r: PlayerRecord, choiceId: int, inp: Inputs)
    requires r.StatsInRange()
    ensures Respond(s, r, choiceId, inp).record.StatsInRange()
  {
    var cs := GetChoices(s.current, r);
    if Lookup(cs, choiceId).Some? && Lookup(cs, choiceId).value.consequence.Transition? {
      EffectKeepsStatsInRange(Lookup(cs, choiceId).value.consequence.action, r, inp);
    }
  }

  /** No scene is called "exit", the value `handle_choice` returns to leave. */
  lemma ExitIsNoScene()
    ensures ExitSentinel !in Scenes
  {
    assert forall scene :: scene in Scenes ==> |scene| != |ExitSentinel|;
  }

  /**
   * "exit" comes back exactly when the exit choice is confirmed, whether or not
   * a charge was left: the charge counter only drops when it was positive. An
   * unconfirmed exit changes nothing; any other answer is the current scene and
   * leaves the charges alone.
   */
  lemma {:induction false} RespondExit(s: SceneState, r: PlayerRecord, choiceId: int, inp: Inputs)
    requires s.current != ExitSentinel
    ensures var t := Respond(s, r, choiceId, inp);
      && (t.result == ExitSentinel <==> ExitChosen(s.current, r, choiceId) && inp.confirm)
      && (t.result == ExitSentinel ==> t.record == r.UseFractureKeyCharge() && t.scenes == s)
      && (ExitChosen(s.current, r, choiceId) && !inp.confirm ==> t == Reply(s, r, s.current))
      && (t.result != ExitSentinel ==>
            t.result == t.scenes.current && t.record.fractureKeyCharges == r.fractureKeyCharges)
  {
    ExitIsNoScene();
    var cs := GetChoices(s.current, r);
    LookupNumbered(cs, choiceId);
    if 1 <= choiceId <= |cs| {
      var c := cs[choiceId - 1];
      assert Lookup(cs, choiceId) == Some(c);
      if c.consequence.Transition? {
        var o := Effect(c.consequence.action, r, inp);
        assert Respond(s, r, choiceId, inp) == Settle(s, o);
        if ExitChosen(s.current, r, choiceId) {
          assert c.consequence.action == ExitUniverse;
        } else {
          assert c.consequence.action != ExitUniverse;
          assert !o.exits;
          assert StaysRegistered(c.consequence);
          assert o.moveTo.Some? ==> o.moveTo.value in Scenes;
        }
      }
    }
  }

  /** What `on_entry` does to the player: the common bookkeeping, then the answer to its opening question. */
  function EntryEffect(r: PlayerRecord, reaction: string): (e: PlayerRecord)
    ensures e.visitedUniverses == r.visitedUniverses + {Key}
    ensures e.ReputationOf(Key) == r.ReputationOf(Key)
    ensures Key in e.reputation
    ensures e.keyFragments == r.keyFragments && e.fractureKeyCharges == r.fractureKeyCharges
    ensures r.StatsInRange() ==> e.StatsInRange()
  {
    var entered := MarkEntered(r, Key);
    if reaction == "1" then entered.AdjustMemorySync(5)
    else if reaction == "2" then entered
    else entered.AddItem(Communicator)
  }

  /** The universe object: its scene pointer and scene registry change as the player moves. */
  class McuUniverse {
    var currentScene: string
    var firstVisit: map<string, bool>

    function Scenery(): SceneState
      reads this
    {
      SceneState(currentScene, firstVisit)
    }

    constructor ()
      ensures Scenery() == FreshScenes(Scenes)
    {
      currentScene := Awakening;
      firstVisit := map k | k in Scenes :: true;
    }

    /** `_show_scene_description`: showing a registered scene clears its first-visit flag. */
    method ShowSceneDescription(sceneId: string)
      modifies this
      ensures firstVisit == MarkVisited(old(firstVisit), sceneId)
      ensures currentScene == old(currentScene)
    {
      if sceneId in firstVisit && firstVisit[sceneId] {
        firstVisit := firstVisit[sceneId := false];
      }
    }

    /** `_change_scene`. */
    method ChangeScene(newScene: string) returns (scene: string)
      modifies this
      ensures Scenery() == old(Scenery()).Enter(newScene)
      ensures scene == newScene
    {
      currentScene := newScene;
      ShowSceneDescription(newScene);
      scene := newScene;
    }

    /**
     * `on_entry`: records the visit, creates the reputation entry if absent,
     * shows the awakening scene and applies the answer to the opening question.
     * The current scene is left where the last visit ended.
     */
    method OnEntry(state: PlayerState, reaction: string)
      modifies this, state
      ensures state.Value() == EntryEffect(old(state.Value()), reaction)
      ensures Scenery() == SceneState(old(currentScene), MarkVisited(old(firstVisit), Awakening))
    {
      state.visitedUniverses := state.visitedUniverses + {Key};
      if Key !in state.reputation {
        state.reputation := state.reputation[Key := 0];
      }
      ShowSceneDescription(Awakening);
      if reaction == "1" {
        state.AdjustMemorySync(5);
      } else if reaction == "2" {
      } else {
        state.AddItem(Communicator);
      }
    }

    /**
     * `on_exit`: the fragment is added if absent (so it is held exactly once
     * however often this runs), and the narration tier follows the reputation.
     */
    method OnExit(state: PlayerState) returns (tier: ExitTier)
      modifies state
      ensures state.Value() == old(state.Value()).AddKeyFragment(Key)
      ensures tier == ExitTierOf(state.Value().ReputationOf(Key))
    {
      if Key !in state.keyFragments {
        state.AddKeyFragment(Key);
      }
      tier := ExitTierOf(state.Value().ReputationOf(Key));
    }

    /** Runs one consequence on the player and this universe. */
    method Perform(a: Action, state: PlayerState, inp: Inputs) returns (result: string)
      modifies this, state
      ensures Reply(Scenery(), state.Value(), result) == Settle(old(Scenery()), Effect(a, old(state.Value()), inp))
    {
      if OfferedInAwakening(a) {
        result := PerformInAwakening(a, state, inp);
      } else if OfferedInStarkTower(a) {
        result := PerformInStarkTower(a, state, inp);
      } else if OfferedInCentralPark(a) {
        result := PerformInCentralPark(a, state, inp);
      } else if OfferedInShieldHq(a) {
        result := PerformInShieldHq(a, state, inp);
      } else if OfferedInSanctum(a) {
        result := PerformInSanctum(a, state, inp);
      } else {
        match a
        case ChangeSceneTo(scene) =>
          result := ChangeScene(scene);
        case ExitUniverse =>
          if inp.confirm {
            var _ := state.UseFractureKeyCharge();
            result := ExitSentinel;
          } else {
            result := currentScene;
          }
      }
    }

    /** The consequences of the choices offered in the awakening scene. */
    method PerformInAwakening(a: Action, state: PlayerState, inp: Inputs) returns (result: string)
      requires OfferedInAwakening(a)
      modifies this, state
      ensures Reply(Scenery(), state.Value(), result) == Settle(old(Scenery()), AwakeningEffect(a, old(state.Value()), inp))
    {
      match a
      case GoToStarkTower =>
        result := ChangeScene(StarkTower);
      case GoToCentralPark =>
        result := ChangeScene(CentralPark);
      case FollowShieldAgent =>
        state.AdjustMorality(-5);
        result := ChangeScene(ShieldHq);
    }

    /** The consequences of the choices offered in the StarkTower scene. */
    method PerformInStarkTower(a: Action, state: PlayerState, inp: Inputs) returns (result: string)
      requires OfferedInStarkTower(a)
      modifies this, state
      ensures Reply(Scenery(), state.Value(), result) == Settle(old(Scenery()), StarkTowerEffect(a, old(state.Value()), inp))
    {
      match a
      case SpeakWithStark =>
        if inp.sub == "1" {
          if inp.roll < 0.3 {
            state.AdjustReputation(Key, 15);
            if inp.roll2 < 0.4 {
              state.AdjustMemorySync(4);
            }
          }
        } else if inp.sub == "2" {
        } else {
          state.AdjustReputation(Key, -10);
        }
        result := currentScene;
      case ExploreStarkTower =>
        if inp.roll < 0.3 {
          state.AddItem(VisitorBadge);
          state.AdjustMorality(-5);
        }
        result := currentScene;
      case EavesdropStarkTower =>
        if inp.roll < 0.2 {
          if VisitorBadge !in state.inventory {
            state.AdjustReputation(Key, -5);
          }
        } else {
          state.AdjustReputation(Key, 5);
        }
        result := currentScene;
      case UseCommunicator =>
        if inp.sub == "1" {
          result := ChangeScene(ShieldHq);
        } else {
          if inp.sub == "2" {
            state.AdjustReputation(Key, -5);
          } else {
            state.AdjustReputation(Key, 5);
          }
          result := currentScene;
        }
    }

    /** The consequences of the choices offered in the CentralPark scene. */
    method PerformInCentralPark(a: Action, state: PlayerState, inp: Inputs) returns (result: string)
      requires OfferedInCentralPark(a)
      modifies this, state
      ensures Reply(Scenery(), state.Value(), result) == Settle(old(Scenery()), CentralParkEffect(a, old(state.Value()), inp))
    {
      match a
      case HelpLostChild =>
        state.AdjustMorality(10);
        if inp.roll < 0.2 {
          state.AddItem(AgentsCard);
          state.AdjustReputation(Key, 10);
        }
        result := currentScene;
      case InvestigateEnergy =>
        if inp.sub == "1" {
          state.AddItem(EnergyCore);
          state.AdjustMorality(-5);
          state.AdjustMemorySync(3);
        } else if inp.sub == "2" {
        } else {
          state.AdjustMorality(5);
          state.AdjustReputation(Key, 5);
        }
        result := currentScene;
      case GoToSanctum =>
        result := ChangeScene(Sanctum);
    }

    /** The consequences of the choices offered in the ShieldHq scene. */
    method PerformInShieldHq(a: Action, state: PlayerState, inp: Inputs) returns (result: string)
      requires OfferedInShieldHq(a)
      modifies this, state
      ensures Reply(Scenery(), state.Value(), result) == Settle(old(Scenery()), ShieldHqEffect(a, old(state.Value()), inp))
    {
      match a
      case SpeakWithFury =>
        if Communicator in state.inventory || AgentsCard in state.inventory {
          state.AdjustReputation(Key, 15);
          state.AdjustMemorySync(5);
        }
        result := currentScene;
      case AccessShieldTerminal =>
        var chance := if Communicator in state.inventory then 0.6 else 0.3;
        if inp.roll < chance {
          state.AddItem(MultiverseData);
          state.AdjustMemorySync(5);
          state.AdjustMorality(-10);
        } else {
          state.AdjustReputation(Key, -15);
        }
        result := currentScene;
      case RequestResources =>
        state.AddItem(FieldKit);
        state.AdjustReputation(Key, 10);
        result := currentScene;
    }

    /** The consequences of the choices offered in the Sanctum scene. */
    method PerformInSanctum(a: Action, state: PlayerState, inp: Inputs) returns (result: string)
      requires OfferedInSanctum(a)
      modifies this, state
      ensures Reply(Scenery(), state.Value(), result) == Settle(old(Scenery()), SanctumEffect(a, old(state.Value()), inp))
    {
      match a
      case ExamineArtifacts =>
        if inp.sub == "1" {
          state.AdjustMemorySync(10);
        } else if inp.sub == "2" {
        } else {
          state.AdjustReputation(Key, 10);
        }
        result := currentScene;
      case SpeakWithMaster =>
        if inp.sub == "1" {
          state.AdjustMemorySync(7);
        } else if inp.sub == "2" {
          state.AdjustReputation(Key, 5);
        }
        result := currentScene;
    }

    /** `handle_choice`: the search over the recomputed choices, then the consequence. */
    method HandleChoice(choiceId: int, state: PlayerState, inp: Inputs) returns (next: string)
      modifies this, state
      ensures Reply(Scenery(), state.Value(), next) == Respond(old(Scenery()), old(state.Value()), choiceId, inp)
    {
      var chosen := FindChoice(GetChoices(currentScene, state.Value()), choiceId);
      if chosen.None? {
        return currentScene;
      }
      match chosen.value.consequence
      case Text(_) =>
        next := currentScene;
      case Transition(a) =>
        next := Perform(a, state, inp);
    }
  }

  /** Scenario: a confirmed exit with no charge left still leaves, and the counter stays at 0. */
  lemma ExitWithoutCharge(s: SceneState, r: PlayerRecord, inp: Inputs)
    requires s.current == Sanctum && r.fractureKeyCharges == 0 && inp.confirm
    ensures Respond(s, r, 4, inp) == Reply(s, r, ExitSentinel)
  {
    RespondExit(s, r, 4, inp);
  }
}
