/**
 * The Peaky Blinders universe (universes/peaky_blinders.py): five scenes of
 * 1920s Birmingham, the choices each offers, what each choice does to the
 * player, and the exit that spends a fracture-key charge only when one is left.
 */
module PeakyBlinders {
  import opened Wrappers
  import opened Player
  import opened Universe

  /** The key this universe records reputation, visits and its fragment under. */
  const Key := "peaky_blinders"

  const Awakening := InitialScene
  const GarrisonPub := "garrison_pub"
  const ShelbyOffice := "shelby_office"
  const SmallHeath := "small_heath"
  const Warehouse := "warehouse"

  /** The scene registry. */
  const Scenes := {Awakening, GarrisonPub, ShelbyOffice, SmallHeath, Warehouse}

  const TommysNote := "Tommy's Note"
  const TommysTrust := "Tommy's Trust"
  const WarehouseKey := "Warehouse Key"
  const RealityStabilizer := "Reality Stabilizer"

  /** What a search without the warehouse key can turn up. */
  const WarehouseFinds := ["Old Pocket Watch", "Rusted Key", "Strange Coin", "Torn Photograph"]

  /** The executable consequences: one per consequence method, plus the scene-change lambdas. */
  datatype Action =
    | GoToGarrison | GoToSmallHeath | FollowPeakyBlinders
    | OrderDrink | EavesdropGarrison | LookForTommy | ShowTommyNote
    | HelpLocalKid | GoToShelbyOffice | GoToWarehouse
    | SpeakWithPolly | OfferCampbellInfo | AskAboutOpportunities
    | SearchWarehouse | HideInWarehouse
    | ChangeSceneTo(scene: string)
    | ExitUniverse

  /** The choices of a scene before the exit choice. */
  function SceneConsequences(scene: string, r: PlayerRecord): (consequences: seq<Consequence<Action>>)
    ensures forall i :: 0 <= i < |consequences| ==> StaysRegistered(consequences[i])
  {
    if scene == Awakening then
      [Transition(GoToGarrison), Transition(GoToSmallHeath), Transition(FollowPeakyBlinders)]
    else if scene == GarrisonPub then
      [Transition(OrderDrink), Transition(EavesdropGarrison), Transition(LookForTommy)]
      + (if TommysNote in r.inventory then [Transition(ShowTommyNote)] else [])
    else if scene == SmallHeath then
      [Transition(HelpLocalKid), Transition(GoToShelbyOffice), Transition(GoToWarehouse)]
    else if scene == ShelbyOffice then
      [Transition(SpeakWithPolly), Transition(OfferCampbellInfo), Transition(ChangeSceneTo(SmallHeath))]
      + (if r.ReputationOf(Key) >= UnlockReputation then [Transition(AskAboutOpportunities)] else [])
    else if scene == Warehouse then
      [Transition(SearchWarehouse), Transition(HideInWarehouse), Transition(ChangeSceneTo(SmallHeath))]
    else
      []
  }

  /**
   * The choices each scene offers before the exit: three, plus at the
   * Garrison a fourth exactly when Tommy's note is held and at the Shelby
   * office one exactly when reputation reaches the threshold; the third
   * choices of the office and the warehouse lead back to Small Heath; the
   * exit is never among them and an unknown scene offers nothing.
   */
  lemma SceneConsequencesShape(scene: string, r: PlayerRecord)
    ensures var cs := SceneConsequences(scene, r);
      forall i :: 0 <= i < |cs| ==> cs[i] != Transition(ExitUniverse)
    ensures scene == Awakening || scene == SmallHeath || scene == Warehouse ==> |SceneConsequences(scene, r)| == 3
    ensures var cs := SceneConsequences(scene, r);
      scene == GarrisonPub ==>
        |cs| == (if TommysNote in r.inventory then 4 else 3)
        && (TommysNote in r.inventory ==> cs[3] == Transition(ShowTommyNote))
    ensures var cs := SceneConsequences(scene, r);
      scene == ShelbyOffice ==>
        |cs| == (if r.ReputationOf(Key) >= UnlockReputation then 4 else 3)
        && cs[2] == Transition(ChangeSceneTo(SmallHeath))
        && (r.ReputationOf(Key) >= UnlockReputation ==> cs[3] == Transition(AskAboutOpportunities))
    ensures var cs := SceneConsequences(scene, r);
      scene == Warehouse ==> cs[2] == Transition(ChangeSceneTo(SmallHeath))
    ensures scene !in Scenes ==> SceneConsequences(scene, r) == []
  {
  }

  /** A consequence that changes the scene directly names a registered scene. */
  predicate StaysRegistered(c: Consequence<Action>) {
    c.Transition? && c.action.ChangeSceneTo? ==> c.action.scene in Scenes
  }

  /**
   * `get_choices`: numbered from 1; outside the awakening scene the exit choice
   * comes last and appears nowhere else; the fourth choices of the pub and the
   * office are offered exactly when their conditions hold.
   */
  function GetChoices(scene: string, r: PlayerRecord): (cs: seq<Choice<Action>>)
    ensures NumberedInOrder(cs)
    ensures forall i :: 0 <= i < |cs| ==> StaysRegistered(cs[i].consequence)
    ensures forall i :: 0 <= i < |cs| - 1 ==> cs[i].consequence != Transition(ExitUniverse)
    ensures scene == Awakening ==> |cs| == 3 && cs[2].consequence != Transition(ExitUniverse)
    ensures scene != Awakening ==> |cs| >= 1 && cs[|cs| - 1] == Choice(|cs|, Transition(ExitUniverse))
    ensures scene == GarrisonPub ==>
      |cs| == (if TommysNote in r.inventory then 5 else 4)
      && (TommysNote in r.inventory ==> cs[3].consequence == Transition(ShowTommyNote))
    ensures scene == ShelbyOffice ==>
      |cs| == (if r.ReputationOf(Key) >= UnlockReputation then 5 else 4)
      && (r.ReputationOf(Key) >= UnlockReputation ==> cs[3].consequence == Transition(AskAboutOpportunities))
    ensures scene !in Scenes ==> cs == [Choice(1, Transition(ExitUniverse))]
  {
    WithExitChoice(scene, Numbered(SceneConsequences(scene, r)), ExitUniverse)
  }

  /**
   * What each consequence does to the player and the scene. The inputs
   * carry the inline answers and random draws the consequence reads.
   */
  function Effect(a: Action, r: PlayerRecord, inp: Inputs): (o: Outcome)
    ensures o.exits <==> a == ExitUniverse && r.fractureKeyCharges > 0
    ensures o.exits ==> o.record == r.UseFractureKeyCharge().AddKeyFragment(Key) && o.moveTo.None?
    ensures a == ExitUniverse && r.fractureKeyCharges <= 0 ==> o == Stay(r)
    ensures a != ExitUniverse ==>
      o.record.fractureKeyCharges == r.fractureKeyCharges && o.record.keyFragments == r.keyFragments
    ensures o.record.visitedUniverses == r.visitedUniverses
    ensures !a.ChangeSceneTo? && o.moveTo.Some? ==> o.moveTo.value in Scenes
    ensures a.ChangeSceneTo? ==> o == Move(r, a.scene)
    ensures a == HelpLocalKid ==>
      o.record == r.AdjustMorality(10).AdjustReputation(Key, 20)
      && o.moveTo == (if inp.sub == "1" then Some(ShelbyOffice) else None)
    ensures a == GoToShelbyOffice ==> o == Move(r, ShelbyOffice)
    ensures a == ShowTommyNote ==> o == Stay(r.AdjustReputation(Key, 15).AddItem(TommysTrust))
  {
    if OfferedInAwakening(a) then AwakeningEffect(a, r, inp)
    else if OfferedInGarrisonPub(a) then GarrisonPubEffect(a, r, inp)
    else if OfferedInSmallHeath(a) then SmallHeathEffect(a, r, inp)
    else if OfferedInShelbyOffice(a) then ShelbyOfficeEffect(a, r, inp)
    else if OfferedInWarehouse(a) then WarehouseEffect(a, r, inp)
    else
      match a
      case ChangeSceneTo(scene) => Move(r, scene)
      case ExitUniverse =>
        if r.fractureKeyCharges <= 0 then Stay(r)
        else Leave(r.UseFractureKeyCharge().AddKeyFragment(Key))
  }

  /** The actions the choices of the awakening scene lead to. */
  predicate OfferedInAwakening(a: Action) {
    a.GoToGarrison? || a.GoToSmallHeath? || a.FollowPeakyBlinders?
  }

  /** The actions the choices of the Garrison pub lead to. */
  predicate OfferedInGarrisonPub(a: Action) {
    a.OrderDrink? || a.EavesdropGarrison? || a.LookForTommy? || a.ShowTommyNote?
  }

  /** The actions the choices of Small Heath lead to. */
  predicate OfferedInSmallHeath(a: Action) {
    a.HelpLocalKid? || a.GoToShelbyOffice? || a.GoToWarehouse?
  }

  /** The actions the choices of the Shelby Company office lead to. */
  predicate OfferedInShelbyOffice(a: Action) {
    a.SpeakWithPolly? || a.OfferCampbellInfo? || a.AskAboutOpportunities?
  }

  /** The actions the choices of the warehouse lead to. */
  predicate OfferedInWarehouse(a: Action) {
    a.SearchWarehouse? || a.HideInWarehouse?
  }

  /** What the consequences offered in the awakening scene do. */
  function AwakeningEffect(a: Action, r: PlayerRecord, inp: Inputs): (o: Outcome)
    requires OfferedInAwakening(a)
    ensures !o.exits
    ensures o.record.fractureKeyCharges == r.fractureKeyCharges
    ensures o.record.keyFragments == r.keyFragments
    ensures o.record.visitedUniverses == r.visitedUniverses
    ensures o.moveTo.Some? ==> o.moveTo.value in Scenes
  {
    match a
    case GoToGarrison => Move(r, GarrisonPub)
    case GoToSmallHeath => Move(r, SmallHeath)
    case FollowPeakyBlinders => Move(r.AdjustMorality(-5), GarrisonPub)
  }

  /** What the consequences offered in the Garrison pub do. */
  function GarrisonPubEffect(a: Action, r: PlayerRecord, inp: Inputs): (o: Outcome)
    requires OfferedInGarrisonPub(a)
    ensures !o.exits
    ensures o.record.fractureKeyCharges == r.fractureKeyCharges
    ensures o.record.keyFragments == r.keyFragments
    ensures o.record.visitedUniverses == r.visitedUniverses
    ensures o.moveTo.Some? ==> o.moveTo.value in Scenes
    ensures a == ShowTommyNote ==> o == Stay(r.AdjustReputation(Key, 15).AddItem(TommysTrust))
  {
    match a
    case OrderDrink => Stay(if inp.roll < 0.3 then r.AdjustMemorySync(3) else r)
    case EavesdropGarrison => Stay(r.AdjustReputation(Key, if inp.roll < 0.2 then -5 else 5))
    case LookForTommy =>
      Stay(if inp.sub == "1" then r.AdjustReputation(Key, 10)
           else if inp.sub == "2" then r
           else r.AdjustReputation(Key, -10))
    case ShowTommyNote => Stay(r.AdjustReputation(Key, 15).AddItem(TommysTrust))
  }

  /** What the consequences offered in Small Heath do. */
  function SmallHeathEffect(a: Action, r: PlayerRecord, inp: Inputs): (o: Outcome)
    requires OfferedInSmallHeath(a)
    ensures !o.exits
    ensures o.record.fractureKeyCharges == r.fractureKeyCharges
    ensures o.record.keyFragments == r.keyFragments
    ensures o.record.visitedUniverses == r.visitedUniverses
    ensures o.moveTo.Some? ==> o.moveTo.value in Scenes
    ensures a == HelpLocalKid ==>
      o.record == r.AdjustMorality(10).AdjustReputation(Key, 20)
      && o.moveTo == (if inp.sub == "1" then Some(ShelbyOffice) else None)
    ensures a == GoToShelbyOffice ==> o == Move(r, ShelbyOffice)
  {
    match a
    case HelpLocalKid =>
      var helped := r.AdjustMorality(10).AdjustReputation(Key, 20);
      if inp.sub == "1" then Move(helped, ShelbyOffice) else Stay(helped)
    case GoToShelbyOffice => Move(r, ShelbyOffice)
    case GoToWarehouse => Move(r, Warehouse)
  }

  /** What the consequences offered in the Shelby Company office do. */
  function ShelbyOfficeEffect(a: Action, r: PlayerRecord, inp: Inputs): (o: Outcome)
    requires OfferedInShelbyOffice(a)
    ensures !o.exits
    ensures o.record.fractureKeyCharges == r.fractureKeyCharges
    ensures o.record.keyFragments == r.keyFragments
    ensures o.record.visitedUniverses == r.visitedUniverses
    ensures o.moveTo.Some? ==> o.moveTo.value in Scenes
  {
    match a
    case SpeakWithPolly =>
      Stay(if inp.sub == "1" then r
           else if inp.sub == "2" then r.AdjustMemorySync(5)
           else if TommysTrust in r.inventory || r.ReputationOf(Key) >= UnlockReputation then r.AdjustReputation(Key, 5)
           else r.AdjustReputation(Key, -5))
    case OfferCampbellInfo =>
      Stay(if inp.sub == "1" then r
           else if inp.sub == "2" then r.AdjustMemorySync(3)
           else r.AdjustMorality(-5))
    case AskAboutOpportunities => Stay(r.AddItem(WarehouseKey))
  }

  /** What the consequences offered in the warehouse do. */
  function WarehouseEffect(a: Action, r: PlayerRecord, inp: Inputs): (o: Outcome)
    requires OfferedInWarehouse(a)
    ensures !o.exits
    ensures o.record.fractureKeyCharges == r.fractureKeyCharges
    ensures o.record.keyFragments == r.keyFragments
    ensures o.record.visitedUniverses == r.visitedUniverses
    ensures o.moveTo.Some? ==> o.moveTo.value in Scenes
  {
    match a
    case SearchWarehouse =>
      Stay(if WarehouseKey in r.inventory then r.AdjustMemorySync(15).AddItem(RealityStabilizer)
           else r.AddItem(WarehouseFinds[inp.pick % |WarehouseFinds|]))
    case HideInWarehouse =>
      var hidden := r.AdjustMemorySync(10);
      Stay(if inp.sub == "1" then hidden.AdjustMorality(-5)
           else if inp.sub == "2" then
             (if inp.roll < 0.4 || TommysTrust in hidden.inventory then hidden.AdjustReputation(Key, 10)
              else hidden.AdjustReputation(Key, -15))
           else hidden)
  }


  /** No consequence takes morality or memory sync out of [0, 100]. */
  lemma EffectKeepsStatsInRange(a: Action, r: PlayerRecord, inp: Inputs)
    requires r.StatsInRange()
    ensures Effect(a, r, inp).record.StatsInRange()
  {
    match a
    case _ =>
  }

  /** The player is on the exit choice: outside the awakening scene, the last number offered. */
  predicate ExitChosen(scene: string, r: PlayerRecord, choiceId: int) {
    scene != Awakening && choiceId == |GetChoices(scene, r)|
  }

  /**
   * `handle_choice`: look the number up among the current choices; an unknown
   * number changes nothing and returns the current scene; otherwise run the
   * consequence and return its result.
   */
  function Respond(s: SceneState, r: PlayerRecord, choiceId: int, inp: Inputs): (t: Reply)
    ensures Lookup(GetChoices(s.current, r), choiceId).None? ==> t == Reply(s, r, s.current)
    ensures t.record.visitedUniverses == r.visitedUniverses
    ensures r.keyFragments <= t.record.keyFragments
    ensures t.scenes.firstVisit.Keys == s.firstVisit.Keys
  {
    var cs := GetChoices(s.current, r);
    match Lookup(cs, choiceId)
    case None => Reply(s, r, s.current)
    case Some(c) =>
      match c.consequence
      case Text(_) => Reply(s, r, s.current)
      case Transition(a) => Settle(s, Effect(a, r, inp))
  }

  /** From a registered scene, `handle_choice` only ever leads to a registered scene. */
  lemma RespondStaysInScenes(s: SceneState, r: PlayerRecord, choiceId: int, inp: Inputs)
    requires s.current in Scenes
    ensures Respond(s, r, choiceId, inp).scenes.current in Scenes
  {
    var cs := GetChoices(s.current, r);
    var found := Lookup(cs, choiceId);
    if found.Some? && found.value.consequence.Transition? {
      var i :| 0 <= i < |cs| && cs[i] == found.value;
      assert StaysRegistered(cs[i].consequence);
      var o := Effect(cs[i].consequence.action, r, inp);
      assert o.moveTo.Some? ==> o.moveTo.value in Scenes;
    }
  }

  /** No answer to `handle_choice` takes morality or memory sync out of [0, 100]. */
  lemma RespondKeepsStatsInRange(s: SceneState, r: PlayerRecord, choiceId: int, inp: Inputs)
    requires r.StatsInRange()
    ensures Respond(s, r, choiceId, inp).record.StatsInRange()
  {
    var cs := GetChoices(s.current, r);
    if Lookup(cs, choiceId).Some? && Lookup(cs, choiceId).value.consequence.Transition? {
      EffectKeepsStatsInRange(Lookup(cs, choiceId).value.consequence.action, r, inp);
    }
  }

  /** No scene is called "exit", the value `handle_choice` returns to leave. */
  lemma ExitIsNoScene()
    ensures ExitSentinel !in Scenes
  {
    assert forall scene :: scene in Scenes ==> |scene| != |ExitSentinel|;
  }

  /**
   * "exit" comes back exactly when the exit choice is taken with a charge left;
   * then one charge is gone and the fragment is held. On the exit choice without
   * a charge nothing changes; any other answer is the current scene and leaves
   * charges and fragments alone.
   */
  lemma {:induction false} RespondExit(s: SceneState, r: PlayerRecord, choiceId: int, inp: Inputs)
    requires s.current != ExitSentinel
    ensures var t := Respond(s, r, choiceId, inp);
      && (t.result == ExitSentinel <==> ExitChosen(s.current, r, choiceId) && r.fractureKeyCharges > 0)
      && (t.result == ExitSentinel ==> t.record == r.UseFractureKeyCharge().AddKeyFragment(Key) && t.scenes == s)
      && (ExitChosen(s.current, r, choiceId) && r.fractureKeyCharges <= 0 ==> t == Reply(s, r, s.current))
      && (t.result != ExitSentinel ==>
            t.result == t.scenes.current && t.record.keyFragments == r.keyFragments
            && t.record.fractureKeyCharges == r.fractureKeyCharges)
  {
    ExitIsNoScene();
    var cs := GetChoices(s.current, r);
    LookupNumbered(cs, choiceId);
    if 1 <= choiceId <= |cs| {
      var c := cs[choiceId - 1];
      assert Lookup(cs, choiceId) == Some(c);
      if c.consequence.Transition? {
        var o := Effect(c.consequence.action, r, inp);
        assert Respond(s, r, choiceId, inp) == Settle(s, o);
        if ExitChosen(s.current, r, choiceId) {
          assert c.consequence.action == ExitUniverse;
        } else {
          assert c.consequence.action != ExitUniverse;
          assert !o.exits;
          assert StaysRegistered(c.consequence);
          assert o.moveTo.Some? ==> o.moveTo.value in Scenes;
        }
      }
    }
  }

  /** What `on_entry` does to the player: the common bookkeeping, then the answer to its opening question. */
  function EntryEffect(r: PlayerRecord, reaction: string): (e: PlayerRecord)
    ensures e.visitedUniverses == r.visitedUniverses + {Key}
    ensures e.ReputationOf(Key) == r.ReputationOf(Key)
    ensures Key in e.reputation
    ensures e.keyFragments == r.keyFragments && e.fractureKeyCharges == r.fractureKeyCharges
    ensures r.StatsInRange() ==> e.StatsInRange()
  {
    var entered := MarkEntered(r, Key);
    if reaction == "1" then entered.AdjustMemorySync(5)
    else if reaction == "2" then entered
    else entered.AddItem(TommysNote)
  }

  /** The universe object: its scene pointer and scene registry change as the player moves. */
  class PeakyBlindersUniverse {
    var currentScene: string
    var firstVisit: map<string, bool>

    function Scenery(): SceneState
      reads this
    {
      SceneState(currentScene, firstVisit)
    }

    constructor ()
      ensures Scenery() == FreshScenes(Scenes)
    {
      currentScene := Awakening;
      firstVisit := map k | k in Scenes :: true;
    }

    /** `_show_scene_description`: showing a registered scene clears its first-visit flag. */
    method ShowSceneDescription(sceneId: string)
      modifies this
      ensures firstVisit == MarkVisited(old(firstVisit), sceneId)
      ensures currentScene == old(currentScene)
    {
      if sceneId in firstVisit && firstVisit[sceneId] {
        firstVisit := firstVisit[sceneId := false];
      }
    }

    /** `_change_scene`. */
    method ChangeScene(newScene: string) returns (scene: string)
      modifies this
      ensures Scenery() == old(Scenery()).Enter(newScene)
      ensures scene == newScene
    {
      currentScene := newScene;
      ShowSceneDescription(newScene);
      scene := newScene;
    }

    /**
     * `on_entry`: records the visit, creates the reputation entry if absent,
     * shows the awakening scene and applies the answer to the opening question.
     * The current scene is left where the last visit ended.
     */
    method OnEntry(state: PlayerState, reaction: string)
      modifies this, state
      ensures state.Value() == EntryEffect(old(state.Value()), reaction)
      ensures Scenery() == SceneState(old(currentScene), MarkVisited(old(firstVisit), Awakening))
    {
      state.visitedUniverses := state.visitedUniverses + {Key};
      if Key !in state.reputation {
        state.reputation := state.reputation[Key := 0];
      }
      ShowSceneDescription(Awakening);
      if reaction == "1" {
        state.AdjustMemorySync(5);
      } else if reaction == "2" {
      } else {
        state.AddItem(TommysNote);
      }
    }

    /**
     * `on_exit`: the fragment is added if absent (so it is held exactly once
     * however often this runs), and the narration tier follows the reputation.
     */
    method OnExit(state: PlayerState) returns (tier: ExitTier)
      modifies state
      ensures state.Value() == old(state.Value()).AddKeyFragment(Key)
      ensures tier == ExitTierOf(state.Value().ReputationOf(Key))
    {
      if Key !in state.keyFragments {
        state.AddKeyFragment(Key);
      }
      tier := ExitTierOf(state.Value().ReputationOf(Key));
    }

    /** Runs one consequence on the player and this universe. */
    method Perform(a: Action, state: PlayerState, inp: Inputs) returns (result: string)
      modifies this, state
      ensures Reply(Scenery(), state.Value(), result) == Settle(old(Scenery()), Effect(a, old(state.Value()), inp))
    {
      if OfferedInAwakening(a) {
        result := PerformInAwakening(a, state, inp);
      } else if OfferedInGarrisonPub(a) {
        result := PerformInGarrisonPub(a, state, inp);
      } else if OfferedInSmallHeath(a) {
        result := PerformInSmallHeath(a, state, inp);
      } else if OfferedInShelbyOffice(a) {
        result := PerformInShelbyOffice(a, state, inp);
      } else if OfferedInWarehouse(a) {
        result := PerformInWarehouse(a, state, inp);
      } else {
        match a
        case ChangeSceneTo(scene) =>
          result := ChangeScene(scene);
        case ExitUniverse =>
          var used := state.UseFractureKeyCharge();
          if !used {
            result := currentScene;
          } else {
            var _ := OnExit(state);
            result := ExitSentinel;
          }
      }
    }

    /** The consequences of the choices offered in the awakening scene. */
    method PerformInAwakening(a: Action, state: PlayerState, inp: Inputs) returns (result: string)
      requires OfferedInAwakening(a)
      modifies this, state
      ensures Reply(Scenery(), state.Value(), result) == Settle(old(Scenery()), AwakeningEffect(a, old(state.Value()), inp))
    {
      match a
      case GoToGarrison =>
        result := ChangeScene(GarrisonPub);
      case GoToSmallHeath =>
        result := ChangeScene(SmallHeath);
      case FollowPeakyBlinders =>
        state.AdjustMorality(-5);
        result := ChangeScene(GarrisonPub);
    }

    /** The consequences of the choices offered in the GarrisonPub scene. */
    method PerformInGarrisonPub(a: Action, state: PlayerState, inp: Inputs) returns (result: string)
      requires OfferedInGarrisonPub(a)
      modifies this, state
      ensures Reply(Scenery(), state.Value(), result) == Settle(old(Scenery()), GarrisonPubEffect(a, old(state.Value()), inp))
    {
      match a
      case OrderDrink =>
        if inp.roll < 0.3 {
          state.AdjustMemorySync(3);
        }
        result := currentScene;
      case EavesdropGarrison =>
        if inp.roll < 0.2 {
          state.AdjustReputation(Key, -5);
        } else {
          state.AdjustReputation(Key, 5);
        }
        result := currentScene;
      case LookForTommy =>
        if inp.sub == "1" {
          state.AdjustReputation(Key, 10);
        } else if inp.sub == "2" {
        } else {
          state.AdjustReputation(Key, -10);
        }
        result := currentScene;
      case ShowTommyNote =>
        state.AdjustReputation(Key, 15);
        state.AddItem(TommysTrust);
        result := currentScene;
    }

    /** The consequences of the choices offered in the SmallHeath scene. */
    method PerformInSmallHeath(a: Action, state: PlayerState, inp: Inputs) returns (result: string)
      requires OfferedInSmallHeath(a)
      modifies this, state
      ensures Reply(Scenery(), state.Value(), result) == Settle(old(Scenery()), SmallHeathEffect(a, old(state.Value()), inp))
    {
      match a
      case HelpLocalKid =>
        state.AdjustMorality(10);
        state.AdjustReputation(Key, 20);
        if inp.sub == "1" {
          result := ChangeScene(ShelbyOffice);
        } else {
          result := currentScene;
        }
      case GoToShelbyOffice =>
        result := ChangeScene(ShelbyOffice);
      case GoToWarehouse =>
        result := ChangeScene(Warehouse);
    }

    /** The consequences of the choices offered in the ShelbyOffice scene. */
    method PerformInShelbyOffice(a: Action, state: PlayerState, inp: Inputs) returns (result: string)
      requires OfferedInShelbyOffice(a)
      modifies this, state
      ensures Reply(Scenery(), state.Value(), result) == Settle(old(Scenery()), ShelbyOfficeEffect(a, old(state.Value()), inp))
    {
      match a
      case SpeakWithPolly =>
        if inp.sub == "1" {
        } else if inp.sub == "2" {
          state.AdjustMemorySync(5);
        } else if TommysTrust in state.inventory || state.Value().ReputationOf(Key) >= UnlockReputation {
          state.AdjustReputation(Key, 5);
        } else {
          state.AdjustReputation(Key, -5);
        }
        result := currentScene;
      case OfferCampbellInfo =>
        if inp.sub == "1" {
        } else if inp.sub == "2" {
          state.AdjustMemorySync(3);
        } else {
          state.AdjustMorality(-5);
        }
        result := currentScene;
      case AskAboutOpportunities =>
        state.AddItem(WarehouseKey);
        result := currentScene;
    }

    /** The consequences of the choices offered in the Warehouse scene. */
    method PerformInWarehouse(a: Action, state: PlayerState, inp: Inputs) returns (result: string)
      requires OfferedInWarehouse(a)
      modifies this, state
      ensures Reply(Scenery(), state.Value(), result) == Settle(old(Scenery()), WarehouseEffect(a, old(state.Value()), inp))
    {
      match a
      case SearchWarehouse =>
        if WarehouseKey in state.inventory {
          state.AdjustMemorySync(15);
          state.AddItem(RealityStabilizer);
        } else {
          state.AddItem(WarehouseFinds[inp.pick % |WarehouseFinds|]);
        }
        result := currentScene;
      case HideInWarehouse =>
        state.AdjustMemorySync(10);
        if inp.sub == "1" {
          state.AdjustMorality(-5);
        } else if inp.sub == "2" {
          if inp.roll < 0.4 || TommysTrust in state.inventory {
            state.AdjustReputation(Key, 10);
          } else {
            state.AdjustReputation(Key, -15);
          }
        }
        result := currentScene;
    }

    /** `handle_choice`: the search over the recomputed choices, then the consequence. */
    method HandleChoice(choiceId: int, state: PlayerState, inp: Inputs) returns (next: string)
      modifies this, state
      ensures Reply(Scenery(), state.Value(), next) == Respond(old(Scenery()), old(state.Value()), choiceId, inp)
    {
      var chosen := FindChoice(GetChoices(currentScene, state.Value()), choiceId);
      if chosen.None? {
        return currentScene;
      }
      match chosen.value.consequence
      case Text(_) =>
        next := currentScene;
      case Transition(a) =>
        next := Perform(a, state, inp);
    }
  }

  /** Scenario: taking the exit twice on the last charge leaves after the first and stays put after the second. */
  lemma LastChargeExit(s: SceneState, r: PlayerRecord, inp: Inputs)
    requires s.current == Warehouse && r.fractureKeyCharges == 1
    ensures Respond(s, r, 4, inp).result == ExitSentinel
    ensures var t := Respond(s, r, 4, inp);
      t.record.fractureKeyCharges == 0 && Key in t.record.keyFragments
      && Respond(t.scenes, t.record, 4, inp) == Reply(s, t.record, Warehouse)
  {
    RespondExit(s, r, 4, inp);
    var t := Respond(s, r, 4, inp);
    RespondExit(t.scenes, t.record, 4, inp);
  }
}
