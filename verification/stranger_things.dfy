/**
 * The Stranger Things universe (universes/stranger_things.py): five scenes of
 * 1983 Hawkins, the choices each offers, what each choice does to the player
 * (one of them recharges the fracture key directly), and an exit that, once
 * confirmed, always leaves.
 */
module StrangerThings {
  import opened Wrappers
  import opened Player
  import opened Universe

  /** The key this universe records reputation, visits and its fragment under. */
  const Key := "stranger_things"

  const Awakening := InitialScene
  const HawkinsTown := "hawkins_town"
  const HawkinsLab := "hawkins_lab"
  const UpsideDown := "the_upside_down"
  const ByersHouse := "byers_house"

  /** The scene registry. */
  const Scenes := {Awakening, HawkinsTown, HawkinsLab, UpsideDown, ByersHouse}

  const LabBadge := "Hawkins Lab ID Badge"
  const JoycesAddress := "Joyce's Address"
  const Compass := "Compass"
  const KidsMap := "Kids' Map of Hawkins"
  const LabKeycard := "Hawkins Lab Keycard"
  const SoilSample := "Contaminated Soil Sample"
  const JacketScrap := "Will's Jacket Scrap"
  const Fungus := "Upside Down Fungus"

  /** The executable consequences, one per consequence method. */
  datatype Action =
    | GoToHawkinsTown | GoToHawkinsLab | FollowTracks
    | VisitPoliceStation | VisitArcade | ReadNewspaper | GoToByersHouse
    | EnterLab | MonitorLab | InvestigatePerimeter | UseLabBadge
    | FindExitPortal | SearchForPeople | CollectSample | UseCompass
    | SpeakWithJoyce | ExamineLights | ExamineDrawings | OfferHelp
    | ExitUniverse

  /** The choices of a scene before the exit choice. */
  function SceneConsequences(scene: string, r: PlayerRecord): (consequences: seq<Consequence<Action>>)
    ensures forall i :: 0 <= i < |consequences| ==> consequences[i] != Transition(ExitUniverse)
    ensures scene == Awakening ==> |consequences| == 3
    ensures scene == HawkinsTown ==>
      |consequences| == (if JoycesAddress in r.inventory then 4 else 3)
      && (JoycesAddress in r.inventory ==> consequences[3] == Transition(GoToByersHouse))
    ensures scene == HawkinsLab ==>
      |consequences| == (if LabBadge in r.inventory then 4 else 3)
      && (LabBadge in r.inventory ==> consequences[3] == Transition(UseLabBadge))
    ensures scene == UpsideDown ==>
      |consequences| == (if Compass in r.inventory then 4 else 3)
      && (Compass in r.inventory ==> consequences[3] == Transition(UseCompass))
    ensures scene == ByersHouse ==>
      |consequences| == (if r.ReputationOf(Key) >= UnlockReputation then 4 else 3)
      && (r.ReputationOf(Key) >= UnlockReputation ==> consequences[3] == Transition(OfferHelp))
    ensures scene !in Scenes ==> consequences == []
  {
    if scene == Awakening then
      [Transition(GoToHawkinsTown), Transition(GoToHawkinsLab), Transition(FollowTracks)]
    else if scene == HawkinsTown then
      [Transition(VisitPoliceStation), Transition(VisitArcade), Transition(ReadNewspaper)]
      + (if JoycesAddress in r.inventory then [Transition(GoToByersHouse)] else [])
    else if scene == HawkinsLab then
      [Transition(EnterLab), Transition(MonitorLab), Transition(InvestigatePerimeter)]
      + (if LabBadge in r.inventory then [Transition(UseLabBadge)] else [])
    else if scene == UpsideDown then
      [Transition(FindExitPortal), Transition(SearchForPeople), Transition(CollectSample)]
      + (if Compass in r.inventory then [Transition(UseCompass)] else [])
    else if scene == ByersHouse then
      [Transition(SpeakWithJoyce), Transition(ExamineLights), Transition(ExamineDrawings)]
      + (if r.ReputationOf(Key) >= UnlockReputation then [Transition(OfferHelp)] else [])
    else
      []
  }

  /**
   * `get_choices`: numbered from 1; outside the awakening scene the exit choice
   * comes last and appears nowhere else; each of the four other scenes offers
   * a fourth choice exactly when its condition holds.
   */
  function GetChoices(scene: string, r: PlayerRecord): (cs: seq<Choice<Action>>)
    ensures NumberedInOrder(cs)
    ensures forall i :: 0 <= i < |cs| - 1 ==> cs[i].consequence != Transition(ExitUniverse)
    ensures scene == Awakening ==> |cs| == 3 && cs[2].consequence != Transition(ExitUniverse)
    ensures scene != Awakening ==> |cs| >= 1 && cs[|cs| - 1] == Choice(|cs|, Transition(ExitUniverse))
    ensures scene == HawkinsTown ==>
      |cs| == (if JoycesAddress in r.inventory then 5 else 4)
      && (JoycesAddress in r.inventory ==> cs[3].consequence == Transition(GoToByersHouse))
    ensures scene == HawkinsLab ==>
      |cs| == (if LabBadge in r.inventory then 5 else 4)
      && (LabBadge in r.inventory ==> cs[3].consequence == Transition(UseLabBadge))
    ensures scene == UpsideDown ==>
      |cs| == (if Compass in r.inventory then 5 else 4)
      && (Compass in r.inventory ==> cs[3].consequence == Transition(UseCompass))
    ensures scene == ByersHouse ==>
      |cs| == (if r.ReputationOf(Key) >= UnlockReputation then 5 else 4)
      && (r.ReputationOf(Key) >= UnlockReputation ==> cs[3].consequence == Transition(OfferHelp))
    ensures scene !in Scenes ==> cs == [Choice(1, Transition(ExitUniverse))]
  {
    WithExitChoice(scene, Numbered(SceneConsequences(scene, r)), ExitUniverse)
  }

  /** `state.fracture_key_charges += 1`, done without a mutator. */
  function Recharged(r: PlayerRecord): (e: PlayerRecord)
    ensures e.fractureKeyCharges == r.fractureKeyCharges + 1
    ensures e == r.(fractureKeyCharges := e.fractureKeyCharges)
  {
    r.(fractureKeyCharges := r.fractureKeyCharges + 1)
  }

  /**
   * What each consequence does to the player and the scene. The inputs
   * carry the inline answers, the exit confirmation and the random draws.
   */
  function Effect(a: Action, r: PlayerRecord, inp: Inputs): (o: Outcome)
    ensures o.exits <==> a == ExitUniverse && inp.confirm
    ensures o.exits ==> o.record == r.UseFractureKeyCharge() && o.moveTo.None?
    ensures a == ExitUniverse && !inp.confirm ==> o == Stay(r)
    ensures a == FindExitPortal && inp.sub == "2" ==> o == Move(Recharged(r), HawkinsLab)
    ensures a != ExitUniverse && !(a == FindExitPortal && inp.sub == "2") ==>
      o.record.fractureKeyCharges == r.fractureKeyCharges
    ensures o.record.keyFragments == r.keyFragments
    ensures o.record.visitedUniverses == r.visitedUniverses
    ensures o.moveTo.Some? ==> o.moveTo.value in Scenes
    ensures a == OfferHelp ==> o == Stay(r.AdjustMorality(15).AdjustReputation(Key, 25))
  {
    if OfferedInAwakening(a) then AwakeningEffect(a, r, inp)
    else if OfferedInHawkinsTown(a) then HawkinsTownEffect(a, r, inp)
    else if OfferedInHawkinsLab(a) then HawkinsLabEffect(a, r, inp)
    else if OfferedInUpsideDown(a) then UpsideDownEffect(a, r, inp)
    else if OfferedInByersHouse(a) then ByersHouseEffect(a, r, inp)
    else if inp.confirm then Leave(r.UseFractureKeyCharge())
    else Stay(r)
  }

  /** The actions the choices of the awakening scene lead to. */
  predicate OfferedInAwakening(a: Action) {
    a.GoToHawkinsTown? || a.GoToHawkinsLab? || a.FollowTracks?
  }

  /** The actions the choices of Hawkins town lead to. */
  predicate OfferedInHawkinsTown(a: Action) {
    a.VisitPoliceStation? || a.VisitArcade? || a.ReadNewspaper? || a.GoToByersHouse?
  }

  /** The actions the choices of the Hawkins lab lead to. */
  predicate OfferedInHawkinsLab(a: Action) {
    a.EnterLab? || a.MonitorLab? || a.InvestigatePerimeter? || a.UseLabBadge?
  }

  /** The actions the choices of the Upside Down lead to. */
  predicate OfferedInUpsideDown(a: Action) {
    a.FindExitPortal? || a.SearchForPeople? || a.CollectSample? || a.UseCompass?
  }

  /** The actions the choices of the Byers house lead to. */
  predicate OfferedInByersHouse(a: Action) {
    a.SpeakWithJoyce? || a.ExamineLights? || a.ExamineDrawings? || a.OfferHelp?
  }

  /** What the consequences offered in the awakening scene do. */
  function AwakeningEffect(a: Action, r: PlayerRecord, inp: Inputs): (o: Outcome)
    requires OfferedInAwakening(a)
    ensures !o.exits
    ensures o.record.fractureKeyCharges == r.fractureKeyCharges
    ensures o.record.keyFragments == r.keyFragments
    ensures o.record.visitedUniverses == r.visitedUniverses
    ensures o.moveTo.Some? ==> o.moveTo.value in Scenes
  {
    match a
    case GoToHawkinsTown => Move(r, HawkinsTown)
    case GoToHawkinsLab => Move(r, HawkinsLab)
    case FollowTracks =>
      if inp.sub == "1" then Move(r, HawkinsTown)
      else if inp.sub == "2" then
        (if inp.roll < 0.3 then Move(r.AdjustMemorySync(7), UpsideDown)
         else Move(r.AdjustReputation(Key, 5), HawkinsTown))
      else Move(r.AddItem(Compass), HawkinsTown)
  }

  /** What the consequences offered in Hawkins town do. */
  function HawkinsTownEffect(a: Action, r: PlayerRecord, inp: Inputs): (o: Outcome)
    requires OfferedInHawkinsTown(a)
    ensures !o.exits
    ensures o.record.fractureKeyCharges == r.fractureKeyCharges
    ensures o.record.keyFragments == r.keyFragments
    ensures o.record.visitedUniverses == r.visitedUniverses
    ensures o.moveTo.Some? ==> o.moveTo.value in Scenes
  {
    match a
    case VisitPoliceStation =>
      Stay(if inp.sub == "1" then
             (if inp.response == "1" then r.AdjustReputation(Key, 10)
              else if inp.response == "2" then r
              else r.AdjustReputation(Key, 15))
           else if inp.sub == "2" then r.AddItem(JoycesAddress)
           else if inp.roll < 0.4 then r.AdjustMemorySync(3)
           else r)
    case VisitArcade =>
      Stay(if inp.sub == "1" then
             (if inp.response == "1" then r
              else if inp.response == "2" then r.AdjustReputation(Key, 10)
              else r.AdjustReputation(Key, -5))
           else if inp.sub == "2" then r.AddItem(KidsMap)
           else r.AdjustMorality(-10).AdjustReputation(Key, 5))
    case ReadNewspaper => Stay(if inp.roll < 0.3 then r.AdjustMemorySync(3) else r)
    case GoToByersHouse => Move(r, ByersHouse)
  }

  /** What the consequences offered in the Hawkins lab do. */
  function HawkinsLabEffect(a: Action, r: PlayerRecord, inp: Inputs): (o: Outcome)
    requires OfferedInHawkinsLab(a)
    ensures !o.exits
    ensures o.record.fractureKeyCharges == r.fractureKeyCharges
    ensures o.record.keyFragments == r.keyFragments
    ensures o.record.visitedUniverses == r.visitedUniverses
    ensures o.moveTo.Some? ==> o.moveTo.value in Scenes
  {
    match a
    case EnterLab =>
      Stay(if LabBadge in r.inventory then
             (if inp.roll < 0.3 + (r.ReputationOf(Key) as real) / 200.0 then
                r.AdjustReputation(Key, 15).AdjustMemorySync(5)
              else r.AdjustReputation(Key, -5))
           else r)
    case MonitorLab => Stay(if inp.roll < 0.4 then r.AddItem(LabKeycard) else r)
    case InvestigatePerimeter =>
      if inp.sub == "1" then
        (if inp.roll < 0.4 then Move(r.AdjustMemorySync(8), UpsideDown)
         else Stay(r.AdjustReputation(Key, 10)))
      else if inp.sub == "2" then Stay(r.AddItem(SoilSample))
      else Stay(r)
    case UseLabBadge =>
      Stay(if inp.sub == "1" then r.AdjustReputation(Key, 10)
           else if inp.sub == "2" then
             (if inp.roll < 0.3 then r.AdjustReputation(Key, -10)
              else r.AdjustReputation(Key, 15).AdjustMemorySync(6))
           else r.AdjustMorality(5).AdjustReputation(Key, 10))
  }

  /** What the consequences offered in the Upside Down do. */
  function UpsideDownEffect(a: Action, r: PlayerRecord, inp: Inputs): (o: Outcome)
    requires OfferedInUpsideDown(a)
    ensures !o.exits
    ensures !(a == FindExitPortal && inp.sub == "2") ==> o.record.fractureKeyCharges == r.fractureKeyCharges
    ensures a == FindExitPortal && inp.sub == "2" ==> o == Move(Recharged(r), HawkinsLab)
    ensures o.record.keyFragments == r.keyFragments
    ensures o.record.visitedUniverses == r.visitedUniverses
    ensures o.moveTo.Some? ==> o.moveTo.value in Scenes
  {
    match a
    case FindExitPortal =>
      if inp.sub == "1" then Move(r.AdjustMemorySync(10), HawkinsTown)
      else if inp.sub == "2" then Move(Recharged(r), HawkinsLab)
      else Move(r.AdjustReputation(Key, 15), HawkinsTown)
    case SearchForPeople =>
      if inp.sub == "1" then Stay(r.AddItem(JacketScrap).AdjustMorality(10))
      else if inp.sub == "2" then Stay(r.AdjustMorality(5))
      else Move(r, HawkinsTown)
    case CollectSample =>
      var sampled := r.AddItem(Fungus);
      if inp.roll < 0.3 && inp.sub != "2" then Move(sampled, HawkinsTown) else Stay(sampled)
    case UseCompass =>
      if inp.sub == "1" then Move(r, HawkinsLab)
      else if inp.sub == "2" then Stay(r.AdjustMemorySync(7))
      else Move(r, HawkinsTown)
  }

  /** What the consequences offered in the Byers house do. */
  function ByersHouseEffect(a: Action, r: PlayerRecord, inp: Inputs): (o: Outcome)
    requires OfferedInByersHouse(a)
    ensures !o.exits
    ensures o.record.fractureKeyCharges == r.fractureKeyCharges
    ensures o.record.keyFragments == r.keyFragments
    ensures o.record.visitedUniverses == r.visitedUniverses
    ensures o.moveTo.Some? ==> o.moveTo.value in Scenes
    ensures a == OfferHelp ==> o == Stay(r.AdjustMorality(15).AdjustReputation(Key, 25))
  {
    match a
    case SpeakWithJoyce =>
      Stay(if inp.sub == "1" then
             (if JacketScrap in r.inventory then r.AdjustReputation(Key, 20) else r)
           else if inp.sub == "2" then r.AdjustReputation(Key, 15)
           else r.AdjustReputation(Key, 5))
    case ExamineLights =>
      Stay(if inp.sub == "1" then r
           else if inp.sub == "2" then r.AdjustMemorySync(4)
           else r.AdjustReputation(Key, 15))
    case ExamineDrawings => Stay(if inp.roll < 0.5 then r.AdjustMemorySync(6) else r)
    case OfferHelp => Stay(r.AdjustMorality(15).AdjustReputation(Key, 25))
  }


  /** No consequence takes morality or memory sync out of [0, 100]. */
  lemma EffectKeepsStatsInRange(a: Action, r: PlayerRecord, inp: Inputs)
    requires r.StatsInRange()
    ensures Effect(a, r, inp).record.StatsInRange()
  {
    match a
    case _ =>
  }

  /** The player is on the exit choice: outside the awakening scene, the last number offered. */
  predicate ExitChosen(scene: string, r: PlayerRecord, choiceId: int) {
    scene != Awakening && choiceId == |GetChoices(scene, r)|
  }

  /**
   * `handle_choice`: look the number up among the current choices; an unknown
   * number changes nothing and returns the current scene; otherwise run the
   * consequence and return its result. No choice here awards the fragment.
   */
  function Respond(s: SceneState, r: PlayerRecord, choiceId: int, inp: Inputs): (t: Reply)
    ensures Lookup(GetChoices(s.current, r), choiceId).None? ==> t == Reply(s, r, s.current)
    ensures t.record.visitedUniverses == r.visitedUniverses
    ensures t.record.keyFragments == r.keyFragments
    ensures t.scenes.firstVisit.Keys == s.firstVisit.Keys
    ensures s.current in Scenes ==> t.scenes.current in Scenes
  {
    var cs := GetChoices(s.current, r);
    match Lookup(cs, choiceId)
    case None => Reply(s, r, s.current)
    case Some(c) =>
      match c.consequence
      case Text(_) => Reply(s, r, s.current)
      case Transition(a) => Settle(s, Effect(a, r, inp))
  }

  /** No answer to `handle_choice` takes morality or memory sync out of [0, 100]. */
  lemma RespondKeepsStatsInRange(s: SceneState, r: PlayerRecord, choiceId: int, inp: Inputs)
    requires r.StatsInRange()
    ensures Respond(s, r, choiceId, inp).record.StatsInRange()
  {
    var cs := GetChoices(s.current, r);
    if Lookup(cs, choiceId).Some? && Lookup(cs, choiceId).value.consequence.Transition? {
      EffectKeepsStatsInRange(Lookup(cs, choiceId).value.consequence.action, r, inp);
    }
  }

  /** No scene is called "exit", the value `handle_choice` returns to leave. */
  lemma ExitIsNoScene()
    ensures ExitSentinel !in Scenes
  {
    assert forall scene :: scene in Scenes ==> |scene| != |ExitSentinel|;
  }

  /**
   * "exit" comes back exactly when the exit choice is confirmed, whether or not
   * a charge was left: the counter only drops when it was positive. An
   * unconfirmed exit changes nothing; any other answer is the current scene and
   * never lowers the charges, which only the portal's second option raises.
   */
  lemma {:induction false} RespondExit(s: SceneState, r: PlayerRecord, choiceId: int, inp: Inputs)
    requires s.current != ExitSentinel
    ensures var t := Respond(s, r, choiceId, inp);
      && (t.result == ExitSentinel <==> ExitChosen(s.current, r, choiceId) && inp.confirm)
      && (t.result == ExitSentinel ==> t.record == r.UseFractureKeyCharge() && t.scenes == s)
      && (ExitChosen(s.current, r, choiceId) && !inp.confirm ==> t == Reply(s, r, s.current))
      && (t.result != ExitSentinel ==>
            t.result == t.scenes.current && t.record.fractureKeyCharges >= r.fractureKeyCharges)
  {
    ExitIsNoScene();
    var cs := GetChoices(s.current, r);
    LookupNumbered(cs, choiceId);
    if 1 <= choiceId <= |cs| {
      var c := cs[choiceId - 1];
      assert Lookup(cs, choiceId) == Some(c);
      if c.consequence.Transition? {
        var o := Effect(c.consequence.action, r, inp);
        assert Respond(s, r, choiceId, inp) == Settle(s, o);
        if ExitChosen(s.current, r, choiceId) {
          assert c.consequence.action == ExitUniverse;
        } else {
          assert c.consequence.action != ExitUniverse;
          assert !o.exits;
          assert o.moveTo.Some? ==> o.moveTo.value in Scenes;
        }
      }
    }
  }

  /** The charge counter never goes below zero through `handle_choice`. */
  lemma RespondKeepsChargesNonNegative(s: SceneState, r: PlayerRecord, choiceId: int, inp: Inputs)
    requires s.current != ExitSentinel && r.fractureKeyCharges >= 0
    ensures Respond(s, r, choiceId, inp).record.fractureKeyCharges >= 0
  {
    RespondExit(s, r, choiceId, inp);
  }

  /** What `on_entry` does to the player: the common bookkeeping, then the answer to its opening question. */
  function EntryEffect(r: PlayerRecord, reaction: string): (e: PlayerRecord)
    ensures e.visitedUniverses == r.visitedUniverses + {Key}
    ensures e.ReputationOf(Key) == r.ReputationOf(Key)
    ensures Key in e.reputation
    ensures e.keyFragments == r.keyFragments && e.fractureKeyCharges == r.fractureKeyCharges
    ensures r.StatsInRange() ==> e.StatsInRange()
  {
    var entered := MarkEntered(r, Key);
    if reaction == "1" then entered.AdjustMemorySync(5)
    else if reaction == "2" then entered.AddItem(LabBadge)
    else entered.AdjustMorality(-5)
  }

  /** The universe object: its scene pointer and scene registry change as the player moves. */
  class StrangerThingsUniverse {
    var currentScene: string
    var firstVisit: map<string, bool>

    function Scenery(): SceneState
      reads this
    {
      SceneState(currentScene, firstVisit)
    }

    constructor ()
      ensures Scenery() == FreshScenes(Scenes)
    {
      currentScene := Awakening;
      firstVisit := map k | k in Scenes :: true;
    }

    /** `_show_scene_description`: showing a registered scene clears its first-visit flag. */
    method ShowSceneDescription(sceneId: string)
      modifies this
      ensures firstVisit == MarkVisited(old(firstVisit), sceneId)
      ensures currentScene == old(currentScene)
    {
      if sceneId in firstVisit && firstVisit[sceneId] {
        firstVisit := firstVisit[sceneId := false];
      }
    }

    /** `_change_scene`. */
    method ChangeScene(newScene: string) returns (scene: string)
      modifies this
      ensures Scenery() == old(Scenery()).Enter(newScene)
      ensures scene == newScene
    {
      currentScene := newScene;
      ShowSceneDescription(newScene);
      scene := newScene;
    }

    /**
     * `on_entry`: records the visit, creates the reputation entry if absent,
     * shows the awakening scene and applies the answer to the opening question.
     * The current scene is left where the last visit ended.
     */
    method OnEntry(state: PlayerState, reaction: string)
      modifies this, state
      ensures state.Value() == EntryEffect(old(state.Value()), reaction)
      ensures Scenery() == SceneState(old(currentScene), MarkVisited(old(firstVisit), Awakening))
    {
      state.visitedUniverses := state.visitedUniverses + {Key};
      if Key !in state.reputation {
        state.reputation := state.reputation[Key := 0];
      }
      ShowSceneDescription(Awakening);
      if reaction == "1" {
        state.AdjustMemorySync(5);
      } else if reaction == "2" {
        state.AddItem(LabBadge);
      } else {
        state.AdjustMorality(-5);
      }
    }

    /**
     * `on_exit`: the fragment is added if absent (so it is held exactly once
     * however often this runs), and the narration tier follows the reputation.
     */
    method OnExit(state: PlayerState) returns (tier: ExitTier)
      modifies state
      ensures state.Value() == old(state.Value()).AddKeyFragment(Key)
      ensures tier == ExitTierOf(state.Value().ReputationOf(Key))
    {
      if Key !in state.keyFragments {
        state.AddKeyFragment(Key);
      }
      tier := ExitTierOf(state.Value().ReputationOf(Key));
    }

    /** Runs one consequence on the player and this universe. */
    method Perform(a: Action, state: PlayerState, inp: Inputs) returns (result: string)
      modifies this, state
      ensures Reply(Scenery(), state.Value(), result) == Settle(old(Scenery()), Effect(a, old(state.Value()), inp))
    {
      if OfferedInAwakening(a) {
        result := PerformInAwakening(a, state, inp);
      } else if OfferedInHawkinsTown(a) {
        result := PerformInHawkinsTown(a, state, inp);
      } else if OfferedInHawkinsLab(a) {
        result := PerformInHawkinsLab(a, state, inp);
      } else if OfferedInUpsideDown(a) {
        result := PerformInUpsideDown(a, state, inp);
      } else if OfferedInByersHouse(a) {
        result := PerformInByersHouse(a, state, inp);
      } else {
        // the exit choice
        if inp.confirm {
          var _ := state.UseFractureKeyCharge();
          result := ExitSentinel;
        } else {
          result := currentScene;
        }
      }
    }

    /** The consequences of the choices offered in the awakening scene. */
    method PerformInAwakening(a: Action, state: PlayerState, inp: Inputs) returns (result: string)
      requires OfferedInAwakening(a)
      modifies this, state
      ensures Reply(Scenery(), state.Value(), result) == Settle(old(Scenery()), AwakeningEffect(a, old(state.Value()), inp))
    {
      match a
      case GoToHawkinsTown =>
        result := ChangeScene(HawkinsTown);
      case GoToHawkinsLab =>
        result := ChangeScene(HawkinsLab);
      case FollowTracks =>
        if inp.sub == "1" {
          result := ChangeScene(HawkinsTown);
        } else if inp.sub == "2" {
          if inp.roll < 0.3 {
            state.AdjustMemorySync(7);
            result := ChangeScene(UpsideDown);
          } else {
            state.AdjustReputation(Key, 5);
            result := ChangeScene(HawkinsTown);
          }
        } else {
          state.AddItem(Compass);
          result := ChangeScene(HawkinsTown);
        }
    }

    /** The consequences of the choices offered in the HawkinsTown scene. */
    method PerformInHawkinsTown(a: Action, state: PlayerState, inp: Inputs) returns (result: string)
      requires OfferedInHawkinsTown(a)
      modifies this, state
      ensures Reply(Scenery(), state.Value(), result) == Settle(old(Scenery()), HawkinsTownEffect(a, old(state.Value()), inp))
    {
      match a
      case VisitPoliceStation =>
        if inp.sub == "1" {
          if inp.response == "1" {
            state.AdjustReputation(Key, 10);
          } else if inp.response == "2" {
          } else {
            state.AdjustReputation(Key, 15);
          }
        } else if inp.sub == "2" {
          state.AddItem(JoycesAddress);
        } else if inp.roll < 0.4 {
          state.AdjustMemorySync(3);
        }
        result := currentScene;
      case VisitArcade =>
        if inp.sub == "1" {
          if inp.response == "1" {
          } else if inp.response == "2" {
            state.AdjustReputation(Key, 10);
          } else {
            state.AdjustReputation(Key, -5);
          }
        } else if inp.sub == "2" {
          state.AddItem(KidsMap);
        } else {
          state.AdjustMorality(-10);
          state.AdjustReputation(Key, 5);
        }
        result := currentScene;
      case ReadNewspaper =>
        if inp.roll < 0.3 {
          state.AdjustMemorySync(3);
        }
        result := currentScene;
      case GoToByersHouse =>
        result := ChangeScene(ByersHouse);
    }

    /** The consequences of the choices offered in the HawkinsLab scene. */
    method PerformInHawkinsLab(a: Action, state: PlayerState, inp: Inputs) returns (result: string)
      requires OfferedInHawkinsLab(a)
      modifies this, state
      ensures Reply(Scenery(), state.Value(), result) == Settle(old(Scenery()), HawkinsLabEffect(a, old(state.Value()), inp))
    {
      match a
      case EnterLab =>
        if LabBadge in state.inventory {
          var successChance := 0.3 + (state.Value().ReputationOf(Key) as real) / 200.0;
          if inp.roll < successChance {
            state.AdjustReputation(Key, 15);
            state.AdjustMemorySync(5);
          } else {
            state.AdjustReputation(Key, -5);
          }
        }
        result := currentScene;
      case MonitorLab =>
        if inp.roll < 0.4 {
          state.AddItem(LabKeycard);
        }
        result := currentScene;
      case InvestigatePerimeter =>
        result := currentScene;
        if inp.sub == "1" {
          if inp.roll < 0.4 {
            state.AdjustMemorySync(8);
            result := ChangeScene(UpsideDown);
          } else {
            state.AdjustReputation(Key, 10);
          }
        } else if inp.sub == "2" {
          state.AddItem(SoilSample);
        }
      case UseLabBadge =>
        if inp.sub == "1" {
          state.AdjustReputation(Key, 10);
        } else if inp.sub == "2" {
          if inp.roll < 0.3 {
            state.AdjustReputation(Key, -10);
          } else {
            state.AdjustReputation(Key, 15);
            state.AdjustMemorySync(6);
          }
        } else {
          state.AdjustMorality(5);
          state.AdjustReputation(Key, 10);
        }
        result := currentScene;
    }

    /** The consequences of the choices offered in the UpsideDown scene. */
    method PerformInUpsideDown(a: Action, state: PlayerState, inp: Inputs) returns (result: string)
      requires OfferedInUpsideDown(a)
      modifies this, state
      ensures Reply(Scenery(), state.Value(), result) == Settle(old(Scenery()), UpsideDownEffect(a, old(state.Value()), inp))
    {
      match a
      case FindExitPortal =>
        if inp.sub == "1" {
          state.AdjustMemorySync(10);
          result := ChangeScene(HawkinsTown);
        } else if inp.sub == "2" {
          state.fractureKeyCharges := state.fractureKeyCharges + 1;
          result := ChangeScene(HawkinsLab);
        } else {
          state.AdjustReputation(Key, 15);
          result := ChangeScene(HawkinsTown);
        }
      case SearchForPeople =>
        if inp.sub == "1" {
          state.AddItem(JacketScrap);
          state.AdjustMorality(10);
          result := currentScene;
        } else if inp.sub == "2" {
          state.AdjustMorality(5);
          result := currentScene;
        } else {
          result := ChangeScene(HawkinsTown);
        }
      case CollectSample =>
        state.AddItem(Fungus);
        result := currentScene;
        if inp.roll < 0.3 {
          if inp.sub == "1" {
            result := ChangeScene(HawkinsTown);
          } else if inp.sub == "2" {
          } else {
            result := ChangeScene(HawkinsTown);
          }
        }
      case UseCompass =>
        if inp.sub == "1" {
          result := ChangeScene(HawkinsLab);
        } else if inp.sub == "2" {
          state.AdjustMemorySync(7);
          result := currentScene;
        } else {
          result := ChangeScene(HawkinsTown);
        }
    }

    /** The consequences of the choices offered in the ByersHouse scene. */
    method PerformInByersHouse(a: Action, state: PlayerState, inp: Inputs) returns (result: string)
      requires OfferedInByersHouse(a)
      modifies this, state
      ensures Reply(Scenery(), state.Value(), result) == Settle(old(Scenery()), ByersHouseEffect(a, old(state.Value()), inp))
    {
      match a
      case SpeakWithJoyce =>
        if inp.sub == "1" {
          if JacketScrap in state.inventory {
            state.AdjustReputation(Key, 20);
          }
        } else if inp.sub == "2" {
          state.AdjustReputation(Key, 15);
        } else {
          state.AdjustReputation(Key, 5);
        }
        result := currentScene;
      case ExamineLights =>
        if inp.sub == "1" {
        } else if inp.sub == "2" {
          state.AdjustMemorySync(4);
        } else {
          state.AdjustReputation(Key, 15);
        }
        result := currentScene;
      case ExamineDrawings =>
        if inp.roll < 0.5 {
          state.AdjustMemorySync(6);
        }
        result := currentScene;
      case OfferHelp =>
        state.AdjustMorality(15);
        state.AdjustReputation(Key, 25);
        result := currentScene;
    }

    /** `handle_choice`: the search over the recomputed choices, then the consequence. */
    method HandleChoice(choiceId: int, state: PlayerState, inp: Inputs) returns (next: string)
      modifies this, state
      ensures Reply(Scenery(), state.Value(), next) == Respond(old(Scenery()), old(state.Value()), choiceId, inp)
    {
      var chosen := FindChoice(GetChoices(currentScene, state.Value()), choiceId);
      if chosen.None? {
        return currentScene;
      }
      match chosen.value.consequence
      case Text(_) =>
        next := currentScene;
      case Transition(a) =>
        next := Perform(a, state, inp);
    }
  }

  /**
   * Scenario: with no charge left, the portal's second option in the Upside
   * Down recharges the key to 1 and leads to the lab.
   */
  lemma PortalRecharge(s: SceneState, r: PlayerRecord, inp: Inputs)
    requires s.current == UpsideDown && r.fractureKeyCharges == 0 && inp.sub == "2"
    ensures var t := Respond(s, r, 1, inp);
      t.record.fractureKeyCharges == 1 && t.scenes.current == HawkinsLab && t.result == HawkinsLab
  {
    var cs := GetChoices(s.current, r);
    LookupNumbered(cs, 1);
    assert cs[0].consequence == Transition(FindExitPortal);
  }
}
