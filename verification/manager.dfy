/**
 * The universe registry (core.py `UniverseManager`) and the dispatch from a
 * registered universe to its own module. Each universe is registered under
 * an id derived from its class name, which is not the key the universe
 * itself records progress under (except for the MCU).
 */
module Manager {
  import opened Wrappers
  import opened Text
  import opened Player
  import opened Universe
  import PeakyBlinders
  import Mcu
  import StrangerThings

  /** The three universe classes of the game. */
  datatype UniverseKind = PeakyBlindersKind | McuKind | StrangerThingsKind

  /** `universe_class.__name__`. */
  function ClassName(k: UniverseKind): string {
    match k
    case PeakyBlindersKind => "PeakyBlindersUniverse"
    case McuKind => "MCUUniverse"
    case StrangerThingsKind => "StrangerThingsUniverse"
  }

  /** The key under which the universe records visits, reputation and its fragment. */
  function KeyOf(k: UniverseKind): string {
    match k
    case PeakyBlindersKind => PeakyBlinders.Key
    case McuKind => Mcu.Key
    case StrangerThingsKind => StrangerThings.Key
  }

  /** `register_universe`'s id: the class name lower-cased with every "universe" removed. */
  function UniverseId(className: string): (id: string)
    ensures |id| <= |className|
  {
    ReplaceAll(Lower(className), "universe", "")
  }

  /** The ids the three classes are registered under. */
  lemma {:induction false} RegisteredIds()
    ensures UniverseId(ClassName(PeakyBlindersKind)) == "peakyblinders"
    ensures UniverseId(ClassName(McuKind)) == "mcu"
    ensures UniverseId(ClassName(StrangerThingsKind)) == "strangerthings"
  {
    PeakyBlindersId();
    McuId();
    StrangerThingsId();
  }

  lemma PeakyBlindersId()
    ensures UniverseId("PeakyBlindersUniverse") == "peakyblinders"
  {
    SplitClassName("PeakyBlinders", "PeakyBlindersUniverse");
    LowerWithSuffix("PeakyBlinders", "peakyblinders");
    ReplaceAllSkips("peakyblinders", "universe", "universe", "");
    SuffixRemoved();
  }

  lemma McuId()
    ensures UniverseId("MCUUniverse") == "mcu"
  {
    SplitClassName("MCU", "MCUUniverse");
    LowerWithSuffix("MCU", "mcu");
    assert "mcu" + "universe" == "mc" + ("u" + "universe");
    ReplaceAllSkips("mc", "u" + "universe", "universe", "");
    UPrefixKept();
    SuffixRemoved();
  }

  lemma StrangerThingsId()
    ensures UniverseId("StrangerThingsUniverse") == "strangerthings"
  {
    SplitClassName("StrangerThings", "StrangerThingsUniverse");
    LowerWithSuffix("StrangerThings", "strangerthings");
    ReplaceAllSkips("strangerthings", "universe", "universe", "");
    SuffixRemoved();
  }

  /** A class name is its stem followed by "Universe". */
  lemma SplitClassName(stem: string, className: string)
    requires |className| == |stem| + 8
    requires className[..|stem|] == stem && className[|stem|..] == "Universe"
    ensures className == stem + "Universe"
  {
  }

  /** "uuniverse" keeps its first letter and loses the rest. */
  lemma UPrefixKept()
    ensures ReplaceAll("u" + "universe", "universe", "") == "u" + ReplaceAll("universe", "universe", "")
  {
    var s := "u" + "universe";
    assert s[..8] != "universe" by { assert s[1] != "universe"[1]; }
    assert s[1..] == "universe";
  }

  /** Lower-casing a class name `<stem>Universe`. */
  lemma LowerWithSuffix(stem: string, lowered: string)
    requires Lower(stem) == lowered
    ensures Lower(stem + "Universe") == lowered + "universe"
  {
    LowerAppend(stem, "Universe");
    assert Lower("Universe") == "universe";
  }

  /** Removing "universe" from "universe" leaves nothing. */
  lemma SuffixRemoved()
    ensures ReplaceAll("universe", "universe", "") == ""
  {
    assert "universe"[..8] == "universe";
    assert "universe"[8..] == "";
  }

  /** The id each class is registered under, as `RegisteredIds` computes it. */
  function RegistryId(k: UniverseKind): string {
    match k
    case PeakyBlindersKind => "peakyblinders"
    case McuKind => "mcu"
    case StrangerThingsKind => "strangerthings"
  }

  /** `RegistryId` is the id `register_universe` derives from the class name. */
  lemma RegistryIdIsDerived(k: UniverseKind)
    ensures RegistryId(k) == UniverseId(ClassName(k))
  {
    RegisteredIds();
  }

  /**
   * Only the MCU's registry id is the key it records its fragment under, and
   * no registry id is another universe's fragment key.
   */
  lemma {:induction false} IdsAgainstKeys()
    ensures UniverseId(ClassName(McuKind)) == KeyOf(McuKind)
    ensures UniverseId(ClassName(PeakyBlindersKind)) != KeyOf(PeakyBlindersKind)
    ensures UniverseId(ClassName(StrangerThingsKind)) != KeyOf(StrangerThingsKind)
    ensures forall k, j :: RegistryId(k) == KeyOf(j) <==> k == McuKind && j == McuKind
  {
    RegisteredIds();
    forall k, j
      ensures RegistryId(k) == KeyOf(j) <==> k == McuKind && j == McuKind
    {
      if k == StrangerThingsKind && j == PeakyBlindersKind {
        assert RegistryId(k)[0] != KeyOf(j)[0];
      }
    }
  }

  /** A registered universe object, whichever class it is. */
  datatype UniverseRef =
    | PeakyRef(peaky: PeakyBlinders.PeakyBlindersUniverse)
    | McuRef(mcu: Mcu.McuUniverse)
    | StrangerRef(stranger: StrangerThings.StrangerThingsUniverse)
  {
    function Kind(): UniverseKind {
      match this
      case PeakyRef(_) => PeakyBlindersKind
      case McuRef(_) => McuKind
      case StrangerRef(_) => StrangerThingsKind
    }

    function Key(): string {
      KeyOf(Kind())
    }

    function Obj(): object {
      match this
      case PeakyRef(p) => p
      case McuRef(m) => m
      case StrangerRef(s) => s
    }

    /** The universe's scene pointer and first-visit flags. */
    function Scenery(): SceneState
      reads Obj()
    {
      match this
      case PeakyRef(p) => p.Scenery()
      case McuRef(m) => m.Scenery()
      case StrangerRef(s) => s.Scenery()
    }
  }

  /** Two references to one object are the same reference: the object's class fixes the case. */
  lemma SameObjectSameRef(a: UniverseRef, b: UniverseRef)
    requires a.Obj() == b.Obj()
    ensures a == b
  {
  }

  /** The scene registry of a class. */
  function ScenesOf(k: UniverseKind): set<string> {
    match k
    case PeakyBlindersKind => PeakyBlinders.Scenes
    case McuKind => Mcu.Scenes
    case StrangerThingsKind => StrangerThings.Scenes
  }

  /** `on_entry`'s effect on the player, by class. */
  function EntryEffectOf(k: UniverseKind, r: PlayerRecord, reaction: string): (e: PlayerRecord)
    ensures e.visitedUniverses == r.visitedUniverses + {KeyOf(k)}
    ensures e.keyFragments == r.keyFragments && e.fractureKeyCharges == r.fractureKeyCharges
    ensures e.ReputationOf(KeyOf(k)) == r.ReputationOf(KeyOf(k))
  {
    match k
    case PeakyBlindersKind => PeakyBlinders.EntryEffect(r, reaction)
    case McuKind => Mcu.EntryEffect(r, reaction)
    case StrangerThingsKind => StrangerThings.EntryEffect(r, reaction)
  }

  /** `handle_choice`, by class. */
  function RespondOf(k: UniverseKind, s: SceneState, r: PlayerRecord, choiceId: int, inp: Inputs): (t: Reply)
    ensures t.record.visitedUniverses == r.visitedUniverses
    ensures r.keyFragments <= t.record.keyFragments <= r.keyFragments + {KeyOf(k)}
    ensures t.scenes.firstVisit.Keys == s.firstVisit.Keys
  {
    match k
    case PeakyBlindersKind => PeakyBlinders.Respond(s, r, choiceId, inp)
    case McuKind => Mcu.Respond(s, r, choiceId, inp)
    case StrangerThingsKind => StrangerThings.Respond(s, r, choiceId, inp)
  }

  /** `on_entry` on whichever universe `u` is. */
  method OnEntry(u: UniverseRef, state: PlayerState, reaction: string)
    modifies u.Obj(), state
    ensures state.Value() == EntryEffectOf(u.Kind(), old(state.Value()), reaction)
    ensures u.Scenery() == SceneState(old(u.Scenery()).current, MarkVisited(old(u.Scenery()).firstVisit, InitialScene))
  {
    match u
    case PeakyRef(p) => p.OnEntry(state, reaction);
    case McuRef(m) => m.OnEntry(state, reaction);
    case StrangerRef(s) => s.OnEntry(state, reaction);
  }

  /** `handle_choice` on whichever universe `u` is. */
  method HandleChoice(u: UniverseRef, choiceId: int, state: PlayerState, inp: Inputs) returns (next: string)
    modifies u.Obj(), state
    ensures Reply(u.Scenery(), state.Value(), next)
         == RespondOf(u.Kind(), old(u.Scenery()), old(state.Value()), choiceId, inp)
  {
    match u
    case PeakyRef(p) => next := p.HandleChoice(choiceId, state, inp);
    case McuRef(m) => next := m.HandleChoice(choiceId, state, inp);
    case StrangerRef(s) => next := s.HandleChoice(choiceId, state, inp);
  }

  /** `on_exit` on whichever universe `u` is: its fragment is held afterwards, once. */
  method OnExit(u: UniverseRef, state: PlayerState) returns (tier: ExitTier)
    modifies state
    ensures state.Value() == old(state.Value()).AddKeyFragment(u.Key())
    ensures tier == ExitTierOf(state.Value().ReputationOf(u.Key()))
  {
    match u
    case PeakyRef(p) => tier := p.OnExit(state);
    case McuRef(m) => tier := m.OnExit(state);
    case StrangerRef(s) => tier := s.OnExit(state);
  }

  /** The registry's contents: ids in registration order and the object under each. */
  datatype Registry = Registry(order: seq<string>, universes: map<string, UniverseRef>)
  {
    /** `order` lists the dictionary's keys once each: Python's insertion order. */
    predicate Valid() {
      Enumerates(order, universes.Keys)
    }

    /**
     * `self.universes[universe_id] = universe`: a new id goes to the end of the
     * order; re-registering an id replaces its object in place.
     */
    function Register(id: string, u: UniverseRef): (g: Registry)
      ensures Valid() ==> g.Valid()
      ensures g.Get(id) == Some(u)
      ensures forall other :: other != id ==> g.Get(other) == Get(other)
      ensures |g.order| == |order| + (if id in universes then 0 else 1)
    {
      Registry(if id in universes then order else order + [id], universes[id := u])
    }

    /** `get_universe`: `None` for an unknown id. */
    function Get(id: string): (r: Option<UniverseRef>)
      ensures r.None? <==> id !in universes
    {
      if id in universes then Some(universes[id]) else None
    }

    /**
     * `get_available_universes`: exactly the registered entries whose id is not
     * among the collected fragments, in registration order.
     */
    function Available(fragments: set<string>): (g: Registry)
      ensures forall id :: id in g.universes <==> id in universes && id !in fragments
      ensures forall id :: id in g.universes ==> g.universes[id] == universes[id]
      ensures g.order == FilterOut(order, fragments)
      ensures Valid() ==> g.Valid()
    {
      var kept := map id | id in universes && id !in fragments :: universes[id];
      var ys := FilterOut(order, fragments);
      assert forall id :: id in kept.Keys <==> id in universes && id !in fragments;
      assert Valid() ==> forall x :: x in order ==> x in universes;
      assert Valid() ==> forall i :: 0 <= i < |ys| ==> ys[i] in ys && ys[i] in kept;
      Registry(ys, kept)
    }
  }

  /** core.py `UniverseManager`. */
  class UniverseManager {
    var order: seq<string>
    var universes: map<string, UniverseRef>

    function Value(): Registry
      reads this
    {
      Registry(order, universes)
    }

    /** The universe objects the manager holds. */
    function Objects(): set<object>
      reads this
    {
      set id | id in universes :: universes[id].Obj()
    }

    /** Where each registered universe stands: its scene pointer and first-visit flags, by id. */
    function Sceneries(): (w: map<string, SceneState>)
      reads this, Objects()
      ensures w.Keys == universes.Keys
    {
      map id | id in universes :: universes[id].Scenery()
    }

    constructor ()
      ensures Value() == Registry([], map[])
      ensures Value().Valid()
    {
      order, universes := [], map[];
    }

    /**
     * `register_universe`: a fresh object of the class, stored under the id
     * its class name gives.
     */
    method RegisterUniverse(kind: UniverseKind) returns (u: UniverseRef)
      modifies this
      ensures fresh(u.Obj()) && u.Kind() == kind
      ensures u.Scenery() == FreshScenes(ScenesOf(kind))
      ensures Value() == old(Value()).Register(RegistryId(kind), u)
    {
      match kind {
        case PeakyBlindersKind =>
          var p := new PeakyBlinders.PeakyBlindersUniverse();
          u := PeakyRef(p);
        case McuKind =>
          var m := new Mcu.McuUniverse();
          u := McuRef(m);
        case StrangerThingsKind =>
          var s := new StrangerThings.StrangerThingsUniverse();
          u := StrangerRef(s);
      }
      var id := UniverseId(ClassName(kind));
      RegistryIdIsDerived(kind);
      if id !in universes {
        order := order + [id];
      }
      universes := universes[id := u];
    }

    /** `get_universe`. */
    function GetUniverse(id: string): (r: Option<UniverseRef>)
      reads this
      ensures r == Value().Get(id)
      ensures r.Some? ==> r.value.Obj() in Objects()
    {
      if id in universes then Some(universes[id]) else None
    }

    /** `get_available_universes`. */
    function GetAvailableUniverses(fragments: set<string>): (g: Registry)
      reads this
      ensures forall id :: id in g.universes <==> id in universes && id !in fragments
      ensures forall id :: id in g.universes ==> g.universes[id] == universes[id]
      ensures g.order == FilterOut(order, fragments)
      ensures forall id :: id in g.order <==> id in order && id !in fragments
      ensures |g.order| <= |order|
    {
      Value().Available(fragments)
    }
  }
}
