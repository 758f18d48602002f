/**
 * The orchestrator (main.py): the registry set-up, the load menu, the hub
 * between universes, a visit to one universe with its autosave checkpoints,
 * the end-of-game arbitration and the session loop that ties them together.
 *
 * What the player types is given in advance: the hub turns of a session and,
 * for each visit, its turns. Each autosave takes its clock readings from the
 * turn it happens in.
 */
module Game {
  import opened Wrappers
  import opened Player
  import opened Universe
  import opened Manager
  import opened SaveManager

  /** What the hub returns when the player has no charge left. */
  const NoCharges := "no_charges"

  /** What the hub returns when the player confirms leaving for the main menu. */
  const ExitToMenu := "exit_to_menu"

  /** The chance below which a choice is followed by an autosave. */
  const AutosaveChance: real := 0.2

  /** The endings `check_game_end_conditions` reports. */
  datatype Ending = KeyFragmentsEnding | ChargesEnding | MemorySyncEnding

  /**
   * `check_game_end_conditions`: all fragments first, then no charges, then
   * full memory sync; the first that holds decides.
   */
  function CheckGameEndConditions(r: PlayerRecord, universeCount: nat): (e: Option<Ending>)
    ensures e == Some(KeyFragmentsEnding) <==> |r.keyFragments| >= universeCount
    ensures e == Some(ChargesEnding) <==> |r.keyFragments| < universeCount && r.fractureKeyCharges <= 0
    ensures e == Some(MemorySyncEnding) <==>
      |r.keyFragments| < universeCount && r.fractureKeyCharges > 0 && r.memorySync >= 100
  {
    if |r.keyFragments| >= universeCount then Some(KeyFragmentsEnding)
    else if r.fractureKeyCharges <= 0 then Some(ChargesEnding)
    else if r.memorySync >= 100 then Some(MemorySyncEnding)
    else None
  }

  /** The game goes on exactly when a fragment is missing, a charge is left and memory sync is below 100. */
  lemma NoEndingMeansPlayable(r: PlayerRecord, universeCount: nat)
    ensures CheckGameEndConditions(r, universeCount).None? <==>
      |r.keyFragments| < universeCount && r.fractureKeyCharges > 0 && r.memorySync < 100
  {
  }

  /**
   * The fragments the three universes award count as all of them, although
   * they are not the registry's ids; collecting them with no charge left
   * still ends the game on the fragments.
   */
  lemma AllFragmentsEndTheGame(r: PlayerRecord)
    requires r.keyFragments == {PeakyBlinders.Key, Mcu.Key, StrangerThings.Key}
    ensures CheckGameEndConditions(r, 3) == Some(KeyFragmentsEnding)
  {
    assert PeakyBlinders.Key != Mcu.Key && PeakyBlinders.Key != StrangerThings.Key && Mcu.Key != StrangerThings.Key;
  }

  /** `initialize_game`: the three universes registered in the order Peaky Blinders, MCU, Stranger Things. */
  method InitializeGame() returns (manager: UniverseManager)
    ensures fresh(manager) && fresh(manager.Objects())
    ensures manager.Value().Valid()
    ensures manager.order == ["peakyblinders", "mcu", "strangerthings"]
    ensures manager.universes.Keys == {"peakyblinders", "mcu", "strangerthings"}
    ensures manager.universes["peakyblinders"].Kind() == PeakyBlindersKind
    ensures manager.universes["mcu"].Kind() == McuKind
    ensures manager.universes["strangerthings"].Kind() == StrangerThingsKind
    ensures manager.universes["peakyblinders"].Scenery() == FreshScenes(PeakyBlinders.Scenes)
    ensures manager.universes["mcu"].Scenery() == FreshScenes(Mcu.Scenes)
    ensures manager.universes["strangerthings"].Scenery() == FreshScenes(StrangerThings.Scenes)
  {
    manager := new UniverseManager();
    var p := manager.RegisterUniverse(PeakyBlindersKind);
    ObjIsNotManager(p, manager);
    ghost var peakyScenes := p.Scenery();
    assert peakyScenes == FreshScenes(PeakyBlinders.Scenes);
    var m := manager.RegisterUniverse(McuKind);
    assert p.Scenery() == peakyScenes;
    ObjIsNotManager(m, manager);
    ghost var mcuScenes := m.Scenery();
    assert mcuScenes == FreshScenes(Mcu.Scenes);
    var s := manager.RegisterUniverse(StrangerThingsKind);
    assert p.Scenery() == peakyScenes && m.Scenery() == mcuScenes;
    RegisterThree("peakyblinders", "mcu", "strangerthings", p, m, s);
    assert manager.Value() == Registry(["peakyblinders", "mcu", "strangerthings"],
                                       map["peakyblinders" := p, "mcu" := m, "strangerthings" := s]);
    ThreeEnumerated("peakyblinders", "mcu", "strangerthings", manager.universes);
    ThreeObjects("peakyblinders", "mcu", "strangerthings", p, m, s, manager.universes);
  }

  /** The objects of a three-entry registry are the three entries' objects. */
  lemma ThreeObjects(a: string, b: string, c: string, p: UniverseRef, m: UniverseRef, s: UniverseRef,
                     universes: map<string, UniverseRef>)
    requires universes == map[a := p, b := m, c := s]
    requires a != b && a != c && b != c
    ensures (set id | id in universes :: universes[id].Obj()) == {p.Obj(), m.Obj(), s.Obj()}
  {
    var objs := set id | id in universes :: universes[id].Obj();
    assert universes[a] == p && universes[b] == m && universes[c] == s;
    assert forall o :: o in objs ==> o in {p.Obj(), m.Obj(), s.Obj()};
  }

  lemma ThreeEnumerated(a: string, b: string, c: string, universes: map<string, UniverseRef>)
    requires a != b && a != c && b != c
    requires universes.Keys == {a, b, c}
    ensures Enumerates([a, b, c], universes.Keys)
  {
    var xs := [a, b, c];
    assert forall i, j :: 0 <= i < j < 3 ==> xs[i] != xs[j];
  }

  /** Registering three distinct ids on an empty registry lists them in registration order. */
  lemma RegisterThree(a: string, b: string, c: string, p: UniverseRef, m: UniverseRef, s: UniverseRef)
    requires a != b && a != c && b != c
    ensures Registry([], map[]).Register(a, p).Register(b, m).Register(c, s)
      == Registry([a, b, c], map[a := p, b := m, c := s])
  {
    var r2 := Registry([], map[]).Register(a, p).Register(b, m);
    RegisterTwo(a, b, p, m);
    assert r2.order == [a, b];
    RegisterNew(r2, c, s);
    assert r2.order + [c] == [a, b, c];
  }

  /** The first two of those registrations. */
  lemma RegisterTwo(a: string, b: string, p: UniverseRef, m: UniverseRef)
    requires a != b
    ensures Registry([], map[]).Register(a, p).Register(b, m) == Registry([a, b], map[a := p, b := m])
  {
    var r1 := Registry([], map[]).Register(a, p);
    RegisterNew(Registry([], map[]), a, p);
    assert r1.order == [a];
    RegisterNew(r1, b, m);
    assert r1.order + [b] == [a, b];
  }

  /** Registering an id not yet registered appends it to the order. */
  lemma RegisterNew(reg: Registry, id: string, u: UniverseRef)
    requires id !in reg.universes
    ensures reg.Register(id, u) == Registry(reg.order + [id], reg.universes[id := u])
  {
  }

  /**
   * With every fragment collected, the registry still offers Peaky Blinders
   * and Stranger Things as available and the hub marks only the MCU as
   * completed, because fragments are recorded under keys that are not the
   * registry's ids.
   */
  lemma CompletedUniversesStayAvailable(reg: Registry)
    requires reg.order == ["peakyblinders", "mcu", "strangerthings"]
    requires reg.Valid()
    ensures reg.Available({PeakyBlinders.Key, Mcu.Key, StrangerThings.Key}).order == ["peakyblinders", "strangerthings"]
    ensures "peakyblinders" !in {PeakyBlinders.Key, Mcu.Key, StrangerThings.Key}
    ensures "mcu" in {PeakyBlinders.Key, Mcu.Key, StrangerThings.Key}
  {
    KeysMissPeakyAndStranger();
    FilterOutThree("peakyblinders", "mcu", "strangerthings", {PeakyBlinders.Key, Mcu.Key, StrangerThings.Key});
  }

  /** `Manager.IdsAgainstKeys` for the literal ids the hub lists: only "mcu" is among the fragment keys. */
  lemma KeysMissPeakyAndStranger()
    ensures "peakyblinders" !in {PeakyBlinders.Key, Mcu.Key, StrangerThings.Key}
    ensures "strangerthings" !in {PeakyBlinders.Key, Mcu.Key, StrangerThings.Key}
  {
    Manager.IdsAgainstKeys();
    assert RegistryId(PeakyBlindersKind) != KeyOf(PeakyBlindersKind) && RegistryId(StrangerThingsKind) != KeyOf(PeakyBlindersKind);
    assert RegistryId(PeakyBlindersKind) != KeyOf(McuKind) && RegistryId(StrangerThingsKind) != KeyOf(McuKind);
    assert RegistryId(PeakyBlindersKind) != KeyOf(StrangerThingsKind) && RegistryId(StrangerThingsKind) != KeyOf(StrangerThingsKind);
  }

  /** Filtering a three-element list whose middle element alone is dropped. */
  lemma FilterOutThree(a: string, b: string, c: string, drop: set<string>)
    requires a !in drop && b in drop && c !in drop
    ensures FilterOut([a, b, c], drop) == [a, c]
  {
    assert [a, b, c][1..] == [b, c];
    assert [b, c][1..] == [c];
    assert [c][1..] == [];
  }

  /** What a hub option number selects. */
  datatype HubAction = EnterAction(id: string) | SaveAction | QuickSaveAction | ExitAction

  /**
   * The hub's numbering: 1..n enter the registered universes in registration
   * order, n+1 saves, n+2 quick-saves, n+3 leaves for the main menu.
   */
  function HubActionOf(order: seq<string>, choice: int): (a: HubAction)
    requires 1 <= choice <= |order| + 3
    ensures a.EnterAction? <==> choice <= |order|
  {
    if choice <= |order| then EnterAction(order[choice - 1])
    else if choice == |order| + 1 then SaveAction
    else if choice == |order| + 2 then QuickSaveAction
    else ExitAction
  }

  /** Each registered universe and each extra action has exactly one option number. */
  lemma HubNumbering(order: seq<string>, choice: int)
    requires 1 <= choice <= |order| + 3
    ensures forall i :: 0 <= i < |order| ==> HubActionOf(order, i + 1) == EnterAction(order[i])
    ensures HubActionOf(order, choice) == SaveAction <==> choice == |order| + 1
    ensures HubActionOf(order, choice) == QuickSaveAction <==> choice == |order| + 2
    ensures HubActionOf(order, choice) == ExitAction <==> choice == |order| + 3
  {
  }

  /**
   * One hub turn: the option picked, the answer to the confirmation it asks,
   * the slot typed for a save and the clock readings for any save it makes.
   */
  datatype HubTurn = HubTurn(choice: int, confirm: bool, saveSlot: int, now: real, datetime: string)

  /**
   * What `show_multiverse_hub` returns for the turn `turn` of a player with
   * record `r`: "no_charges" for an entry without a charge left, the
   * universe's id for a confirmed entry, "exit_to_menu" for a confirmed exit,
   * and "" for everything else (a declined entry or exit, a save).
   */
  function HubSelection(order: seq<string>, turn: HubTurn, r: PlayerRecord): string
    requires 1 <= turn.choice <= |order| + 3
  {
    var action := HubActionOf(order, turn.choice);
    if action.EnterAction? then
      if r.fractureKeyCharges <= 0 then NoCharges else if turn.confirm then action.id else ""
    else if action == ExitAction && turn.confirm then ExitToMenu
    else ""
  }

  /**
   * `show_multiverse_hub`. Entering a universe with no charge left returns
   * "no_charges" and saves nothing; a confirmed entry autosaves and returns
   * the universe's id without spending a charge; a declined one returns "".
   * Saving writes the typed slot, quick-saving writes `QuickSaveSlot`, and a
   * confirmed exit autosaves and returns "exit_to_menu". `listing` is the
   * saves directory as `os.listdir` lists it.
   */
  method ShowMultiverseHub(state: PlayerState, manager: UniverseManager, store: SaveStore, turn: HubTurn, listing: seq<string>)
    returns (selected: string)
    requires manager.Value().Valid()
    requires 1 <= turn.choice <= |manager.order| + 3
    requires 1 <= turn.saveSlot <= MaxSaves
    modifies store
    ensures var action := HubActionOf(manager.order, turn.choice);
      && (action.EnterAction? && state.fractureKeyCharges <= 0 ==>
            selected == NoCharges && store.files == old(store.files))
      && (action.EnterAction? && state.fractureKeyCharges > 0 && turn.confirm ==>
            selected == action.id && Wrote(store.files, old(store.files), AutosaveFileName, state.Value(), turn.now, turn.datetime))
      && (action.EnterAction? && state.fractureKeyCharges > 0 && !turn.confirm ==>
            selected == "" && store.files == old(store.files))
      && (action == SaveAction ==>
            selected == "" && Wrote(store.files, old(store.files), "save_" + SlotName(turn.saveSlot) + ".json", state.Value(), turn.now, turn.datetime))
      && (action == QuickSaveAction ==>
            selected == "" && Wrote(store.files, old(store.files), "save_" + QuickSaveSlot(old(store.files), listing) + ".json", state.Value(), turn.now, turn.datetime))
      && (action == ExitAction && turn.confirm ==>
            selected == ExitToMenu && Wrote(store.files, old(store.files), AutosaveFileName, state.Value(), turn.now, turn.datetime))
      && (action == ExitAction && !turn.confirm ==>
            selected == "" && store.files == old(store.files))
    ensures selected == HubSelection(manager.order, turn, state.Value())
  {
    var n := |manager.universes|;
    EnumeratesCard(manager.order, manager.universes.Keys);
    if turn.choice <= n {
      var selectedUniverse := manager.order[turn.choice - 1];
      if state.fractureKeyCharges <= 0 {
        return NoCharges;
      }
      var universe := manager.GetUniverse(selectedUniverse);
      if universe.Some? && turn.confirm {
        var _ := store.Autosave(state, turn.now, turn.datetime);
        return selectedUniverse;
      }
    } else if turn.choice == n + 1 {
      NumberedSaveFileName(turn.saveSlot);
      var _ := store.SaveGame(state, SlotName(turn.saveSlot), turn.now, turn.datetime);
    } else if turn.choice == n + 2 {
      var _ := store.QuickSave(state, listing, turn.now, turn.datetime);
    } else if turn.choice == n + 3 {
      if turn.confirm {
        var _ := store.Autosave(state, turn.now, turn.datetime);
        return ExitToMenu;
      }
    }
    return "";
  }

  /** The numbered slots from `n` to 3 that `show_save_slots` did not report empty, in ascending order. */
  function NonEmptyNumbered(info: map<string, SlotView>, n: int): (slots: seq<int>)
    ensures forall i :: 0 <= i < |slots| ==> n <= slots[i] <= MaxSaves && SlotName(slots[i]) in info && !info[SlotName(slots[i])].EmptySlot?
    ensures forall i, j :: 0 <= i < j < |slots| ==> slots[i] < slots[j]
    ensures forall k :: n <= k <= MaxSaves && SlotName(k) in info && !info[SlotName(k)].EmptySlot? ==> k in slots
    decreases MaxSaves + 1 - n
  {
    if n > MaxSaves then []
    else (if SlotName(n) in info && !info[SlotName(n)].EmptySlot? then [n] else []) + NonEmptyNumbered(info, n + 1)
  }

  /** The autosave slot has a file (it is reported only then, never as empty). */
  predicate HasAutosave(info: map<string, SlotView>) {
    AutosaveSlot in info && !info[AutosaveSlot].EmptySlot?
  }

  /** The largest option the load menu accepts: the autosave's, else the last numbered slot's. */
  function LoadMenuMax(info: map<string, SlotView>): (m: nat)
    ensures m == 0 <==> !HasAutosave(info) && forall k :: 1 <= k <= MaxSaves && SlotName(k) in info ==> info[SlotName(k)].EmptySlot?
  {
    var numericSlots := NonEmptyNumbered(info, 1);
    if HasAutosave(info) then |numericSlots| + 1 else |numericSlots|
  }

  /**
   * The selection mapping of `load_existing_game`: 0 starts a new game
   * (`None`), 1..k pick the k non-empty numbered slots in ascending order (a
   * slot whose file is unreadable counts as non-empty), and k+1 picks the
   * autosave when it has a file.
   */
  function LoadSelection(info: map<string, SlotView>, selection: int): (slot: Option<string>)
    requires 0 <= selection <= LoadMenuMax(info)
    ensures slot.None? <==> selection == 0
    ensures 1 <= selection <= |NonEmptyNumbered(info, 1)| ==> slot == Some(SlotName(NonEmptyNumbered(info, 1)[selection - 1]))
    ensures HasAutosave(info) && selection == |NonEmptyNumbered(info, 1)| + 1 ==> slot == Some(AutosaveSlot)
    ensures slot.Some? ==> slot.value in info && !info[slot.value].EmptySlot?
  {
    var numericSlots := NonEmptyNumbered(info, 1);
    var hasAutosave := HasAutosave(info);
    var autosaveOption := if hasAutosave then |numericSlots| + 1 else 0;
    if selection == 0 then None
    else if hasAutosave && selection == autosaveOption then Some(AutosaveSlot)
    else if 0 <= selection - 1 < |numericSlots| then Some(SlotName(numericSlots[selection - 1]))
    else None
  }

  /**
   * The slot the answer `selection` to the load menu picks: none for a
   * cancel, for an answer out of range and when the menu lists no save.
   */
  function LoadMenuPick(info: map<string, SlotView>, selection: int): (pick: Option<string>)
    ensures pick.None? <==> LoadMenuMax(info) == 0 || selection <= 0 || selection > LoadMenuMax(info)
    ensures pick.Some? ==> pick.value in info && !info[pick.value].EmptySlot?
  {
    if 1 <= LoadMenuMax(info) && 0 <= selection <= LoadMenuMax(info) then LoadSelection(info, selection) else None
  }

  /**
   * `load_existing_game`: `null` (a new game follows) when every slot is
   * empty or the player cancels; otherwise `load_game` of the selected slot.
   */
  method LoadExistingGame(store: SaveStore, listing: seq<string>, selection: int) returns (state: PlayerState?)
    ensures var pick := LoadMenuPick(SlotMenu(store.files, SaveFilesOf(listing)), selection);
      && (pick.None? ==> state == null)
      && (pick.Some? ==> (state == null <==> LoadResult(store.files, listing, pick.value).None?)
                         && (state != null ==> fresh(state) && state.Value() == LoadResult(store.files, listing, pick.value).value))
  {
    var info := store.ShowSaveSlots(listing);
    if LoadMenuMax(info) == 0 || !(0 <= selection <= LoadMenuMax(info)) {
      return null;
    }
    var slot := LoadSelection(info, selection);
    if slot.None? {
      return null;
    }
    state := store.LoadGame(listing, slot.value);
  }

  /** The main menu's ways into a session (options 1 to 3). */
  datatype MenuStart = NewGame | LoadSaved(selection: int) | ContinueLastSave

  /** `start_new_game` followed by the initial autosave. */
  predicate StartedNew(files: map<string, FileContent>, before: map<string, FileContent>, r: PlayerRecord,
                       now: real, datetime: string)
  {
    r == NewPlayer && Wrote(files, before, AutosaveFileName, NewPlayer, now, datetime)
  }

  /**
   * The main menu's options 1 to 3: a new game; a game from the load menu;
   * the latest save. Whenever nothing loads, a new game starts and is
   * autosaved; a game that does load leaves the save files untouched.
   */
  method StartGame(store: SaveStore, listing: seq<string>, start: MenuStart, now: real, datetime: string)
    returns (state: PlayerState)
    modifies store
    ensures fresh(state)
    ensures start.NewGame? ==> StartedNew(store.files, old(store.files), state.Value(), now, datetime)
    ensures start.LoadSaved? ==>
      var pick := LoadMenuPick(SlotMenu(old(store.files), SaveFilesOf(listing)), start.selection);
      if pick.Some? && LoadResult(old(store.files), listing, pick.value).Some? then
        store.files == old(store.files) && state.Value() == LoadResult(old(store.files), listing, pick.value).value
      else
        StartedNew(store.files, old(store.files), state.Value(), now, datetime)
    ensures start.ContinueLastSave? ==>
      && (forall slot :: LatestSave(old(store.files), SaveFilesOf(listing), Some(slot)) && LoadResult(old(store.files), listing, slot).Some? ==>
            store.files == old(store.files) && state.Value() == LoadResult(old(store.files), listing, slot).value)
      && ((forall slot :: LatestSave(old(store.files), SaveFilesOf(listing), Some(slot)) ==> LoadResult(old(store.files), listing, slot).None?) ==>
            StartedNew(store.files, old(store.files), state.Value(), now, datetime))
  {
    ghost var sf := SaveFilesOf(listing);
    var loaded: PlayerState? := null;
    if start.LoadSaved? {
      loaded := LoadExistingGame(store, listing, start.selection);
    } else if start.ContinueLastSave? {
      var latest := store.GetLatestSave(listing);
      if latest.Some? {
        loaded := store.LoadGame(listing, latest.value);
      }
      forall slot | LatestSave(store.files, sf, Some(slot))
        ensures latest == Some(slot)
      {
        LatestSaveUnique(store.files, sf, latest, Some(slot));
      }
    }
    if loaded != null {
      return loaded;
    }
    state := new PlayerState();
    var _ := store.Autosave(state, now, datetime);
  }

  /** One turn inside a universe: the choice, what its consequence reads, the autosave draw and the clock readings. */
  datatype Turn = Turn(choiceId: int, inputs: Inputs, autosaveRoll: real, now: real, datetime: string)

  /** One visit: the answer `on_entry` reads, the clock readings of the entry autosave, and the turns played. */
  datatype Visit = Visit(reaction: string, now: real, datetime: string, turns: seq<Turn>)

  /** An autosave: the record written and the clock readings stamped on it. */
  datatype Checkpoint = Checkpoint(record: PlayerRecord, now: real, datetime: string)

  /** The later of two autosaves, `second` when it happened. */
  function Later(first: Option<Checkpoint>, second: Option<Checkpoint>): Option<Checkpoint> {
    if second.Some? then second else first
  }

  /**
   * Where a run of turns leaves the universe and the player, how many turns
   * it took, whether it ended in "exit", and the last autosave it wrote.
   */
  datatype Run = Run(scenes: SceneState, record: PlayerRecord, played: nat, exited: bool, lastSave: Option<Checkpoint>)

  /** The autosave one turn writes: after "exit" and `on_exit`, else only when its draw is below 0.2. */
  function TurnSave(k: UniverseKind, t: Reply, turn: Turn): Option<Checkpoint> {
    if t.result == ExitSentinel then Some(Checkpoint(t.record.AddKeyFragment(KeyOf(k)), turn.now, turn.datetime))
    else if turn.autosaveRoll < AutosaveChance then Some(Checkpoint(t.record, turn.now, turn.datetime))
    else None
  }

  /**
   * The loop of `enter_universe`: `handle_choice` turn after turn until one
   * returns "exit" or the turns run out.
   */
  function PlayTurns(k: UniverseKind, s: SceneState, r: PlayerRecord, turns: seq<Turn>): (run: Run)
    ensures run.played <= |turns|
    ensures run.exited ==> 1 <= run.played
    ensures !run.exited ==> run.played == |turns|
    ensures run.record.visitedUniverses == r.visitedUniverses
    ensures r.keyFragments <= run.record.keyFragments <= r.keyFragments + {KeyOf(k)}
    decreases |turns|, 2
  {
    if turns == [] then Run(s, r, 0, false, None) else PlayTurn(k, s, r, turns)
  }

  /** One turn of that loop: it counts as played, and its reply decides what follows. */
  function PlayTurn(k: UniverseKind, s: SceneState, r: PlayerRecord, turns: seq<Turn>): (run: Run)
    requires turns != []
    ensures 1 <= run.played <= |turns|
    ensures !run.exited ==> run.played == |turns|
    ensures run.record.visitedUniverses == r.visitedUniverses
    ensures r.keyFragments <= run.record.keyFragments <= r.keyFragments + {KeyOf(k)}
    decreases |turns|, 1
  {
    var after := ReplyThenRest(k, s, r, turns);
    after.(played := after.played + 1)
  }

  /**
   * The reply to the first of `turns` with the autosave it may take, then
   * the rest of the turns unless the reply was "exit"; `played` counts the
   * turns after the first.
   */
  function ReplyThenRest(k: UniverseKind, s: SceneState, r: PlayerRecord, turns: seq<Turn>): (after: Run)
    requires turns != []
    ensures after.played < |turns|
    ensures !after.exited ==> after.played == |turns| - 1
    ensures after.record.visitedUniverses == r.visitedUniverses
    ensures r.keyFragments <= after.record.keyFragments <= r.keyFragments + {KeyOf(k)}
    decreases |turns|, 0
  {
    var t := RespondOf(k, s, r, turns[0].choiceId, turns[0].inputs);
    var saved := TurnSave(k, t, turns[0]);
    if t.result == ExitSentinel then Run(t.scenes, t.record, 0, true, saved)
    else
      var rest := PlayTurns(k, t.scenes, t.record, turns[1..]);
      rest.(lastSave := Later(saved, rest.lastSave))
  }

  /** The record a visit leaves: the run's, with `on_exit`'s fragment when the run exited. */
  function AfterVisit(k: UniverseKind, run: Run): (r: PlayerRecord)
    ensures r.visitedUniverses == run.record.visitedUniverses
    ensures run.exited ==> r.keyFragments == run.record.keyFragments + {KeyOf(k)}
    ensures !run.exited ==> r == run.record
  {
    if run.exited then run.record.AddKeyFragment(KeyOf(k)) else run.record
  }

  /**
   * What a visit does to the player: the universe is marked visited, no
   * fragment but its own is gained, and leaving through "exit" always ends
   * with its fragment held — so the fragment count grows by at most one.
   */
  lemma {:induction false} VisitOutcome(k: UniverseKind, s: SceneState, r: PlayerRecord, reaction: string, turns: seq<Turn>)
    ensures var run := PlayTurns(k, s, EntryEffectOf(k, r, reaction), turns);
      var e := AfterVisit(k, run);
      && e.visitedUniverses == r.visitedUniverses + {KeyOf(k)}
      && r.keyFragments <= e.keyFragments <= r.keyFragments + {KeyOf(k)}
      && (run.exited ==> KeyOf(k) in e.keyFragments)
      && |e.keyFragments| <= |r.keyFragments| + 1
  {
    var run := PlayTurns(k, s, EntryEffectOf(k, r, reaction), turns);
    var e := AfterVisit(k, run);
    assert e.keyFragments <= r.keyFragments + {KeyOf(k)};
    assert |r.keyFragments + {KeyOf(k)}| <= |r.keyFragments| + 1;
    SubsetCard(e.keyFragments, r.keyFragments + {KeyOf(k)});
  }

  lemma SubsetCard(a: set<string>, b: set<string>)
    requires a <= b
    ensures |a| <= |b|
  {
    assert b == a + (b - a);
  }

  /**
   * Peaky Blinders' exit choice already awards the fragment, and `on_exit`
   * awards it again: the second award changes nothing.
   */
  lemma PeakyExitAwardsOnce(s: SceneState, r: PlayerRecord, choiceId: int, inp: Inputs)
    requires s.current != ExitSentinel
    requires RespondOf(PeakyBlindersKind, s, r, choiceId, inp).result == ExitSentinel
    ensures var t := RespondOf(PeakyBlindersKind, s, r, choiceId, inp);
      && PeakyBlinders.Key in t.record.keyFragments
      && t.record.AddKeyFragment(PeakyBlinders.Key) == t.record
  {
    PeakyBlinders.RespondExit(s, r, choiceId, inp);
  }

  /** `files` is `before` with the autosave `saved` written, or `before` itself when there was none. */
  predicate SavedAs(files: map<string, FileContent>, before: map<string, FileContent>, saved: Option<Checkpoint>) {
    match saved
    case None => files == before
    case Some(c) => Wrote(files, before, AutosaveFileName, c.record, c.now, c.datetime)
  }

  /** Two rounds of autosaving leave the later autosave in the file and every other file as it was. */
  lemma SavedAsAgain(files: map<string, FileContent>, mid: map<string, FileContent>, before: map<string, FileContent>,
                     first: Option<Checkpoint>, second: Option<Checkpoint>)
    requires SavedAs(mid, before, first)
    requires SavedAs(files, mid, second)
    ensures SavedAs(files, before, Later(first, second))
  {
  }

  /** Playing from turn `i`: the reply to turn `i`, then the turns after it unless that reply was "exit". */
  lemma PlayTurnsStep(k: UniverseKind, s: SceneState, r: PlayerRecord, turns: seq<Turn>, i: nat)
    requires i < |turns|
    ensures var t := RespondOf(k, s, r, turns[i].choiceId, turns[i].inputs);
      var saved := TurnSave(k, t, turns[i]);
      var rest := PlayTurns(k, t.scenes, t.record, turns[i + 1..]);
      PlayTurns(k, s, r, turns[i..]) == if t.result == ExitSentinel then Run(t.scenes, t.record, 1, true, saved)
                                        else rest.(played := rest.played + 1, lastSave := Later(saved, rest.lastSave))
  {
    assert turns[i..][0] == turns[i];
    assert turns[i..][1..] == turns[i + 1..];
    var after := ReplyThenRest(k, s, r, turns[i..]);
    assert PlayTurns(k, s, r, turns[i..]) == PlayTurn(k, s, r, turns[i..]) == after.(played := after.played + 1);
  }

  /** A run ended by "exit" last autosaved the record `r`, with the clocks of its last turn. */
  predicate ExitSaved(run: Run, turns: seq<Turn>, r: PlayerRecord) {
    run.exited ==> 0 < run.played <= |turns| && run.lastSave == Some(Checkpoint(r, turns[run.played - 1].now, turns[run.played - 1].datetime))
  }

  /**
   * What playing `turns` does from scenery `s0`, record `r0` and save files
   * `before`: the universe ends on the run's scenery, the player on
   * `AfterVisit`, and the save files hold the run's last autosave (none
   * changes when the run wrote none); a run ended by "exit" last autosaved
   * the final record, with the clocks of its last turn.
   */
  predicate TurnsEffect(k: UniverseKind, s0: SceneState, r0: PlayerRecord, before: map<string, FileContent>, turns: seq<Turn>,
                        exited: bool, scenes: SceneState, r: PlayerRecord, files: map<string, FileContent>)
  {
    var run := PlayTurns(k, s0, r0, turns);
    && exited == run.exited
    && scenes == run.scenes
    && r == AfterVisit(k, run)
    && SavedAs(files, before, run.lastSave)
    && ExitSaved(run, turns, r)
  }

  /** The turns of a visit, played from `on_entry`'s scenery and record. */
  function VisitRun(k: UniverseKind, s0: SceneState, r0: PlayerRecord, visit: Visit): Run {
    PlayTurns(k, SceneState(s0.current, MarkVisited(s0.firstVisit, InitialScene)), EntryEffectOf(k, r0, visit.reaction), visit.turns)
  }

  /**
   * What a visit does: `on_entry` (which marks the entry scene visited), the
   * entry autosave of the record it leaves, then the turns; the autosave file
   * ends holding the turns' last autosave, or the entry one if they wrote none.
   */
  predicate VisitEffect(k: UniverseKind, s0: SceneState, r0: PlayerRecord, before: map<string, FileContent>, visit: Visit,
                        exited: bool, scenes: SceneState, r: PlayerRecord, files: map<string, FileContent>)
  {
    var entered := EntryEffectOf(k, r0, visit.reaction);
    var run := VisitRun(k, s0, r0, visit);
    && exited == run.exited
    && scenes == run.scenes
    && r == AfterVisit(k, run)
    && SavedAs(files, before, Later(Some(Checkpoint(entered, visit.now, visit.datetime)), run.lastSave))
    && ExitSaved(run, visit.turns, r)
  }

  /**
   * How far the turn loop has got through the run `whole` after `i` turns:
   * the save files hold the autosave `saved` so far; on leaving, the run ended
   * at turn `i` with that autosave of the final record, otherwise `whole` is
   * the first `i` turns followed by the run of the rest from where they left.
   */
  predicate Progress(k: UniverseKind, whole: Run, turns: seq<Turn>, i: nat, exited: bool,
                     scenes: SceneState, r: PlayerRecord, saved: Option<Checkpoint>,
                     files: map<string, FileContent>, before: map<string, FileContent>)
    requires i <= |turns|
  {
    && SavedAs(files, before, saved)
    && if exited then
         && 0 < i
         && whole.exited && whole.played == i && whole.lastSave == saved
         && saved == Some(Checkpoint(r, turns[i - 1].now, turns[i - 1].datetime))
         && scenes == whole.scenes && r == AfterVisit(k, whole)
       else
         var rest := PlayTurns(k, scenes, r, turns[i..]);
         whole == rest.(played := rest.played + i, lastSave := Later(saved, rest.lastSave))
  }

  /** Turn `i` as the run sees it: either the run ends there, or it goes on from the reply. */
  lemma ProgressStep(k: UniverseKind, whole: Run, turns: seq<Turn>, i: nat, s: SceneState, r: PlayerRecord,
                     saved: Option<Checkpoint>)
    requires i < |turns|
    requires var rest := PlayTurns(k, s, r, turns[i..]);
      whole == rest.(played := rest.played + i, lastSave := Later(saved, rest.lastSave))
    ensures var t := RespondOf(k, s, r, turns[i].choiceId, turns[i].inputs);
      var turnSaved := TurnSave(k, t, turns[i]);
      var rest := PlayTurns(k, t.scenes, t.record, turns[i + 1..]);
      if t.result == ExitSentinel then
        && whole.exited && whole.played == i + 1 && whole.lastSave == turnSaved
        && whole.scenes == t.scenes && whole.record == t.record
      else
        whole == rest.(played := rest.played + (i + 1), lastSave := Later(Later(saved, turnSaved), rest.lastSave))
  {
    PlayTurnsStep(k, s, r, turns, i);
  }

  /** A loop that stopped, on leaving or with no turn left, has played the whole run. */
  lemma ProgressDone(k: UniverseKind, s0: SceneState, r0: PlayerRecord, before: map<string, FileContent>,
                     turns: seq<Turn>, i: nat, exited: bool, scenes: SceneState, r: PlayerRecord,
                     saved: Option<Checkpoint>, files: map<string, FileContent>)
    requires i <= |turns|
    requires exited || i == |turns|
    requires Progress(k, PlayTurns(k, s0, r0, turns), turns, i, exited, scenes, r, saved, files, before)
    ensures TurnsEffect(k, s0, r0, before, turns, exited, scenes, r, files)
  {
    var run := PlayTurns(k, s0, r0, turns);
    if !exited {
      assert turns[i..] == [];
      assert PlayTurns(k, scenes, r, turns[i..]) == Run(scenes, r, 0, false, None);
      assert run.lastSave == saved;
    } else {
      assert run.lastSave == saved && run.played == i;
    }
  }

  /**
   * The turn loop of `enter_universe`: `handle_choice` until it returns
   * "exit" (then `on_exit` and an autosave) or the turns run out, each other
   * turn autosaving when its draw is below 0.2.
   */
  method PlayTurnsLoop(u: UniverseRef, state: PlayerState, store: SaveStore, turns: seq<Turn>) returns (exited: bool)
    modifies u.Obj(), state, store
    ensures TurnsEffect(u.Kind(), old(u.Scenery()), old(state.Value()), old(store.files), turns,
                        exited, u.Scenery(), state.Value(), store.files)
  {
    ghost var whole := PlayTurns(u.Kind(), u.Scenery(), state.Value(), turns);
    ghost var saved: Option<Checkpoint> := None;
    exited := false;
    var i := 0;
    while i < |turns| && !exited
      invariant 0 <= i <= |turns|
      invariant Progress(u.Kind(), whole, turns, i, exited, u.Scenery(), state.Value(), saved, store.files, old(store.files))
    {
      exited, saved := LoopTurn(u, state, store, turns, i, whole, saved, old(store.files));
      i := i + 1;
    }
    ProgressDone(u.Kind(), old(u.Scenery()), old(state.Value()), old(store.files), turns, i, exited,
                 u.Scenery(), state.Value(), saved, store.files);
  }

  /** One pass of that loop, as the run `whole` sees it. */
  method LoopTurn(u: UniverseRef, state: PlayerState, store: SaveStore, turns: seq<Turn>, i: nat,
                  ghost whole: Run, ghost saved: Option<Checkpoint>, ghost before: map<string, FileContent>)
    returns (leaving: bool, ghost savedNow: Option<Checkpoint>)
    requires i < |turns|
    requires Progress(u.Kind(), whole, turns, i, false, u.Scenery(), state.Value(), saved, store.files, before)
    modifies u.Obj(), state, store
    ensures Progress(u.Kind(), whole, turns, i + 1, leaving, u.Scenery(), state.Value(), savedNow, store.files, before)
  {
    ghost var t := RespondOf(u.Kind(), u.Scenery(), state.Value(), turns[i].choiceId, turns[i].inputs);
    ghost var mid := store.files;
    ProgressStep(u.Kind(), whole, turns, i, u.Scenery(), state.Value(), saved);
    leaving := PlayOneTurn(u, state, store, turns[i]);
    ghost var turnSaved := TurnSave(u.Kind(), t, turns[i]);
    SavedAsAgain(store.files, mid, before, saved, turnSaved);
    savedNow := Later(saved, turnSaved);
  }

  /**
   * One pass of `enter_universe`'s loop: `handle_choice`; on "exit", `on_exit`
   * and an autosave; otherwise an autosave when the draw is below 0.2.
   */
  method PlayOneTurn(u: UniverseRef, state: PlayerState, store: SaveStore, turn: Turn) returns (leaving: bool)
    modifies u.Obj(), state, store
    ensures var t := RespondOf(u.Kind(), old(u.Scenery()), old(state.Value()), turn.choiceId, turn.inputs);
      && leaving == (t.result == ExitSentinel)
      && u.Scenery() == t.scenes
      && state.Value() == (if leaving then t.record.AddKeyFragment(u.Key()) else t.record)
      && SavedAs(store.files, old(store.files), TurnSave(u.Kind(), t, turn))
  {
    var result := HandleChoice(u, turn.choiceId, state, turn.inputs);
    leaving := result == ExitSentinel;
    FinishTurn(u, state, store, turn, leaving);
  }

  /** The rest of one pass: `on_exit` and an autosave when leaving, else the chance autosave. */
  method FinishTurn(u: UniverseRef, state: PlayerState, store: SaveStore, turn: Turn, leaving: bool)
    modifies state, store
    ensures state.Value() == (if leaving then old(state.Value()).AddKeyFragment(u.Key()) else old(state.Value()))
    ensures leaving || turn.autosaveRoll < AutosaveChance ==>
      Wrote(store.files, old(store.files), AutosaveFileName, state.Value(), turn.now, turn.datetime)
    ensures !leaving && turn.autosaveRoll >= AutosaveChance ==> store.files == old(store.files)
  {
    if leaving {
      var _ := OnExit(u, state);
      var _ := store.Autosave(state, turn.now, turn.datetime);
    } else if turn.autosaveRoll < AutosaveChance {
      var _ := store.Autosave(state, turn.now, turn.datetime);
    }
  }

  /** `enter_universe` once the universe is found: `on_entry`, an autosave, then the turn loop. */
  method PlayVisit(u: UniverseRef, state: PlayerState, store: SaveStore, visit: Visit) returns (exited: bool)
    modifies u.Obj(), state, store
    ensures VisitEffect(u.Kind(), old(u.Scenery()), old(state.Value()), old(store.files), visit,
                        exited, u.Scenery(), state.Value(), store.files)
  {
    OnEntry(u, state, visit.reaction);
    var _ := store.Autosave(state, visit.now, visit.datetime);
    ghost var mid := store.files;
    ghost var scenes := u.Scenery();
    ghost var entered := state.Value();
    exited := PlayTurnsLoop(u, state, store, visit.turns);
    VisitFromTurns(u.Kind(), old(u.Scenery()), old(state.Value()), old(store.files), visit, scenes, entered, mid,
                   exited, u.Scenery(), state.Value(), store.files);
  }

  /** A visit is its entry (with the entry autosave) followed by its turns. */
  lemma VisitFromTurns(k: UniverseKind, s0: SceneState, r0: PlayerRecord, before: map<string, FileContent>, visit: Visit,
                       s1: SceneState, r1: PlayerRecord, mid: map<string, FileContent>,
                       exited: bool, scenes: SceneState, r: PlayerRecord, files: map<string, FileContent>)
    requires r1 == EntryEffectOf(k, r0, visit.reaction)
    requires s1 == SceneState(s0.current, MarkVisited(s0.firstVisit, InitialScene))
    requires Wrote(mid, before, AutosaveFileName, r1, visit.now, visit.datetime)
    requires TurnsEffect(k, s1, r1, mid, visit.turns, exited, scenes, r, files)
    ensures VisitEffect(k, s0, r0, before, visit, exited, scenes, r, files)
  {
    var run := PlayTurns(k, s1, r1, visit.turns);
    SavedAsAgain(files, mid, before, Some(Checkpoint(r1, visit.now, visit.datetime)), run.lastSave);
  }

  /** A universe object is never the manager holding it. */
  lemma ObjIsNotManager(u: UniverseRef, manager: UniverseManager)
    ensures u.Obj() != manager
  {
  }

  /** The manager is not among the universe objects it holds, so visiting them leaves the registry as it was. */
  lemma ManagerNotHeld(manager: UniverseManager)
    ensures manager !in manager.Objects()
  {
    forall id | id in manager.universes
      ensures manager.universes[id].Obj() != manager
    {
      ObjIsNotManager(manager.universes[id], manager);
    }
  }

  /**
   * The sceneries `world` of the registered `universes` once the universe
   * object registered as `id` stands at `scenes`: every id holding that same
   * object sees it there, every other id keeps its own.
   */
  function Moved(world: map<string, SceneState>, universes: map<string, UniverseRef>, id: string, scenes: SceneState)
    : (w: map<string, SceneState>)
    requires id in universes
    ensures w.Keys == world.Keys
    ensures id in world ==> w[id] == scenes
    ensures forall x :: x in world && x in universes && universes[x].Obj() != universes[id].Obj() ==> w[x] == world[x]
  {
    map x | x in world :: if x in universes && universes[x] == universes[id] then scenes else world[x]
  }

  /** The save store is none of the universe objects, so saving leaves every scenery as it was. */
  lemma StoreNotHeld(manager: UniverseManager, store: SaveStore)
    ensures store !in manager.Objects()
  {
    forall id | id in manager.universes
      ensures manager.universes[id].Obj() != store
    {
      var u := manager.universes[id];
      assert u.Obj() != store by { match u { case PeakyRef(_) => case McuRef(_) => case StrangerRef(_) => } }
    }
  }

  /** Sceneries stay as they were while no universe object changes. */
  twostate lemma SceneriesKept(manager: UniverseManager)
    requires unchanged(manager) && unchanged(manager.Objects())
    ensures manager.Sceneries() == old(manager.Sceneries())
  {
  }

  /**
   * While only the object registered as `id` changes, the sceneries move as
   * `Moved` says: each id holding that object sees its new scenery, every
   * other keeps its own.
   */
  twostate lemma VisitMovesScenery(manager: UniverseManager, new id: string, new u: UniverseRef)
    requires id in manager.universes && manager.universes[id] == u && unchanged(manager)
    requires unchanged(manager.Objects() - {u.Obj()})
    ensures manager.Sceneries() == Moved(old(manager.Sceneries()), manager.universes, id, u.Scenery())
  {
    forall x | x in manager.universes
      ensures manager.Sceneries()[x] == Moved(old(manager.Sceneries()), manager.universes, id, u.Scenery())[x]
    {
      if manager.universes[x] != u && manager.universes[x].Obj() == u.Obj() {
        SameObjectSameRef(manager.universes[x], u);
      }
    }
  }

  /** `enter_universe`: an unknown id changes nothing; a known one plays a visit of its one universe object. */
  method EnterUniverse(id: string, state: PlayerState, manager: UniverseManager, store: SaveStore, visit: Visit)
    returns (exited: bool)
    modifies manager.Objects(), state, store
    ensures manager.order == old(manager.order) && manager.universes == old(manager.universes)
    ensures id !in manager.universes ==>
      state.Value() == old(state.Value()) && store.files == old(store.files) && !exited
      && manager.Sceneries() == old(manager.Sceneries())
    ensures id in manager.universes ==>
      var u := manager.universes[id];
      && VisitEffect(u.Kind(), old(u.Scenery()), old(state.Value()), old(store.files), visit,
                     exited, u.Scenery(), state.Value(), store.files)
      && manager.Sceneries() == Moved(old(manager.Sceneries()), manager.universes, id, u.Scenery())
  {
    ManagerNotHeld(manager);
    var universe := manager.GetUniverse(id);
    if universe.None? {
      return false;
    }
    ObjIsNotManager(universe.value, manager);
    exited := PlayVisit(universe.value, state, store, visit);
    VisitMovesScenery(manager, id, universe.value);
  }

  /**
   * A hub choice of a universe: `enter_universe` (as `EnterUniverse` states
   * it), then `check_game_end_conditions` on the state it leaves.
   */
  method VisitThenCheck(id: string, state: PlayerState, manager: UniverseManager, store: SaveStore, visit: Visit)
    returns (exited: bool, ending: Option<Ending>)
    modifies manager.Objects(), state, store
    ensures manager.order == old(manager.order) && manager.universes == old(manager.universes)
    ensures id !in manager.universes ==>
      state.Value() == old(state.Value()) && store.files == old(store.files) && !exited
      && manager.Sceneries() == old(manager.Sceneries())
    ensures id in manager.universes ==>
      var u := manager.universes[id];
      && VisitEffect(u.Kind(), old(u.Scenery()), old(state.Value()), old(store.files), visit,
                     exited, u.Scenery(), state.Value(), store.files)
      && manager.Sceneries() == Moved(old(manager.Sceneries()), manager.universes, id, u.Scenery())
    ensures ending == CheckGameEndConditions(state.Value(), |manager.universes|)
  {
    exited := EnterUniverse(id, state, manager, store, visit);
    ending := CheckGameEndConditions(state.Value(), |manager.universes|);
  }

  /** How a session ends: back to the main menu, a game over, or (in the model only) out of supplied turns. */
  datatype SessionEnd = ToMenu | GameOver(ending: Ending) | OutOfTurns

  /** One hub turn, the visit that follows if it selects a universe, and the clock readings of a closing autosave. */
  datatype SessionStep = SessionStep(hub: HubTurn, visit: Visit, now: real, datetime: string)

  /**
   * What one pass of the session loop did: the record and the universes'
   * sceneries it started from, what the hub returned, the record and the
   * sceneries it left and the ending checked after a visit.
   */
  datatype StepRecord = StepRecord(before: PlayerRecord, scenesBefore: map<string, SceneState>, selected: string,
                                   after: PlayerRecord, scenesAfter: map<string, SceneState>, ending: Option<Ending>)

  /** The hub returned a universe to enter rather than a command or nothing. */
  predicate Entered(selected: string) {
    selected != "" && selected != ExitToMenu && selected != NoCharges
  }

  /**
   * How a pass ends the session, if it does: "exit_to_menu" goes back to the
   * menu, "no_charges" is the "charges" game over, and a visit followed by an
   * ending is that game over.
   */
  function StepEnd(st: StepRecord): (end: Option<SessionEnd>)
    ensures end.Some? ==> !end.value.OutOfTurns?
    ensures end == Some(ToMenu) <==> st.selected == ExitToMenu
  {
    if st.selected == ExitToMenu then Some(ToMenu)
    else if st.selected == NoCharges then Some(GameOver(ChargesEnding))
    else if st.selected != "" && st.ending.Some? then Some(GameOver(st.ending.value))
    else None
  }

  /**
   * The pass `st` is what `step` does: the hub's answer for the record it
   * started from; after an entry, the visit of that universe from the
   * scenery it had, which moves that universe's scenery and no other, and
   * the ending check on the record it left; otherwise the record and every
   * scenery are unchanged and there is no check.
   */
  predicate PassFacts(order: seq<string>, universes: map<string, UniverseRef>, step: SessionStep, st: StepRecord) {
    && 1 <= step.hub.choice <= |order| + 3
    && st.scenesBefore.Keys == universes.Keys
    && st.selected == HubSelection(order, step.hub, st.before)
    && if Entered(st.selected) then
         && st.ending == CheckGameEndConditions(st.after, |universes|)
         && (st.selected in universes ==>
               var k := universes[st.selected].Kind();
               var run := VisitRun(k, st.scenesBefore[st.selected], st.before, step.visit);
               st.after == AfterVisit(k, run) && st.scenesAfter == Moved(st.scenesBefore, universes, st.selected, run.scenes))
         && (st.selected !in universes ==> st.after == st.before && st.scenesAfter == st.scenesBefore)
       else
         st.after == st.before && st.scenesAfter == st.scenesBefore && st.ending.None?
  }

  /** A pass that entered a universe is what its step does, once the visit's effect is known. */
  lemma EnteredPass(order: seq<string>, universes: map<string, UniverseRef>, step: SessionStep, st: StepRecord,
                    before: map<string, FileContent>, exited: bool, scenes: SceneState, files: map<string, FileContent>)
    requires 1 <= step.hub.choice <= |order| + 3
    requires st.scenesBefore.Keys == universes.Keys
    requires st.selected == HubSelection(order, step.hub, st.before) && Entered(st.selected)
    requires st.ending == CheckGameEndConditions(st.after, |universes|)
    requires st.selected !in universes ==> st.after == st.before && st.scenesAfter == st.scenesBefore
    requires st.selected in universes ==>
      && VisitEffect(universes[st.selected].Kind(), st.scenesBefore[st.selected], st.before, before, step.visit,
                     exited, scenes, st.after, files)
      && st.scenesAfter == Moved(st.scenesBefore, universes, st.selected, scenes)
    ensures PassFacts(order, universes, step, st)
  {
  }

  /** The autosave made on leaving the hub or on a game over; no universe's scenery changes. */
  method SaveOnLeaving(state: PlayerState, manager: UniverseManager, store: SaveStore, now: real, datetime: string)
    modifies store
    ensures Wrote(store.files, old(store.files), AutosaveFileName, state.Value(), now, datetime)
    ensures manager.Sceneries() == old(manager.Sceneries())
  {
    StoreNotHeld(manager, store);
    var _ := store.Autosave(state, now, datetime);
    SceneriesKept(manager);
  }

  /** A pass that entered no universe is what its step does when it changed nothing. */
  lemma QuietPass(order: seq<string>, universes: map<string, UniverseRef>, step: SessionStep, st: StepRecord)
    requires 1 <= step.hub.choice <= |order| + 3
    requires st.scenesBefore.Keys == universes.Keys
    requires st.selected == HubSelection(order, step.hub, st.before) && !Entered(st.selected)
    requires st.after == st.before && st.scenesAfter == st.scenesBefore && st.ending.None?
    ensures PassFacts(order, universes, step, st)
  {
  }

  /** The file holds a save of the record `r`. */
  predicate HoldsSaveOf(files: map<string, FileContent>, name: string, r: PlayerRecord) {
    && name in files
    && files[name].Saved?
    && files[name].data.playerState.Some?
    && IsSnapshotOf(files[name].data.playerState.value, r)
  }

  /**
   * One pass of the session loop: the hub, then on "exit_to_menu" or
   * "no_charges" an autosave and the end of the session; on a universe, the
   * visit, the ending check and, when an ending holds, an autosave and the
   * game over; on "" nothing more.
   */
  method SessionPass(state: PlayerState, manager: UniverseManager, store: SaveStore, step: SessionStep)
    returns (stop: Option<SessionEnd>, ghost st: StepRecord)
    requires manager.Value().Valid()
    requires manager.order == ["peakyblinders", "mcu", "strangerthings"]
    requires 1 <= step.hub.choice <= |manager.order| + 3
    requires 1 <= step.hub.saveSlot <= MaxSaves
    modifies manager.Objects(), state, store
    ensures manager.order == old(manager.order) && manager.universes == old(manager.universes)
    ensures PassFacts(manager.order, manager.universes, step, st)
    ensures st.before == old(state.Value()) && st.after == state.Value()
    ensures st.scenesBefore == old(manager.Sceneries()) && st.scenesAfter == manager.Sceneries()
    ensures stop == StepEnd(st)
    ensures stop.Some? ==> HoldsSaveOf(store.files, AutosaveFileName, state.Value())
    ensures stop.Some? && stop.value.GameOver? ==> CheckGameEndConditions(state.Value(), |manager.universes|).Some?
    ensures stop.Some? && stop.value.GameOver? && stop.value.ending != ChargesEnding ==>
      CheckGameEndConditions(state.Value(), |manager.universes|) == Some(stop.value.ending)
    ensures stop == Some(GameOver(ChargesEnding)) ==> state.fractureKeyCharges <= 0
  {
    ManagerNotHeld(manager);
    StoreNotHeld(manager, store);
    var listing := ListOf(store.files.Keys);
    var selected := ShowMultiverseHub(state, manager, store, step.hub, listing);
    SceneriesKept(manager);
    if Entered(selected) {
      stop, st := VisitPass(state, manager, store, step, selected);
    } else {
      stop, st := LeavePass(state, manager, store, step, selected);
    }
  }

  /** The rest of a pass that entered no universe: on "exit_to_menu" or "no_charges" an autosave, on "" nothing. */
  method LeavePass(state: PlayerState, manager: UniverseManager, store: SaveStore, step: SessionStep, selected: string)
    returns (stop: Option<SessionEnd>, ghost st: StepRecord)
    requires manager.order == ["peakyblinders", "mcu", "strangerthings"]
    requires 1 <= step.hub.choice <= |manager.order| + 3
    requires selected == HubSelection(manager.order, step.hub, state.Value()) && !Entered(selected)
    modifies store
    ensures PassFacts(manager.order, manager.universes, step, st)
    ensures st.before == state.Value() && st.after == state.Value() && st.selected == selected
    ensures st.scenesBefore == old(manager.Sceneries()) && st.scenesAfter == manager.Sceneries()
    ensures stop == StepEnd(st)
    ensures stop.Some? ==> HoldsSaveOf(store.files, AutosaveFileName, state.Value())
    ensures stop.Some? && stop.value.GameOver? ==>
      stop.value.ending == ChargesEnding && state.fractureKeyCharges <= 0
      && CheckGameEndConditions(state.Value(), |manager.universes|).Some?
  {
    ghost var world := manager.Sceneries();
    st := StepRecord(state.Value(), world, selected, state.Value(), world, None);
    QuietPass(manager.order, manager.universes, step, st);
    if selected == ExitToMenu {
      SaveOnLeaving(state, manager, store, step.now, step.datetime);
      return Some(ToMenu), st;
    } else if selected == NoCharges {
      SaveOnLeaving(state, manager, store, step.now, step.datetime);
      return Some(GameOver(ChargesEnding)), st;
    }
    return None, st;
  }

  /** The rest of a pass that entered a universe: the visit, the ending check and, on an ending, an autosave. */
  method VisitPass(state: PlayerState, manager: UniverseManager, store: SaveStore, step: SessionStep, selected: string)
    returns (stop: Option<SessionEnd>, ghost st: StepRecord)
    requires 1 <= step.hub.choice <= |manager.order| + 3
    requires selected == HubSelection(manager.order, step.hub, state.Value()) && Entered(selected)
    modifies manager.Objects(), state, store
    ensures manager.order == old(manager.order) && manager.universes == old(manager.universes)
    ensures PassFacts(manager.order, manager.universes, step, st)
    ensures st.before == old(state.Value()) && st.after == state.Value() && st.selected == selected
    ensures st.scenesBefore == old(manager.Sceneries()) && st.scenesAfter == manager.Sceneries()
    ensures stop == StepEnd(st)
    ensures stop.Some? ==> HoldsSaveOf(store.files, AutosaveFileName, state.Value())
    ensures stop.Some? ==> stop.value.GameOver? && CheckGameEndConditions(state.Value(), |manager.universes|) == Some(stop.value.ending)
  {
    ManagerNotHeld(manager);
    ghost var before := state.Value();
    ghost var world := manager.Sceneries();
    ghost var files := store.files;
    var exited, ending := VisitThenCheck(selected, state, manager, store, step.visit);
    st := StepRecord(before, world, selected, state.Value(), manager.Sceneries(), ending);
    ghost var scenes := if selected in manager.universes then manager.universes[selected].Scenery() else SceneState("", map[]);
    EnteredPass(manager.order, manager.universes, step, st, files, exited, scenes, store.files);
    if ending.Some? {
      SaveOnLeaving(state, manager, store, step.now, step.datetime);
      return Some(GameOver(ending.value)), st;
    }
    return None, st;
  }

  /**
   * `trace` records passes of the steps `steps` played in order from the
   * record `r0` and the sceneries `w0`, leaving the record `r` and the
   * sceneries `w`: each is what its step does from the record and the
   * sceneries the previous one left.
   */
  predicate Played(order: seq<string>, universes: map<string, UniverseRef>, steps: seq<SessionStep>,
                   trace: seq<StepRecord>, r0: PlayerRecord, w0: map<string, SceneState>,
                   r: PlayerRecord, w: map<string, SceneState>) {
    && |trace| <= |steps|
    && (forall j :: 0 <= j < |trace| ==> PassFacts(order, universes, steps[j], trace[j]))
    && (trace == [] ==> r == r0 && w == w0)
    && (trace != [] ==> trace[0].before == r0 && trace[0].scenesBefore == w0)
    && (trace != [] ==> trace[|trace| - 1].after == r && trace[|trace| - 1].scenesAfter == w)
    && (forall j :: 0 < j < |trace| ==> trace[j].before == trace[j - 1].after)
    && (forall j :: 0 < j < |trace| ==> trace[j].scenesBefore == trace[j - 1].scenesAfter)
  }

  /** A trace played so far grows by the next step's pass, taken from the record and sceneries it left. */
  lemma PlayedOneMore(order: seq<string>, universes: map<string, UniverseRef>, steps: seq<SessionStep>,
                      trace: seq<StepRecord>, r0: PlayerRecord, w0: map<string, SceneState>,
                      r: PlayerRecord, w: map<string, SceneState>, st: StepRecord)
    requires Played(order, universes, steps, trace, r0, w0, r, w)
    requires |trace| < |steps|
    requires PassFacts(order, universes, steps[|trace|], st) && st.before == r && st.scenesBefore == w
    ensures Played(order, universes, steps, trace + [st], r0, w0, st.after, st.scenesAfter)
    ensures forall j :: 0 <= j < |trace| ==> (trace + [st])[j] == trace[j]
  {
    var longer := trace + [st];
    forall j | 0 <= j < |longer|
      ensures PassFacts(order, universes, steps[j], longer[j])
    {
      if j < |trace| {
        assert longer[j] == trace[j];
      }
    }
    forall j | 0 < j < |longer|
      ensures longer[j].before == longer[j - 1].after && longer[j].scenesBefore == longer[j - 1].scenesAfter
    {
      assert longer[j - 1] == trace[j - 1];
    }
  }

  /**
   * The session loop of `main`: passes until one ends the session. The trace
   * records each pass played: each is what its step does from the record the
   * previous one left, none but the last ended the session, and the last
   * decides how it ended; the session runs out of turns exactly when every
   * step was played without an end. Every ending leaves the final state in
   * the autosave slot, and a game over happens only when an end condition
   * holds.
   */
  method RunSession(state: PlayerState, manager: UniverseManager, store: SaveStore, steps: seq<SessionStep>)
    returns (end: SessionEnd, ghost trace: seq<StepRecord>)
    requires manager.Value().Valid()
    requires manager.order == ["peakyblinders", "mcu", "strangerthings"]
    requires forall i :: 0 <= i < |steps| ==> 1 <= steps[i].hub.choice <= |manager.order| + 3
    requires forall i :: 0 <= i < |steps| ==> 1 <= steps[i].hub.saveSlot <= MaxSaves
    modifies manager.Objects(), state, store
    ensures manager.order == old(manager.order) && manager.universes == old(manager.universes)
    ensures Played(manager.order, manager.universes, steps, trace, old(state.Value()), old(manager.Sceneries()),
                   state.Value(), manager.Sceneries())
    ensures forall j :: 0 <= j < |trace| - 1 ==> StepEnd(trace[j]).None?
    ensures end == OutOfTurns <==> |trace| == |steps| && (trace == [] || StepEnd(trace[|trace| - 1]).None?)
    ensures end != OutOfTurns ==> trace != [] && StepEnd(trace[|trace| - 1]) == Some(end)
    ensures !end.OutOfTurns? ==> HoldsSaveOf(store.files, AutosaveFileName, state.Value())
    ensures end.GameOver? ==> CheckGameEndConditions(state.Value(), |manager.universes|).Some?
    ensures end.GameOver? && end.ending != ChargesEnding ==> CheckGameEndConditions(state.Value(), |manager.universes|) == Some(end.ending)
    ensures end == GameOver(ChargesEnding) ==> state.fractureKeyCharges <= 0
  {
    ghost var order, universes, r0, w0 := manager.order, manager.universes, state.Value(), manager.Sceneries();
    trace := [];
    var i := 0;
    while i < |steps|
      invariant 0 <= i <= |steps| && |trace| == i
      invariant manager.order == order && manager.universes == universes
      invariant Played(order, universes, steps, trace, r0, w0, state.Value(), manager.Sceneries())
      invariant forall j :: 0 <= j < i ==> StepEnd(trace[j]).None?
    {
      var stop, st := SessionPass(state, manager, store, steps[i]);
      PlayedOneMore(order, universes, steps, trace, r0, w0, st.before, st.scenesBefore, st);
      trace := trace + [st];
      if stop.Some? {
        return stop.value, trace;
      }
      i := i + 1;
    }
    return OutOfTurns, trace;
  }
}
