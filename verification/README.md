# Multiverse Fugitive — a verified model of the game engine

This project models the engine of *Multiverse Fugitive*, a turn-based text
adventure in which a fugitive jumps between fictional universes (Peaky
Blinders, the MCU, Stranger Things). The aim is to collect one key fragment
per universe while spending fracture-key charges to leave each one. The
model covers these pieces:

- **The player** (`core.py` `PlayerState`), in `player.dfy`.
  - `PlayerRecord` is the value of a player state, with pure mutators.
  - The `PlayerState` class has the in-place mutators of the source, each proved equal to the pure one.
  - Morality and memory sync are clamped to 0..100.
  - The inventory is a list; removal takes out the first occurrence only.
  - Reputation is a map, created lazily and never clamped.
  - Key fragments and visited universes are sets.
  - A fracture-key charge is never spent below 0.
  - `to_dict`/`from_dict` become `StateDict` and `FromDict`; every field is optional, and missing fields take the defaults.
  - `has_completed_universe` is the predicate `PlayerRecord.HasCompletedUniverse` (membership in the fragments).
- **The universe registry** (`core.py` `UniverseManager`), in `manager.dfy`.
  - Registry ids are derived from class names: the name lower-cased, with every "universe" removed.
  - The registry keeps registration order and filters out universes against collected fragments.
  - A `UniverseRef` dispatches `on_entry`, `handle_choice` and `on_exit` to the right class.
- **The universes** (`universes/*.py`), in `universe.dfy` (shared shapes) and `peaky_blinders.dfy`, `mcu.dfy`, `stranger_things.dfy`.
  - Each universe is a class holding a scene pointer and first-visit flags.
  - `GetChoices` builds the state-dependent choice list; outside "awakening" the exit choice comes last and is numbered `len+1`.
  - A consequence is either text or an `Action`.
  - `Effect` gives the pure effect of an action, and `Respond` gives `handle_choice` (look the choice up, then run it).
  - `Perform`/`HandleChoice` on the class do the same in place and are proved equal to `Effect`/`Respond`.
  - `on_entry` marks the universe visited and seeds its reputation; `on_exit` awards the fragment once.
- **Save slots** (`save_manager.py`), in `save_manager.dfy`.
  - The save directory is a map from file name to contents (readable save data, or unreadable).
  - The directory listing order is a parameter.
  - File names map to slots "1".."3" and "autosave".
  - The model covers save, autosave, load, the slot summaries, delete, the latest save and quick save, with their loops as methods proved against specification functions.
- **The game flow** (`main.py`), in `game.dfy`.
  - Initialisation and the end-condition arbitration.
  - The hub's option numbering and dispatch, and the load-menu mapping.
  - Starting a game from the main menu.
  - The enter/loop/exit protocol of a universe visit with its autosave checkpoints.
  - The session loop.

Several behaviours of the program are reproduced as written and stated as lemmas:

- **Ids and keys differ.** The registry ids ("peakyblinders", "strangerthings") differ from the keys those universes record fragments under ("peaky_blinders", "stranger_things"). So only the MCU is ever filtered out as completed (`Manager.IdsAgainstKeys`, `Game.CompletedUniversesStayAvailable`).
- **Charges are spent at exit, not entry.**
  - Stranger Things and the MCU exit even without a charge (`Mcu.ExitWithoutCharge`).
  - Peaky Blinders refuses the exit without a charge, and calls `on_exit` itself before `enter_universe` calls it again. The second call changes nothing (`Game.PeakyExitAwardsOnce`).
  - One Stranger Things path adds a charge directly (`StrangerThings.PortalRecharge`).
- **`from_dict` does not clamp** (`Player.FromDictDoesNotClamp`).
- **Two charge defaults.** The slot summary defaults missing charges to 0 while loading defaults them to 5 (`SaveManager.SummaryChargesDefault`).
- **`save_game` accepts any integer slot**, while slot discovery ignores slots outside 1..3 (`SaveManager.SaveStore.SaveGame`, `SaveManager.NumberedFileRoundTrip`).

Inputs the program reads interactively are parameters:

- the answers to `input()` prompts, as `Inputs`, `HubTurn`, `Turn` and `MenuStart`;
- random draws, as reals and an index;
- clock readings, as `now: real` and `datetime: string`;
- the directory listing order, as `listing: seq<string>`.

## Model

| member | source | states |
|---|---|---|
| Text.IntToString | save_manager.py:77-78 | `str(n)` is non-empty, contains no '_' or '.', and is all digits for n >= 0 |
| Text.ParseInt | save_manager.py:77 | `int(s)` of a non-empty digit string is its decimal value; any accepted string is an optional sign followed by digits, and a negative result needs a leading "-" |
| Text.ParseIntOfIntToString | save_manager.py:77-78 | `int(str(i)) == i` for every integer |
| Text.Split | save_manager.py:41 | `str.split` gives at least one part, exactly `[s]` when the separator is absent and at least two parts when it is present |
| Text.SplitAtFirst | save_manager.py:41 | splitting `a + sep + b` with no separator in `a` gives `a` followed by the split of `b` |
| Text.Lower | core.py:194 | `str.lower` keeps the length, lowers every character and leaves no upper-case ASCII letter |
| Text.LowerAppend | core.py:194 | lower-casing a concatenation lower-cases each part |
| Text.ReplaceAll | core.py:194 | removing a pattern never lengthens the string |
| Text.ReplaceAllSkips | core.py:194 | a prefix none of whose characters starts the pattern passes through `replace` unchanged |
| Player.Clamp | core.py:36-42 | the result lies in 0..100, equals the input inside the range and the nearer bound outside it |
| Player.EnumeratesCard | core.py:84-85 | a list made from a set has one entry per element |
| Player.SetOf | core.py:97-98 | `set(list)` holds exactly the list's elements |
| Player.RemoveFirst | core.py:48-53 | an absent item leaves the list as it is; otherwise the result is the list without its first occurrence, order kept |
| Player.RemoveFirstMultiset | core.py:48-53 | removing an item takes exactly one copy out of the list's multiset |
| Player.FilterOut | core.py:201-204 | an element is kept iff it is in the list and not dropped; the result is no longer and stays duplicate-free |
| Player.FilterOutAppend | save_manager.py:240 | filtering distributes over appending one element, so order is preserved |
| Player.PlayerRecord.AdjustMorality | core.py:36-38 | morality becomes old + amount clamped to 0..100; nothing else changes |
| Player.PlayerRecord.AdjustMemorySync | core.py:40-42 | memory sync becomes old + amount clamped to 0..100; nothing else changes |
| Player.PlayerRecord.AddItem | core.py:44-46 | the item is appended after the unchanged old inventory |
| Player.PlayerRecord.RemoveItem | core.py:48-53 | an absent item changes nothing; a present one loses exactly one copy, namely its first occurrence, the rest keeping their order |
| Player.PlayerRecord.AdjustReputation | core.py:55-60 | the key is created if absent and becomes its old value (0 if absent) plus amount, with no clamping; other keys are unchanged |
| Player.PlayerRecord.HasCompletedUniverse | core.py:73-75 | holds iff the universe is among the key fragments |
| Player.PlayerRecord.AddKeyFragment | core.py:62-64 | the fragment is present afterwards and the other fragments are unchanged; the count grows by one only if it was absent |
| Player.PlayerRecord.UseFractureKeyCharge | core.py:66-71 | with no charge nothing changes; otherwise exactly one charge is spent; charges never go below 0 |
| Player.DictOf | core.py:77-87 | `to_dict` lists exactly the fragments and the visited universes of the state |
| Player.FromDict | core.py:90-101 | every present value loads as stored (morality unclamped, memory sync, charges, inventory, reputation); absent ones take the defaults (morality 50, memory sync 0, 5 charges, empty collections); the fragment and visited sets hold exactly the listed entries |
| Player.ToDictRoundTrip | core.py:77-101 | `from_dict(to_dict(s)) == s` for every list order of the sets |
| Player.SnapshotLoadsBack | core.py:89-101 | any snapshot of a state loads back as that state |
| Player.FromEmptyDictIsNewPlayer | core.py:89-101 | `from_dict({})` is the new-game state: morality 50, memory sync 0, 5 charges, empty collections |
| Player.FromDictDoesNotClamp | core.py:92-93 | a stored morality of 150 loads as 150 |
| Player.ListOf | core.py:84-85 | `list(a_set)` lists every element exactly once |
| Player.PlayerState.constructor | core.py:28-34 | a new player state is the new-game record |
| Player.PlayerState.FromRecord | core.py:89-101 | the state built by `from_dict` holds exactly the decoded record |
| Player.PlayerState.AdjustMorality | core.py:36-38 | the in-place update equals `PlayerRecord.AdjustMorality` |
| Player.PlayerState.AdjustMemorySync | core.py:40-42 | the in-place update equals `PlayerRecord.AdjustMemorySync` |
| Player.PlayerState.AddItem | core.py:44-46 | the in-place append equals `PlayerRecord.AddItem` |
| Player.PlayerState.RemoveItem | core.py:48-53 | returns true iff the item was present; the update equals `PlayerRecord.RemoveItem` |
| Player.PlayerState.AdjustReputation | core.py:55-60 | the in-place update equals `PlayerRecord.AdjustReputation` |
| Player.PlayerState.HasCompletedUniverse | core.py:73-75 | reads the object's current record (`Value()`) and holds iff the universe is among its key fragments |
| Player.PlayerState.AddKeyFragment | core.py:62-64 | the in-place update equals `PlayerRecord.AddKeyFragment` |
| Player.PlayerState.UseFractureKeyCharge | core.py:66-71 | returns true iff a charge was available; the update equals `PlayerRecord.UseFractureKeyCharge` |
| Player.PlayerState.ToDict | core.py:77-87 | the dictionary is a snapshot of the state and loads back as the same state |
| Player.MoralityFloorScenario | core.py:36-38 | a new player losing 60 morality is clamped at 0 |
| Player.LastChargeScenario | core.py:66-71 | spending the last charge leaves 0, and a further attempt changes nothing |
| Player.AddKeyFragmentCompletes | core.py:62-75 | after adding a fragment, a universe is completed iff it is that fragment or was completed before |
| Player.AddKeyFragmentIdempotent | core.py:62-64 | adding the same fragment twice is the same as adding it once |
| Universe.Numbered | universes/peaky_blinders.py:140-185 | choices are numbered 1..n in list order and keep their consequences |
| Universe.WithExitChoice | universes/peaky_blinders.py:187-189 | in "awakening" the list is unchanged; elsewhere one exit choice numbered `len+1` is appended |
| Universe.Lookup | universes/peaky_blinders.py:197-206 | the search finds nothing iff no choice has the id; otherwise it finds a listed choice with that id |
| Universe.LookupNumbered | universes/peaky_blinders.py:197-206 | in a list numbered 1..n, exactly ids 1..n are found, id k giving the k-th choice |
| Universe.FindChoice | universes/peaky_blinders.py:197-202 | the search loop returns what `Lookup` specifies |
| Universe.MarkEntered | universes/peaky_blinders.py:84-89 | the universe becomes visited; its reputation is set to 0 only when absent, so an existing value is kept |
| Universe.MarkEnteredIdempotent | universes/peaky_blinders.py:84-89 | entering twice records the same as entering once |
| Universe.ExitTierOf | universes/peaky_blinders.py:228-238 | the exit narration tier is the top one iff reputation >= 50, the middle one iff 20 <= reputation < 50, else the baseline |
| Universe.ExitTierMonotonic | universes/peaky_blinders.py:228-238 | more reputation never gives a lower exit tier |
| Universe.MarkVisited | universes/peaky_blinders.py:128-138 | showing a scene clears its first-visit flag, never sets one, and leaves other scenes' flags and unknown ids alone |
| Universe.SceneState.Enter | universes/peaky_blinders.py:244-249 | `_change_scene` points at the target and clears its first-visit flag |
| Universe.FreshScenes | universes/peaky_blinders.py:27-77 | a new universe starts in "awakening" with every registered scene flagged as not yet visited |
| Universe.Settle | universes/peaky_blinders.py:204-214 | an exit action returns "exit"; any other returns the scene it leaves the universe in |
| PeakyBlinders.GetChoices | universes/peaky_blinders.py:140-191 | numbered list; exit choice last and only outside "awakening"; the Garrison Pub's 4th choice iff "Tommy's Note" is held; the Shelby office's iff reputation >= 20 |
| PeakyBlinders.SceneConsequences | universes/peaky_blinders.py:140-185 | every direct scene change leads to a registered scene |
| PeakyBlinders.SceneConsequencesShape | universes/peaky_blinders.py:140-185 | no scene offers the exit among its own choices; three choices per scene, with the Garrison's 4th exactly when "Tommy's Note" is held and the Shelby office's exactly when reputation >= 20; the 3rd choices of the office and the warehouse lead to Small Heath; an unknown scene offers nothing |
| PeakyBlinders.Effect | universes/peaky_blinders.py:252-611 | exit happens iff a charge is available, spends it and awards the fragment; helping the kid adds 10 morality and 20 reputation; the office is always reached; Tommy's note adds 15 reputation and "Tommy's Trust" |
| PeakyBlinders.AwakeningEffect | universes/peaky_blinders.py:252-270 | the awakening scene's consequences cannot exit, keeps charges, fragments and visited universes, and any move stays in a registered scene |
| PeakyBlinders.GarrisonPubEffect | universes/peaky_blinders.py:271-359 | the Garrison pub's consequences cannot exit, keeps charges, fragments and visited universes, and any move stays in a registered scene; Tommy's note adds 15 reputation and "Tommy's Trust" |
| PeakyBlinders.SmallHeathEffect | universes/peaky_blinders.py:360-416 | Small Heath's consequences cannot exit, keeps charges, fragments and visited universes, and any move stays in a registered scene; helping the kid adds 10 morality and 20 reputation; the office is always reached |
| PeakyBlinders.ShelbyOfficeEffect | universes/peaky_blinders.py:417-508 | the Shelby office's consequences cannot exit, keeps charges, fragments and visited universes, and any move stays in a registered scene |
| PeakyBlinders.WarehouseEffect | universes/peaky_blinders.py:509-597 | the warehouse's consequences cannot exit, keeps charges, fragments and visited universes, and any move stays in a registered scene |
| PeakyBlinders.EffectKeepsStatsInRange | universes/peaky_blinders.py:252-597 | no consequence takes morality or memory sync out of 0..100 |
| PeakyBlinders.Respond | universes/peaky_blinders.py:193-214 | an id not offered changes nothing and returns the current scene; visited universes and scene flags' domain are kept |
| PeakyBlinders.RespondKeepsStatsInRange | universes/peaky_blinders.py:193-214 | `handle_choice` keeps morality and memory sync in 0..100 |
| PeakyBlinders.RespondStaysInScenes | universes/peaky_blinders.py:193-214 | from a registered scene, `handle_choice` always leaves the universe in a registered scene |
| PeakyBlinders.RespondExit | universes/peaky_blinders.py:599-611 | "exit" is returned iff the exit choice is taken with a charge; it then spends one charge and holds the fragment; without a charge nothing changes |
| PeakyBlinders.EntryEffect | universes/peaky_blinders.py:79-126 | marks the universe visited and keeps its reputation, fragments and charges |
| PeakyBlinders.PeakyBlindersUniverse.constructor | universes/peaky_blinders.py:27-77 | starts in "awakening" with all five scenes unvisited |
| PeakyBlinders.PeakyBlindersUniverse.ShowSceneDescription | universes/peaky_blinders.py:128-138 | clears the scene's first-visit flag and leaves the scene pointer |
| PeakyBlinders.PeakyBlindersUniverse.ChangeScene | universes/peaky_blinders.py:244-249 | moves to the scene, clears its flag and returns its id |
| PeakyBlinders.PeakyBlindersUniverse.OnEntry | universes/peaky_blinders.py:79-126 | the player changes as `EntryEffect` says and "awakening" is marked shown |
| PeakyBlinders.PeakyBlindersUniverse.OnExit | universes/peaky_blinders.py:216-241 | the fragment is held afterwards, added only if absent; the tier follows the reputation |
| PeakyBlinders.PeakyBlindersUniverse.Perform | universes/peaky_blinders.py:252-611 | running a consequence in place equals its `Effect` followed by `Settle` |
| PeakyBlinders.PeakyBlindersUniverse.PerformInAwakening | universes/peaky_blinders.py:252-270 | running one of the awakening scene's consequences in place equals `AwakeningEffect` followed by `Settle` |
| PeakyBlinders.PeakyBlindersUniverse.PerformInGarrisonPub | universes/peaky_blinders.py:271-359 | running one of the Garrison pub's consequences in place equals `GarrisonPubEffect` followed by `Settle` |
| PeakyBlinders.PeakyBlindersUniverse.PerformInSmallHeath | universes/peaky_blinders.py:360-416 | running one of Small Heath's consequences in place equals `SmallHeathEffect` followed by `Settle` |
| PeakyBlinders.PeakyBlindersUniverse.PerformInShelbyOffice | universes/peaky_blinders.py:417-508 | running one of the Shelby office's consequences in place equals `ShelbyOfficeEffect` followed by `Settle` |
| PeakyBlinders.PeakyBlindersUniverse.PerformInWarehouse | universes/peaky_blinders.py:509-597 | running one of the warehouse's consequences in place equals `WarehouseEffect` followed by `Settle` |
| PeakyBlinders.PeakyBlindersUniverse.HandleChoice | universes/peaky_blinders.py:193-214 | the in-place `handle_choice` equals `Respond` |
| PeakyBlinders.LastChargeExit | universes/peaky_blinders.py:599-611 | with one charge the warehouse exit succeeds; a second try without a charge stays put |
| Mcu.GetChoices | universes/mcu.py:140-191 | numbered list; exit last and only outside "awakening"; Stark Tower's 4th choice iff the communicator is held; S.H.I.E.L.D. HQ's iff reputation >= 20; HQ choice 3 leads to "awakening" and Sanctum choice 3 to "central_park" |
| Mcu.SceneConsequences | universes/mcu.py:140-185 | every direct scene change leads to a registered scene |
| Mcu.SceneConsequencesShape | universes/mcu.py:140-185 | no scene offers the exit among its own choices; three choices per scene, with Stark Tower's 4th exactly when the communicator is held and S.H.I.E.L.D. HQ's exactly when reputation >= 20; HQ's 3rd choice leads to "awakening" and the Sanctum's to "central_park"; an unknown scene offers nothing |
| Mcu.Effect | universes/mcu.py:252-635 | exit happens iff confirmed and spends a charge if one is available; following the agent costs 5 morality and leads to HQ; communicator option 1 leads to HQ; fragments never change |
| Mcu.AwakeningEffect | universes/mcu.py:252-270 | the awakening scene's consequences cannot exit, keeps charges, fragments and visited universes, and any move stays in a registered scene; following the agent costs 5 morality and leads to HQ |
| Mcu.StarkTowerEffect | universes/mcu.py:271-358 | Stark Tower's consequences, the communicator's among them, cannot exit, keeps charges, fragments and visited universes, and any move stays in a registered scene; communicator option 1 leads to HQ |
| Mcu.CentralParkEffect | universes/mcu.py:359-433 | Central Park's consequences cannot exit, keeps charges, fragments and visited universes, and any move stays in a registered scene |
| Mcu.ShieldHqEffect | universes/mcu.py:434-497 | S.H.I.E.L.D. HQ's consequences, resource requests among them, cannot exit, keeps charges, fragments and visited universes, and any move stays in a registered scene |
| Mcu.SanctumEffect | universes/mcu.py:498-577 | the Sanctum's consequences cannot exit, keeps charges, fragments and visited universes, and any move stays in a registered scene |
| Mcu.EffectKeepsStatsInRange | universes/mcu.py:252-624 | no consequence takes morality or memory sync out of 0..100 |
| Mcu.Respond | universes/mcu.py:193-214 | an id not offered changes nothing and returns the current scene; fragments and visited universes are kept |
| Mcu.RespondKeepsStatsInRange | universes/mcu.py:193-214 | `handle_choice` keeps morality and memory sync in 0..100 |
| Mcu.RespondStaysInScenes | universes/mcu.py:193-214 | from a registered scene, `handle_choice` always leaves the universe in a registered scene |
| Mcu.RespondExit | universes/mcu.py:626-635 | "exit" is returned iff the exit choice is confirmed; the charge result is ignored; declining changes nothing |
| Mcu.EntryEffect | universes/mcu.py:79-126 | marks the universe visited and keeps its reputation, fragments and charges |
| Mcu.McuUniverse.constructor | universes/mcu.py:27-77 | starts in "awakening" with all five scenes unvisited |
| Mcu.McuUniverse.ShowSceneDescription | universes/mcu.py:128-138 | clears the scene's first-visit flag and leaves the scene pointer |
| Mcu.McuUniverse.ChangeScene | universes/mcu.py:244-249 | moves to the scene, clears its flag and returns its id |
| Mcu.McuUniverse.OnEntry | universes/mcu.py:79-126 | the player changes as `EntryEffect` says and "awakening" is marked shown |
| Mcu.McuUniverse.OnExit | universes/mcu.py:216-241 | the fragment is held afterwards, added only if absent; the tier follows the reputation |
| Mcu.McuUniverse.Perform | universes/mcu.py:252-635 | running a consequence in place equals its `Effect` followed by `Settle` |
| Mcu.McuUniverse.PerformInAwakening | universes/mcu.py:252-270 | running one of the awakening scene's consequences in place equals `AwakeningEffect` followed by `Settle` |
| Mcu.McuUniverse.PerformInStarkTower | universes/mcu.py:271-358 | running one of Stark Tower's consequences in place equals `StarkTowerEffect` followed by `Settle` |
| Mcu.McuUniverse.PerformInCentralPark | universes/mcu.py:359-433 | running one of Central Park's consequences in place equals `CentralParkEffect` followed by `Settle` |
| Mcu.McuUniverse.PerformInShieldHq | universes/mcu.py:434-497 | running one of S.H.I.E.L.D. HQ's consequences in place equals `ShieldHqEffect` followed by `Settle` |
| Mcu.McuUniverse.PerformInSanctum | universes/mcu.py:498-577 | running one of the Sanctum's consequences in place equals `SanctumEffect` followed by `Settle` |
| Mcu.McuUniverse.HandleChoice | universes/mcu.py:193-214 | the in-place `handle_choice` equals `Respond` |
| Mcu.ExitWithoutCharge | universes/mcu.py:626-635 | with no charge left, a confirmed exit still returns "exit" |
| StrangerThings.GetChoices | universes/stranger_things.py:143-202 | numbered list; exit last and only outside "awakening"; 4th choices in town, lab, Upside Down and the Byers house iff Joyce's address, the lab badge, the compass or reputation >= 20 |
| StrangerThings.Recharged | universes/stranger_things.py:660 | the direct increment adds exactly one charge and nothing else |
| StrangerThings.Effect | universes/stranger_things.py:264-948 | exit happens iff confirmed; portal option 2 adds a charge and leads to the lab; offering help adds 15 morality and 25 reputation; fragments never change |
| StrangerThings.AwakeningEffect | universes/stranger_things.py:264-320 | the awakening scene's consequences cannot exit, keeps charges, fragments and visited universes, and any move stays in a registered scene |
| StrangerThings.HawkinsTownEffect | universes/stranger_things.py:321-458 | Hawkins town's consequences, going to the Byers house among them, cannot exit, keeps charges, fragments and visited universes, and any move stays in a registered scene |
| StrangerThings.HawkinsLabEffect | universes/stranger_things.py:459-624 | the lab's consequences cannot exit, keeps charges, fragments and visited universes, and any move stays in a registered scene |
| StrangerThings.UpsideDownEffect | universes/stranger_things.py:625-804 | the Upside Down's consequences cannot exit and keep fragments and visited universes; charges change only through portal option 2, which adds one and moves to the lab |
| StrangerThings.ByersHouseEffect | universes/stranger_things.py:812-938 | the Byers house's consequences cannot exit, keeps charges, fragments and visited universes, and any move stays in a registered scene; offering help adds 15 morality and 25 reputation |
| StrangerThings.SceneConsequences | universes/stranger_things.py:143-202 | no scene offers the exit among its own choices; each scene's list length, and its 4th choice exactly when the item or reputation it depends on is present; an unknown scene offers nothing |
| StrangerThings.EffectKeepsStatsInRange | universes/stranger_things.py:264-937 | no consequence takes morality or memory sync out of 0..100 |
| StrangerThings.Respond | universes/stranger_things.py:204-225 | an id not offered changes nothing and returns the current scene; fragments and visited universes are kept |
| StrangerThings.RespondKeepsStatsInRange | universes/stranger_things.py:204-225 | `handle_choice` keeps morality and memory sync in 0..100 |
| StrangerThings.RespondExit | universes/stranger_things.py:939-948 | "exit" is returned iff the exit choice is confirmed; declining changes nothing; other turns never lose a charge |
| StrangerThings.RespondKeepsChargesNonNegative | universes/stranger_things.py:939-948 | charges never become negative through a turn |
| StrangerThings.EntryEffect | universes/stranger_things.py:79-129 | marks the universe visited and keeps its reputation, fragments and charges |
| StrangerThings.StrangerThingsUniverse.constructor | universes/stranger_things.py:27-77 | starts in "awakening" with all five scenes unvisited |
| StrangerThings.StrangerThingsUniverse.ShowSceneDescription | universes/stranger_things.py:131-141 | clears the scene's first-visit flag and leaves the scene pointer |
| StrangerThings.StrangerThingsUniverse.ChangeScene | universes/stranger_things.py:256-261 | moves to the scene, clears its flag and returns its id |
| StrangerThings.StrangerThingsUniverse.OnEntry | universes/stranger_things.py:79-129 | the player changes as `EntryEffect` says and "awakening" is marked shown |
| StrangerThings.StrangerThingsUniverse.OnExit | universes/stranger_things.py:227-253 | the fragment is held afterwards, added only if absent; the tier follows the reputation |
| StrangerThings.StrangerThingsUniverse.Perform | universes/stranger_things.py:264-948 | running a consequence in place equals its `Effect` followed by `Settle` |
| StrangerThings.StrangerThingsUniverse.PerformInAwakening | universes/stranger_things.py:264-320 | running one of the awakening scene's consequences in place equals `AwakeningEffect` followed by `Settle` |
| StrangerThings.StrangerThingsUniverse.PerformInHawkinsTown | universes/stranger_things.py:321-458 | running one of Hawkins town's consequences in place equals `HawkinsTownEffect` followed by `Settle` |
| StrangerThings.StrangerThingsUniverse.PerformInHawkinsLab | universes/stranger_things.py:459-624 | running one of the lab's consequences in place equals `HawkinsLabEffect` followed by `Settle` |
| StrangerThings.StrangerThingsUniverse.PerformInUpsideDown | universes/stranger_things.py:625-804 | running one of the Upside Down's consequences in place equals `UpsideDownEffect` followed by `Settle` |
| StrangerThings.StrangerThingsUniverse.PerformInByersHouse | universes/stranger_things.py:812-938 | running one of the Byers house's consequences in place equals `ByersHouseEffect` followed by `Settle` |
| StrangerThings.StrangerThingsUniverse.HandleChoice | universes/stranger_things.py:204-225 | the in-place `handle_choice` equals `Respond` |
| StrangerThings.PortalRecharge | universes/stranger_things.py:625-677 | from 0 charges, portal option 2 gives 1 charge and moves to the lab |
| Manager.UniverseId | core.py:191-195 | the derived id is never longer than the class name |
| Manager.RegisteredIds | core.py:191-195 | the three classes are registered as "peakyblinders", "mcu" and "strangerthings" |
| Manager.PeakyBlindersId | core.py:194 | "PeakyBlindersUniverse" gives "peakyblinders" |
| Manager.McuId | core.py:194 | "MCUUniverse" gives "mcu" |
| Manager.StrangerThingsId | core.py:194 | "StrangerThingsUniverse" gives "strangerthings" |
| Manager.RegistryIdIsDerived | core.py:191-195 | each class's registry id is the one derived from its class name |
| Manager.IdsAgainstKeys | core.py:194 | only the MCU's registry id equals the key it records its fragment under, and a registry id equals some universe's fragment key iff both are the MCU's |
| Manager.EntryEffectOf | core.py:169-171 | `on_entry` of any universe marks it visited and keeps fragments, charges and its reputation |
| Manager.RespondOf | core.py:177-179 | `handle_choice` of any universe keeps visited universes and adds at most that universe's own fragment |
| Manager.OnEntry | core.py:169-171 | dispatching `on_entry` behaves as the registered class's `on_entry` |
| Manager.HandleChoice | core.py:177-179 | dispatching `handle_choice` behaves as the registered class's `Respond` |
| Manager.OnExit | core.py:181-183 | dispatching `on_exit` leaves the universe's fragment held |
| Manager.Registry.Register | core.py:191-195 | the id then maps to the new object and other ids are unaffected; a new id is appended to the order; the order stays a duplicate-free listing |
| Manager.Registry.Get | core.py:197-199 | `None` exactly for an unregistered id |
| Manager.Registry.Available | core.py:201-204 | exactly the entries whose id is not among the fragments, in registration order |
| Manager.UniverseManager.constructor | core.py:188-189 | the registry starts empty |
| Manager.UniverseManager.RegisterUniverse | core.py:191-195 | a fresh object of the class is registered under the id derived from its class name, with fresh scenes |
| Manager.UniverseManager.GetUniverse | core.py:197-199 | the lookup agrees with `Registry.Get` and returns one of the manager's objects |
| Manager.UniverseManager.GetAvailableUniverses | core.py:201-204 | exactly the registered universes whose id is not among the fragments, each with its own object; the order is the registration order with the fragment ids filtered out |
| Manager.UniverseManager.Sceneries | core.py:188-199 | the scenery of each registered universe object, one per registered id and no other |
| SaveManager.SlotNames | save_manager.py:312 | the numbered slots are "1", "2" and "3" |
| SaveManager.SaveFileName | save_manager.py:73-81 | "autosave" maps to autosave.json; any other slot has a file name iff it parses as an integer |
| SaveManager.SlotOfFileName | save_manager.py:37-48 | a file name maps to a slot only if the slot is "1", "2", "3" or "autosave" |
| SaveManager.FoundSlots | save_manager.py:29-52 | every slot `get_save_files` reports is "1", "2", "3" or "autosave" |
| SaveManager.SaveNameSplit | save_manager.py:41 | the two splits recover the slot text from "save_N.json" |
| SaveManager.NumberedFileRoundTrip | save_manager.py:37-45 | "save_N.json" maps back to slot N when 1 <= N <= 3 and to nothing otherwise |
| SaveManager.AutosaveFileOnly | save_manager.py:46-48 | only "autosave.json" maps to the autosave slot |
| SaveManager.NumberedSaveFileName | save_manager.py:77-78 | saving to slot N writes "save_N.json" |
| SaveManager.SaveFiles.Put | save_manager.py:43 | the slot maps to the path afterwards; the order stays a listing of the slots |
| SaveManager.SaveFilesOf | save_manager.py:29-52 | every slot found maps to a listed file that names it, and every listed file that names a slot has that slot present |
| SaveManager.FirstFileAt | save_manager.py:36-43 | the position of the first listed file of a slot: that file names the slot and no earlier one does, or the listing's length when none does |
| SaveManager.LastFileAt | save_manager.py:36-43 | the position of the last listed file of a slot: that file names the slot and no later one does, or -1 when none does |
| SaveManager.FirstFileInPrefix | save_manager.py:36-43 | a prefix of the listing holds the slot's first file iff it lists a file of the slot, and then at the same position |
| SaveManager.SaveFilesHaveSlot | save_manager.py:29-52 | a slot is among the save files iff some listed file names it |
| SaveManager.FirstFileKept | save_manager.py:36-43 | a file listed after the others moves no earlier slot's first file |
| SaveManager.SaveFilesLastWins | save_manager.py:36-43 | under each slot is its last listed file: a later file of the same slot overwrites the dict entry |
| SaveManager.SaveFilesInFirstOrder | save_manager.py:29-52 | the slots come in the order their first files are listed |
| SaveManager.NewSlotComesLast | save_manager.py:36-43 | a slot first named by the last listed file is appended to the order, and that file is its first |
| SaveManager.GetSaveFiles | save_manager.py:29-52 | the loop over the listing builds `SaveFilesOf` |
| SaveManager.ExtractSaveInfo | save_manager.py:193-213 | the fragment count is the length of the fragment list and the date is the one passed; a stored state with no fields gives memory sync 0, morality 50, 0 charges and empty lists and reputation |
| SaveManager.SummaryOfSnapshot | save_manager.py:193-213 | for a saved state, the summary shows its stats and fragment count, and the incomplete list is exactly visited minus completed without repeats |
| SaveManager.IncompleteUniverses | save_manager.py:240 | exactly the visited universes whose fragment is not collected, never more than were visited, without repeats when the visited list has none |
| SaveManager.SummaryChargesDefault | save_manager.py:197 | missing charges show as 0 in the summary but load as 5 |
| SaveManager.LoadResult | save_manager.py:109-137 | a slot loads iff it has a file that reads; then the state is `from_dict` of the stored dictionary (see `SaveThenLoad`) |
| SaveManager.ViewOf | save_manager.py:152-188 | a slot shows as empty iff it has no file, and as an error iff its file cannot be read |
| SaveManager.FirstFreeSlot | save_manager.py:311-315 | finds a numbered slot without a file, or reports that all of them have one |
| SaveManager.Oldest | save_manager.py:317-338 | the scan answers its starting slot or a numbered slot from the listing |
| SaveManager.QuickSaveSlot | save_manager.py:298-338 | see the three lemmas below |
| SaveManager.QuickSaveSlotNumbered | save_manager.py:298-338 | quick save always targets "1", "2" or "3", never autosave |
| SaveManager.FirstFreeFrom | save_manager.py:311-315 | the first free slot is the lowest-numbered empty one |
| SaveManager.QuickSaveFillsGap | save_manager.py:311-315 | with an empty numbered slot, quick save targets the lowest-numbered one |
| SaveManager.OldestIsOldest | save_manager.py:317-338 | when every slot reads, the scan's slot has a timestamp no later than any other |
| SaveManager.QuickSaveOverwritesOldest | save_manager.py:317-338 | with all three slots readable, quick save overwrites one with the smallest timestamp |
| SaveManager.OldestFirstOfEqual | save_manager.py:317-338 | the scan keeps its starting slot only when no listed slot is strictly older; otherwise it takes a slot strictly older than every numbered slot listed before it |
| SaveManager.EarliestPastHead | save_manager.py:329-331 | a slot the scan settles on past the first entry, when older than that entry, is one it settles on from there |
| SaveManager.QuickSaveTieBreak | save_manager.py:329-338 | with all three slots readable, every numbered slot listed before the one quick save overwrites is strictly newer, so among equal oldest timestamps the first listed is taken |
| SaveManager.NumberedStamped | save_manager.py:311-326 | with all three numbered slots readable, no slot is free and every numbered slot listed reads |
| SaveManager.EarliestIsFirst | save_manager.py:329-331 | a slot strictly older than every earlier numbered one is at its first position in the listing |
| SaveManager.OldestTakesUnreadable | save_manager.py:324-328 | an unreadable slot met by the scan is taken |
| SaveManager.QuickSaveReplacesUnreadable | save_manager.py:317-338 | with all slots full and one unreadable, quick save overwrites an unreadable one |
| SaveManager.AutosaveThenLoad | save_manager.py:96-137 | after an autosave, loading "autosave" gives back the saved state |
| SaveManager.SaveThenLoad | save_manager.py:54-137 | after saving to slot N, loading N gives back the saved state, unless another listed file also names N |
| SaveManager.DeleteEmptiesSlot | save_manager.py:245-268 | after a delete the slot is empty iff no other file names it, and then loading it fails |
| SaveManager.LatestSaveUnique | save_manager.py:270-296 | the latest save is determined by the files and the listing order |
| SaveManager.ScanLatest | save_manager.py:280-296 | the loop finds no slot iff no readable file has a timestamp above 0; otherwise a slot with the greatest timestamp, the first such in listing order |
| SaveManager.ScanOldest | save_manager.py:317-338 | the oldest-slot loop computes `Oldest` |
| SaveManager.SaveStore.SaveGame | save_manager.py:54-94 | succeeds iff the slot is "autosave" or parses as an integer; then that file, and only it, holds the timestamp, datetime and a snapshot of the state; otherwise nothing changes |
| SaveManager.SaveStore.Autosave | save_manager.py:96-107 | always writes autosave.json with the current state |
| SaveManager.SaveStore.LoadGame | save_manager.py:109-137 | `None` iff the slot has no file or an unreadable one; otherwise a new state from `from_dict` of the saved dictionary (empty if absent) |
| SaveManager.SaveStore.ShowSaveSlots | save_manager.py:139-191 | the listing is `SlotMenu`: exactly one entry for each of "1".."3", one for autosave only when its file exists, each as `ViewOf` says |
| SaveManager.SaveStore.ShowNumberedSlots | save_manager.py:151-169 | the loop over 1..`MAX_SAVES` gives exactly slots "1".."3", each as `ViewOf` says |
| SaveManager.SaveStore.ViewSlot | save_manager.py:152-188 | the entry read from one slot's file is the one `ViewOf` prescribes |
| SaveManager.SaveStore.DeleteSave | save_manager.py:245-268 | succeeds iff the slot's listed file exists; exactly that file is removed, otherwise nothing changes |
| SaveManager.SaveStore.GetLatestSave | save_manager.py:270-296 | the answer satisfies `LatestSave` |
| SaveManager.SaveStore.QuickSave | save_manager.py:298-338 | writes the state to the slot `QuickSaveSlot` chooses, changing nothing else |
| Game.CheckGameEndConditions | main.py:228-245 | "key_fragments" iff enough fragments; else "charges" iff no charge; else "memory_sync" iff memory sync >= 100 |
| Game.NoEndingMeansPlayable | main.py:228-245 | no ending iff fragments are missing, a charge is left and memory sync is below 100 |
| Game.AllFragmentsEndTheGame | main.py:234-235 | the three fragments end the game with "key_fragments", whatever the charges |
| Game.InitializeGame | main.py:28-41 | registers Peaky Blinders, the MCU and Stranger Things under "peakyblinders", "mcu" and "strangerthings" in that order, each of its own class, newly made and in its starting scene with every scene still unvisited |
| Game.RegisterThree | core.py:191-195 | registering three distinct ids on an empty registry lists them in that order and maps each to its object |
| Game.RegisterNew | core.py:191-195 | registering an unregistered id appends it to the order and adds its entry |
| Game.KeysMissPeakyAndStranger | core.py:194-204 | "peakyblinders" and "strangerthings" are not among the three fragment keys |
| Game.CompletedUniversesStayAvailable | core.py:201-204 | with all three fragments, Peaky Blinders and Stranger Things are still listed as available |
| Game.HubActionOf | main.py:156-181 | options up to n enter a universe |
| Game.HubNumbering | main.py:156-175 | 1..n enter the universes in registration order; n+1 saves, n+2 quick-saves, n+3 exits to the menu |
| Game.ShowMultiverseHub | main.py:156-226 | without charges entry returns "no_charges" and saves nothing; a confirmed entry autosaves and returns the id; save, quick save and exit behave as written; a declined confirmation returns ""; the answer is `HubSelection` |
| Game.NonEmptyNumbered | main.py:58-64 | the non-empty numbered slots, ascending, each exactly once |
| Game.LoadMenuMax | main.py:82 | the highest option is 0 exactly when no autosave and no numbered slot holds a file |
| Game.LoadSelection | main.py:66-96 | 0 picks nothing; 1..k pick the non-empty numbered slots in order; k+1 picks the autosave when it exists; only non-empty slots are picked |
| Game.LoadMenuPick | main.py:84-100 | nothing is picked exactly when the menu is empty, on 0 or out of range; a pick names a listed slot with a file |
| Game.LoadExistingGame | main.py:50-101 | with no saves, option 0 or an answer out of range nothing loads; otherwise the picked slot loads exactly when `LoadResult` has a state for it, which is the state returned |
| Game.StartGame | main.py:306-330 | a new game is the new-game state, autosaved; loading a picked slot that loads gives its `LoadResult` with the files untouched, anything else a new autosaved game; continuing loads the latest save, falling back to a new autosaved game when none loads |
| Game.PlayTurns | main.py:261-292 | a run stops at the first "exit" or when the turns run out (then all were played), keeps visited universes and gains at most this universe's fragment |
| Game.PlayTurn | main.py:261-292 | a turn counts as played: at least one turn and never more than supplied |
| Game.ReplyThenRest | main.py:278-292 | after the reply to the first turn, the rest of the run plays fewer turns than supplied, all the remaining ones unless it left |
| Game.PlayTurnsStep | main.py:261-292 | a run from turn i is the reply to turn i followed by the run from turn i+1 unless it was "exit", with the later of their autosaves |
| Game.AfterVisit | main.py:281-283 | `on_exit` after "exit" adds exactly the universe's fragment; otherwise the record is the run's; visited universes are kept |
| Game.VisitOutcome | main.py:254-286 | a visit marks the universe visited, gains at most its own fragment, and a visit left through "exit" holds it |
| Game.PeakyExitAwardsOnce | main.py:283 | after Peaky Blinders' own exit, the second `on_exit` changes nothing |
| Game.SavedAsAgain | main.py:258-290 | two rounds of autosaving leave the later autosave in the file and every other file as it was |
| Game.ProgressStep | main.py:261-292 | turn i either ends the run there with its own autosave, or the run goes on from its reply with the autosaves so far |
| Game.ProgressDone | main.py:261-292 | a loop that stopped on "exit" or with no turn left has done what `TurnsEffect` says for the whole run |
| Game.PlayTurnsLoop | main.py:261-292 | the turn loop ends where `PlayTurns` ends, the player as `AfterVisit` says, and only the autosave file changes, holding the run's last autosave (the exit one, of the final record, when it left) |
| Game.LoopTurn | main.py:261-292 | one pass keeps the loop invariant: the run seen so far plus the rest from where it stands is the whole run |
| Game.PlayOneTurn | main.py:278-290 | scenes and record move as `Respond` says; it leaves iff the reply is "exit", and then holds the fragment; the autosave file then holds the state on leaving or when the draw is below 0.2, and nothing changes otherwise |
| Game.FinishTurn | main.py:281-290 | on leaving, `on_exit` adds the fragment and the autosave holds the new state; otherwise the record is kept, the autosave is written iff the draw is below 0.2 and nothing changes otherwise |
| Game.PlayVisit | main.py:254-292 | `on_entry`, the entry autosave of its record and the turn loop together do what `VisitEffect` says: the autosave file ends holding the turns' last autosave, or the entry one if they wrote none |
| Game.VisitFromTurns | main.py:254-292 | a visit is its entry, with the entry autosave, followed by its turns |
| Game.EnterUniverse | main.py:247-292 | the registry is unchanged; an unknown id changes nothing, no scenery included; otherwise the visit does what `VisitEffect` says, the entry autosave and the per-turn autosaves included, and the sceneries move as `Moved` says: the visited object's scenery is the one the visit left, every other universe keeps its own |
| Game.Moved | core.py:191-199 | after a visit of the object registered as `id`, that id sees the new scenery and every id holding another object keeps its scenery; the ids are the same |
| Game.VisitMovesScenery | core.py:197-199 | while only the visited object changes, the manager's sceneries are `Moved` from the old ones |
| Game.RunSession | main.py:338-365 | the registry is unchanged; the trace records each pass: each is what its step does from the record and the universe sceneries the previous one left, starting from the session's own and ending at those the manager holds, so a universe re-entered resumes from the scene it was left in; no pass but the last ended the session and the last decides how it ended ("exit_to_menu" to the menu, "no_charges" the charges ending, a visit with an ending that game over); running out of turns happens exactly when every step was played without an end; every other end leaves the final state in the autosave |
| Game.VisitThenCheck | main.py:355-360 | an unknown id changes nothing; a known one plays the visit as `VisitEffect` says and moves only that universe's scenery (`Moved`); the ending reported is `check_game_end_conditions` of the resulting state |
| Game.StepEnd | main.py:343-365 | a pass ends the session back at the menu exactly on "exit_to_menu"; an end is never running out of turns |
| Game.EnteredPass | main.py:355-360 | a pass that entered a universe is what its step does, once the visit's effect from the universe's own scenery, and the sceneries it moved, are known |
| Game.QuietPass | main.py:345-354 | a pass that entered no universe, changing neither the record nor any scenery, is what its step does |
| Game.SessionPass | main.py:340-365 | one pass is what its step does (`PassFacts`), recorded from the state and the sceneries the manager held before it to those it holds after; it ends the session as `StepEnd` says, and every end leaves the state in the autosave; a game over only when an end condition holds, "no_charges" only without a charge |
| Game.VisitPass | main.py:355-365 | after an entry, the visit from the universe's current scenery and the ending check, recorded from the manager's sceneries before to those after; an ending autosaves the state and is the game over |
| Game.LeavePass | main.py:345-354 | after "exit_to_menu" or "no_charges" the autosave and the end of the session (the charges ending, only without a charge); after "" nothing; no scenery changes |
| Game.SaveOnLeaving | main.py:346-352 | the autosave writes the state to the autosave slot and changes no universe's scenery |
| Game.PlayedOneMore | main.py:340-365 | a trace of passes grows by the next step's pass taken from the record and the sceneries the last one left |

## Left out

- Terminal output, colours, narration text, `clear_screen`, sleeping and the `characters` tables are not modelled; the model tracks state only.
- The prompts' retry loops (`get_numeric_input`, `confirm_action`) are replaced by their answers as parameters. The hub's option range is a precondition of `Game.ShowMultiverseHub`, as the retry loop guarantees.
- Game.LoadExistingGame: an out-of-range selection returns `None`, where the source asks again.
- Game.PlayTurns: the turn's choice id is not limited to 1..len(choices); `handle_choice` ignores other ids anyway.
- Random draws (`random.random`, `random.choice`) are inputs; probabilities are not modelled. A `random.choice` index is taken modulo the list length.
- `time.time()` and `time.strftime` are the parameters `now` and `datetime`; timestamps are `real`, and NaN or infinite values are not modelled.
- The file system is a map from file name to contents, without JSON encoding. The directory listing order is a parameter. `ensure_save_directory`, the `OSError` paths and write failures are not modelled.
- SaveManager.SaveStore.SaveGame: does not model a failing write, which makes the source return false.
- A JSON field of the wrong type is not modelled; each field is either present with the right type or missing.
- Text.ParseInt: accepts an optional sign and ASCII digits only, whereas Python's `int()` also accepts surrounding whitespace, underscores and non-ASCII digits. The game never produces such file names or slots.
- Text.Lower: lowers ASCII letters only, which is all the class names contain.
- SaveManager.ScanOldest: returns the slot and lets `QuickSave` write it, where the source writes inside the loop on an unreadable slot; the written file is the same.
- The main loop's menu options 4 (about) and 5 (`sys.exit`) and the top-level exception handling are not modelled.
- Game.EnterUniverse / Game.PlayTurns / Game.VisitPass: a visit's turns are a finite list. A visit that runs out of them without "exit" returns to the hub (no exit autosave, no `on_exit`), where the source's `while True` loop keeps asking for a choice.
- Game.RunSession: the session loop runs over a finite list of steps and reports `OutOfTurns` when they run out; the source loops until an ending or the menu.
- The `Universe` base class is not a trait; `UniverseRef` dispatches to the three classes.
- Display-only functions (`display_stats`, `list_universes`, `_display_save_info` and `_display_save_details` apart from its incomplete-universe filter) are not modelled.
