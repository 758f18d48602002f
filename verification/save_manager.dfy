/**
 * The save system (save_manager.py): three numbered slots and an autosave
 * slot, each a JSON file in the saves directory holding a timestamp, a
 * printable date and the player's `to_dict` snapshot.
 *
 * `SaveStore` is the directory: a map from file name to what reading the file
 * gives. The order in which `os.listdir` names the files is chosen by the
 * operating system, so every operation that lists the directory takes that
 * order (`listing`) as a parameter; the clock readings are parameters too.
 */
module SaveManager {
  import opened Wrappers
  import opened Text
  import opened Player

  /** Number of numbered slots. */
  const MaxSaves := 3

  /** The name of the special slot written at key points of play. */
  const AutosaveSlot := "autosave"

  const AutosaveFileName := "autosave.json"

  /** What a slot summary shows for a file without a date. */
  const UnknownDate := "Unknown date"

  /** `str(n)`: the name of numbered slot `n`. */
  function SlotName(n: int): string {
    IntToString(n)
  }

  /** The numbered slots are named "1", "2" and "3". */
  lemma SlotNames()
    ensures SlotName(1) == "1" && SlotName(2) == "2" && SlotName(3) == "3"
  {
  }

  /** The file `save_game` writes for a slot: `None` when the slot is neither "autosave" nor an integer. */
  function SaveFileName(slot: string): (name: Option<string>)
    ensures slot == AutosaveSlot ==> name == Some(AutosaveFileName)
    ensures slot != AutosaveSlot ==> (name.Some? <==> ParseInt(slot).Some?)
  {
    if slot == AutosaveSlot then Some(AutosaveFileName)
    else
      match ParseInt(slot)
      case None => None
      case Some(n) => Some("save_" + IntToString(n) + ".json")
  }

  /**
   * The slot `get_save_files` files a directory entry under: "save_<n>.json"
   * with `n` from 1 to 3 under `str(n)`, "autosave.json" under "autosave",
   * anything else under none.
   */
  function SlotOfFileName(name: string): (slot: Option<string>)
    ensures slot.Some? ==> slot.value in {SlotName(1), SlotName(2), SlotName(3), AutosaveSlot}
  {
    if !EndsWith(name, ".json") then None
    else if StartsWith(name, "save_") then
      assert name[4] == name[..5][4] == '_';
      var parts := Split(name, '_');
      var n := ParseInt(Split(parts[1], '.')[0]);
      if n.Some? && 1 <= n.value <= MaxSaves then Some(SlotName(n.value)) else None
    else if name == AutosaveFileName then Some(AutosaveSlot)
    else None
  }

  /** "save_<s>.json" passes both name tests of `get_save_files`. */
  lemma SaveNameShape(s: string)
    ensures EndsWith("save_" + s + ".json", ".json")
    ensures StartsWith("save_" + s + ".json", "save_")
  {
    var name := "save_" + s + ".json";
    assert name[|name| - 5..] == ".json";
    assert name[..5] == "save_";
  }

  /** "save_<s>.json" cut at its two separators. */
  lemma SaveNameParts(s: string)
    ensures "save_" + s + ".json" == "save" + ['_'] + (s + ['.'] + "json")
  {
    assert ".json" == ['.'] + "json";
    assert "save_" == "save" + ['_'];
  }

  /** `filename.split('_')[1].split('.')[0]` of "save_<s>.json" is `s` when `s` has no '_' or '.'. */
  lemma SaveNameSplit(s: string)
    requires '_' !in s && '.' !in s
    ensures Split(Split("save_" + s + ".json", '_')[1], '.')[0] == s
  {
    SaveNameParts(s);
    var tail := s + ['.'] + "json";
    assert '_' !in tail;
    SplitAtFirst("save", '_', tail);
    SplitAtFirst(s, '.', "json");
  }

  /** The file written for slot `n` is listed under slot `n` exactly when `n` is 1, 2 or 3. */
  lemma NumberedFileRoundTrip(n: int)
    ensures SlotOfFileName("save_" + IntToString(n) + ".json") == (if 1 <= n <= MaxSaves then Some(SlotName(n)) else None)
  {
    var s := IntToString(n);
    SaveNameShape(s);
    SaveNameSplit(s);
    ParseIntOfIntToString(n);
  }

  /** "autosave.json" is the autosave file and not a numbered one. */
  lemma AutosaveNameShape()
    ensures EndsWith(AutosaveFileName, ".json")
    ensures !StartsWith(AutosaveFileName, "save_")
  {
    assert AutosaveFileName[..5][0] == 'a' != "save_"[0];
    assert AutosaveFileName[|AutosaveFileName| - 5..] == ".json";
  }

  /** The autosave slot holds exactly the file "autosave.json". */
  lemma AutosaveFileOnly(name: string)
    ensures SlotOfFileName(name) == Some(AutosaveSlot) <==> name == AutosaveFileName
  {
    AutosaveNameShape();
    if StartsWith(name, "save_") && SlotOfFileName(name).Some? {
      var v := SlotOfFileName(name).value;
      assert v == SlotName(1) || v == SlotName(2) || v == SlotName(3);
      assert AllDigits(v);
      assert v[0] != AutosaveSlot[0];
    }
  }

  /** `save_game` of a numbered slot writes "save_<n>.json". */
  lemma NumberedSaveFileName(n: nat)
    ensures SaveFileName(SlotName(n)) == Some("save_" + SlotName(n) + ".json")
  {
    ParseIntOfIntToString(n);
    assert SlotName(n)[0] != AutosaveSlot[0];
  }

  /** `save_files`: the slots found, in the order they were first found, and the file under each. */
  datatype SaveFiles = SaveFiles(order: seq<string>, paths: map<string, string>)
  {
    predicate Valid() {
      Enumerates(order, paths.Keys)
    }

    /** `save_files[slot] = path`: a new slot goes to the end; a slot found again keeps its place and takes the later file. */
    function Put(slot: string, path: string): (g: SaveFiles)
      ensures Valid() ==> g.Valid()
      ensures g.paths == paths[slot := path]
    {
      SaveFiles(if slot in paths then order else order + [slot], paths[slot := path])
    }
  }

  /** The position of the first listed file of `slot`, or `|listing|` when none is listed. */
  function FirstFileAt(listing: seq<string>, slot: string): (p: nat)
    ensures p <= |listing|
    ensures p < |listing| ==> SlotOfFileName(listing[p]) == Some(slot)
    ensures forall q :: 0 <= q < p ==> SlotOfFileName(listing[q]) != Some(slot)
  {
    if listing == [] then 0
    else if SlotOfFileName(listing[0]) == Some(slot) then 0
    else 1 + FirstFileAt(listing[1..], slot)
  }

  /** The position of the last listed file of `slot`, or -1 when none is listed. */
  function LastFileAt(listing: seq<string>, slot: string): (p: int)
    ensures -1 <= p < |listing|
    ensures p >= 0 ==> SlotOfFileName(listing[p]) == Some(slot)
    ensures forall q :: p < q < |listing| ==> SlotOfFileName(listing[q]) != Some(slot)
  {
    if listing == [] then -1
    else if SlotOfFileName(listing[|listing| - 1]) == Some(slot) then |listing| - 1
    else
      var prefix := listing[..|listing| - 1];
      assert forall q :: 0 <= q < |prefix| ==> prefix[q] == listing[q];
      LastFileAt(prefix, slot)
  }

  /**
   * What `get_save_files` builds from a directory listing: every slot some
   * listed file belongs to, and under it a listed file that belongs to it
   * (which one, and the order of the slots, `SaveFilesOrder` states).
   */
  function SaveFilesOf(listing: seq<string>): (sf: SaveFiles)
    ensures sf.Valid()
    ensures forall slot :: slot in sf.paths ==> sf.paths[slot] in listing && SlotOfFileName(sf.paths[slot]) == Some(slot)
    ensures forall i :: 0 <= i < |listing| && SlotOfFileName(listing[i]).Some? ==> SlotOfFileName(listing[i]).value in sf.paths
    decreases |listing|
  {
    if listing == [] then SaveFiles([], map[])
    else
      var prev := SaveFilesOf(listing[..|listing| - 1]);
      var name := listing[|listing| - 1];
      assert forall i :: 0 <= i < |listing| - 1 ==> listing[i] == listing[..|listing| - 1][i];
      match SlotOfFileName(name)
      case None => prev
      case Some(slot) => prev.Put(slot, name)
  }

  /** The first file of a slot in a listing lies in a prefix exactly when the prefix lists one. */
  lemma {:induction false} FirstFileInPrefix(listing: seq<string>, n: nat, slot: string)
    requires n <= |listing|
    ensures FirstFileAt(listing[..n], slot) < n ==> FirstFileAt(listing, slot) == FirstFileAt(listing[..n], slot)
    ensures FirstFileAt(listing[..n], slot) == n ==> FirstFileAt(listing, slot) >= n
  {
    assert forall q :: 0 <= q < n ==> listing[..n][q] == listing[q];
  }

  /** A slot is among the save files exactly when some listed file belongs to it. */
  lemma SaveFilesHaveSlot(listing: seq<string>, slot: string)
    ensures slot in SaveFilesOf(listing).paths <==> FirstFileAt(listing, slot) < |listing|
  {
    var sf := SaveFilesOf(listing);
    if slot in sf.paths {
      var k :| 0 <= k < |listing| && listing[k] == sf.paths[slot];
    }
  }

  /** Adding a file at the end of the listing moves no earlier slot's first file. */
  lemma FirstFileKept(listing: seq<string>, slot: string)
    requires listing != [] && slot in SaveFilesOf(listing[..|listing| - 1]).paths
    ensures FirstFileAt(listing, slot) == FirstFileAt(listing[..|listing| - 1], slot) < |listing| - 1
  {
    var n := |listing| - 1;
    SaveFilesHaveSlot(listing[..n], slot);
    FirstFileInPrefix(listing, n, slot);
  }

  /** Under each slot is the last listed file of that slot: a later file of the same slot overwrites the dict entry. */
  lemma {:induction false} SaveFilesLastWins(listing: seq<string>, slot: string)
    requires slot in SaveFilesOf(listing).paths
    ensures 0 <= LastFileAt(listing, slot) && SaveFilesOf(listing).paths[slot] == listing[LastFileAt(listing, slot)]
    decreases |listing|
  {
    var n := |listing| - 1;
    var prefix := listing[..n];
    if SlotOfFileName(listing[n]) != Some(slot) {
      assert SaveFilesOf(listing).paths[slot] == SaveFilesOf(prefix).paths[slot];
      SaveFilesLastWins(prefix, slot);
      assert LastFileAt(listing, slot) == LastFileAt(prefix, slot);
      assert prefix[LastFileAt(prefix, slot)] == listing[LastFileAt(prefix, slot)];
    }
  }

  /** The slots of `get_save_files` come in the order each slot's first file is listed. */
  lemma {:induction false} SaveFilesInFirstOrder(listing: seq<string>)
    ensures var sf := SaveFilesOf(listing);
      forall i, j :: 0 <= i < j < |sf.order| ==> FirstFileAt(listing, sf.order[i]) < FirstFileAt(listing, sf.order[j])
    decreases |listing|
  {
    if listing != [] {
      var n := |listing| - 1;
      var prefix := listing[..n];
      var prev, sf := SaveFilesOf(prefix), SaveFilesOf(listing);
      SaveFilesInFirstOrder(prefix);
      forall i | 0 <= i < |prev.order|
        ensures FirstFileAt(listing, prev.order[i]) == FirstFileAt(prefix, prev.order[i]) < n
      {
        FirstFileKept(listing, prev.order[i]);
      }
      if sf.order != prev.order {
        NewSlotComesLast(listing);
      }
    }
  }

  /** A slot first found in the listing's last file is appended, and that file is its first. */
  lemma NewSlotComesLast(listing: seq<string>)
    requires listing != [] && SaveFilesOf(listing).order != SaveFilesOf(listing[..|listing| - 1]).order
    ensures var slot := SlotOfFileName(listing[|listing| - 1]).value;
      && SaveFilesOf(listing).order == SaveFilesOf(listing[..|listing| - 1]).order + [slot]
      && FirstFileAt(listing, slot) == |listing| - 1
  {
    var n := |listing| - 1;
    var slot := SlotOfFileName(listing[n]).value;
    assert slot !in SaveFilesOf(listing[..n]).paths;
    SaveFilesHaveSlot(listing[..n], slot);
    FirstFileInPrefix(listing, n, slot);
  }

  /** `get_save_files`: one pass over the listing. */
  method GetSaveFiles(listing: seq<string>) returns (sf: SaveFiles)
    ensures sf == SaveFilesOf(listing)
  {
    sf := SaveFiles([], map[]);
    for i := 0 to |listing|
      invariant sf == SaveFilesOf(listing[..i])
    {
      assert listing[..i + 1][..i] == listing[..i];
      var slot := SlotOfFileName(listing[i]);
      if slot.Some? {
        sf := sf.Put(slot.value, listing[i]);
      }
    }
    assert listing[..|listing|] == listing;
  }

  /** The decoded top level of a save file; each key may be absent. */
  datatype SaveData = SaveData(timestamp: Option<real>, datetime: Option<string>, playerState: Option<StateDict>)

  /** What opening and decoding a file gives: its data, or an error (unreadable or not JSON). */
  datatype FileContent = Unreadable | Saved(data: SaveData)

  /** A missing file fails to open like an unreadable one. */
  function ReadFile(files: map<string, FileContent>, path: string): FileContent {
    if path in files then files[path] else Unreadable
  }

  /** `save_data.get("timestamp", 0)` of a slot's file, or `None` when the file cannot be read. */
  function SlotStamp(files: map<string, FileContent>, sf: SaveFiles, slot: string): Option<real> {
    if slot !in sf.paths then None
    else
      match ReadFile(files, sf.paths[slot])
      case Unreadable => None
      case Saved(data) => Some(data.timestamp.GetOr(0.0))
  }

  /** The slot's file can be read and its timestamp is above `t`. */
  predicate StampedAfter(files: map<string, FileContent>, sf: SaveFiles, slot: string, t: real) {
    SlotStamp(files, sf, slot).Some? && SlotStamp(files, sf, slot).value > t
  }

  /** The slot's file can be read and its timestamp is at least `t`. */
  predicate StampedAtLeast(files: map<string, FileContent>, sf: SaveFiles, slot: string, t: real) {
    SlotStamp(files, sf, slot).Some? && SlotStamp(files, sf, slot).value >= t
  }

  /**
   * `files` is `before` with file `name` (re)written by `save_game` for the
   * record `r` at clock reading `now`, and nothing else changed.
   */
  predicate Wrote(files: map<string, FileContent>, before: map<string, FileContent>, name: string,
                  r: PlayerRecord, now: real, datetime: string)
  {
    && name in files
    && files == before[name := files[name]]
    && files[name].Saved?
    && files[name].data.timestamp == Some(now)
    && files[name].data.datetime == Some(datetime)
    && files[name].data.playerState.Some?
    && IsSnapshotOf(files[name].data.playerState.value, r)
  }

  /**
   * `load_game`: no state for a slot without a listed file or whose file
   * cannot be read; otherwise `from_dict` of its `player_state`, an absent one
   * read as `{}`.
   */
  function LoadResult(files: map<string, FileContent>, listing: seq<string>, slot: string): (loaded: Option<PlayerRecord>)
    ensures loaded.Some? <==> SlotStamp(files, SaveFilesOf(listing), slot).Some?
  {
    var sf := SaveFilesOf(listing);
    if slot !in sf.paths then None
    else
      match ReadFile(files, sf.paths[slot])
      case Unreadable => None
      case Saved(data) => Some(FromDict(data.playerState.GetOr(EmptyDict)))
  }

  /** What `_extract_save_info` returns for one slot. */
  datatype SaveInfo = SaveInfo(
    datetime: string,
    memorySync: int,
    morality: int,
    charges: int,
    fragments: seq<string>,
    fragmentCount: nat,
    visited: seq<string>,
    inventory: seq<string>,
    reputation: map<string, int>)

  /**
   * `_extract_save_info`: the fields of a stored `player_state`, each absent
   * one replaced by its default. Charges default to 0 here, not to the 5
   * `from_dict` uses.
   */
  function ExtractSaveInfo(d: StateDict, datetime: string): (info: SaveInfo)
    ensures info.fragmentCount == |info.fragments|
    ensures info.datetime == datetime
    // a stored state with no fields at all summarises as the defaults
    ensures d == EmptyDict ==> info == SaveInfo(datetime, 0, 50, 0, [], 0, [], [], map[])
  {
    var fragments := d.keyFragments.GetOr([]);
    SaveInfo(datetime, d.memorySync.GetOr(0), d.morality.GetOr(50), d.fractureKeyCharges.GetOr(0),
             fragments, |fragments|, d.visitedUniverses.GetOr([]), d.inventory.GetOr([]), d.reputation.GetOr(map[]))
  }

  /** `_display_save_details`: the visited universes whose fragment is not collected, in visited order. */
  function IncompleteUniverses(info: SaveInfo): (incomplete: seq<string>)
    ensures forall x :: x in incomplete <==> x in info.visited && x !in info.fragments
    ensures |incomplete| <= |info.visited|
    ensures Distinct(info.visited) ==> Distinct(incomplete)
  {
    FilterOut(info.visited, SetOf(info.fragments))
  }

  /** The summary of a snapshot shows the state it was taken from. */
  lemma SummaryOfSnapshot(d: StateDict, r: PlayerRecord, datetime: string)
    requires IsSnapshotOf(d, r)
    ensures var info := ExtractSaveInfo(d, datetime);
      && info.memorySync == r.memorySync
      && info.morality == r.morality
      && info.charges == r.fractureKeyCharges
      && info.fragmentCount == |r.keyFragments|
      && SetOf(info.fragments) == r.keyFragments
      && SetOf(IncompleteUniverses(info)) == r.visitedUniverses - r.keyFragments
      && Distinct(IncompleteUniverses(info))
  {
    EnumeratesCard(d.keyFragments.value, r.keyFragments);
  }

  /** A stored state without a charge count shows 0 charges, yet loads with 5. */
  lemma SummaryChargesDefault(d: StateDict, datetime: string)
    requires d.fractureKeyCharges.None?
    ensures ExtractSaveInfo(d, datetime).charges == 0
    ensures FromDict(d).fractureKeyCharges == DefaultCharges == 5
  {
  }

  /** One line of `show_save_slots`. */
  datatype SlotView = EmptySlot | ReadError | Summary(info: SaveInfo)

  /** The slots `show_save_slots` lists: the three numbered ones, and the autosave only when it has a file. */
  function ShownSlots(sf: SaveFiles): set<string> {
    {"1", "2", "3"} + (if AutosaveSlot in sf.paths then {AutosaveSlot} else {})
  }

  /** The listing `show_save_slots` builds: each shown slot with its entry. */
  function SlotMenu(files: map<string, FileContent>, sf: SaveFiles): map<string, SlotView> {
    map slot | slot in ShownSlots(sf) :: ViewOf(files, sf, slot)
  }

  /** A listing with the shown slots as keys and each slot's own entry is the whole `SlotMenu`. */
  lemma SlotMenuFromEntries(info: map<string, SlotView>, files: map<string, FileContent>, sf: SaveFiles)
    requires info.Keys == ShownSlots(sf)
    requires forall slot :: slot in info ==> info[slot] == ViewOf(files, sf, slot)
    ensures info == SlotMenu(files, sf)
  {
  }

  /** `show_save_slots`' entry for a slot: empty, an error, or the summary of its file. */
  function ViewOf(files: map<string, FileContent>, sf: SaveFiles, slot: string): (v: SlotView)
    ensures v.EmptySlot? <==> slot !in sf.paths
    ensures v.ReadError? <==> slot in sf.paths && SlotStamp(files, sf, slot).None?
  {
    if slot !in sf.paths then EmptySlot
    else
      match ReadFile(files, sf.paths[slot])
      case Unreadable => ReadError
      case Saved(data) => Summary(ExtractSaveInfo(data.playerState.GetOr(EmptyDict), data.datetime.GetOr(UnknownDate)))
  }

  /** The names of the numbered slots 1 .. n-1. */
  function SlotsBelow(n: int): set<string>
    decreases n
  {
    if n <= 1 then {} else SlotsBelow(n - 1) + {SlotName(n - 1)}
  }

  /** The slot `quick_save` tries first: the lowest-numbered one without a file. */
  function FirstFreeSlot(sf: SaveFiles, n: int): (slot: Option<string>)
    ensures slot.Some? ==> exists k :: n <= k <= MaxSaves && slot.value == SlotName(k) && slot.value !in sf.paths
    ensures slot.None? ==> forall k :: n <= k <= MaxSaves ==> SlotName(k) in sf.paths
    decreases MaxSaves + 1 - n
  {
    if n > MaxSaves then None
    else if SlotName(n) !in sf.paths then Some(SlotName(n))
    else FirstFreeSlot(sf, n + 1)
  }

  /**
   * The scan for the oldest save in `quick_save`, over the slots still to
   * visit: the autosave slot is skipped, the first unreadable file is taken
   * at once, otherwise a strictly older timestamp replaces the best so far
   * (`bestTime` `None` stands for infinity).
   */
  function Oldest(files: map<string, FileContent>, sf: SaveFiles, rest: seq<string>, best: string, bestTime: Option<real>): (slot: string)
    ensures slot == best || (slot in rest && slot != AutosaveSlot)
  {
    if rest == [] then best
    else if rest[0] == AutosaveSlot then Oldest(files, sf, rest[1..], best, bestTime)
    else
      match SlotStamp(files, sf, rest[0])
      case None => rest[0]
      case Some(t) =>
        if bestTime.None? || t < bestTime.value then Oldest(files, sf, rest[1..], rest[0], Some(t))
        else Oldest(files, sf, rest[1..], best, bestTime)
  }

  /** The slot `quick_save` writes: the first free numbered slot, else the oldest (or first unreadable) one, else "1". */
  function QuickSaveSlot(files: map<string, FileContent>, listing: seq<string>): string {
    var sf := SaveFilesOf(listing);
    match FirstFreeSlot(sf, 1)
    case Some(slot) => slot
    case None => Oldest(files, sf, sf.order, "1", None)
  }

  /** Quick save never writes the autosave slot: its target is "1", "2" or "3". */
  lemma {:induction false} QuickSaveSlotNumbered(files: map<string, FileContent>, listing: seq<string>)
    ensures QuickSaveSlot(files, listing) in {"1", "2", "3"}
  {
    SlotNames();
    var sf := SaveFilesOf(listing);
    if FirstFreeSlot(sf, 1).None? {
      var slot := Oldest(files, sf, sf.order, "1", None);
      if slot != "1" {
        assert slot in sf.order;
        assert SlotOfFileName(sf.paths[slot]) == Some(slot);
      }
    }
  }

  /** Scanning from slot `m`, the first free slot is the lowest-numbered free one from `m` on. */
  lemma {:induction false} FirstFreeFrom(sf: SaveFiles, m: int, n: int)
    requires m <= n <= MaxSaves
    requires SlotName(n) !in sf.paths
    requires forall k :: m <= k < n ==> SlotName(k) in sf.paths
    ensures FirstFreeSlot(sf, m) == Some(SlotName(n))
    decreases n - m
  {
    if m < n {
      FirstFreeFrom(sf, m + 1, n);
    }
  }

  /** With a numbered slot free, quick save fills the lowest-numbered free one. */
  lemma QuickSaveFillsGap(files: map<string, FileContent>, listing: seq<string>, n: int)
    requires 1 <= n <= MaxSaves
    requires SlotName(n) !in SaveFilesOf(listing).paths
    requires forall k :: 1 <= k < n ==> SlotName(k) in SaveFilesOf(listing).paths
    ensures QuickSaveSlot(files, listing) == SlotName(n)
  {
    FirstFreeFrom(SaveFilesOf(listing), 1, n);
  }

  /** The oldest-scan picks a slot whose timestamp is no later than any other visited one. */
  lemma {:induction false} OldestIsOldest(files: map<string, FileContent>, sf: SaveFiles, rest: seq<string>, best: string, bestTime: Option<real>)
    requires forall i :: 0 <= i < |rest| && rest[i] != AutosaveSlot ==> SlotStamp(files, sf, rest[i]).Some?
    ensures var slot := Oldest(files, sf, rest, best, bestTime);
      || (slot == best && forall i :: 0 <= i < |rest| && rest[i] != AutosaveSlot ==>
            bestTime.Some? && bestTime.value <= SlotStamp(files, sf, rest[i]).value)
      || (slot in rest && slot != AutosaveSlot && SlotStamp(files, sf, slot).Some?
          && (bestTime.Some? ==> SlotStamp(files, sf, slot).value < bestTime.value)
          && forall i :: 0 <= i < |rest| && rest[i] != AutosaveSlot ==>
               SlotStamp(files, sf, slot).value <= SlotStamp(files, sf, rest[i]).value)
  {
    if rest != [] {
      var tail := rest[1..];
      assert forall i :: 0 <= i < |tail| ==> tail[i] == rest[i + 1];
      OldestIsOldest(files, sf, tail, rest[0], SlotStamp(files, sf, rest[0]));
      OldestIsOldest(files, sf, tail, best, bestTime);
    }
  }

  /** With every numbered slot written and readable, quick save overwrites one with the earliest timestamp. */
  lemma QuickSaveOverwritesOldest(files: map<string, FileContent>, listing: seq<string>)
    requires forall k :: 1 <= k <= MaxSaves ==> SlotStamp(files, SaveFilesOf(listing), SlotName(k)).Some?
    ensures var sf := SaveFilesOf(listing);
      var slot := QuickSaveSlot(files, listing);
      && SlotStamp(files, sf, slot).Some?
      && forall k :: 1 <= k <= MaxSaves ==> SlotStamp(files, sf, slot).value <= SlotStamp(files, sf, SlotName(k)).value
  {
    var sf := SaveFilesOf(listing);
    assert FirstFreeSlot(sf, 1).None?;
    forall i | 0 <= i < |sf.order| && sf.order[i] != AutosaveSlot
      ensures SlotStamp(files, sf, sf.order[i]).Some?
    {
      FoundSlots(listing, sf.order[i]);
      SlotNames();
    }
    var slot := Oldest(files, sf, sf.order, "1", None);
    OldestIsOldest(files, sf, sf.order, "1", None);
    forall k | 1 <= k <= MaxSaves
      ensures SlotStamp(files, sf, slot).Some? && SlotStamp(files, sf, slot).value <= SlotStamp(files, sf, SlotName(k)).value
    {
      var i := FirstIndex(sf.order, SlotName(k));
      SlotNames();
      assert sf.order[i] != AutosaveSlot;
    }
  }

  /**
   * Entry `m` of `rest` is one the oldest-scan can settle on: a readable
   * numbered slot older than `bestTime` and strictly older than every
   * numbered slot listed before it.
   */
  predicate EarliestAt(files: map<string, FileContent>, sf: SaveFiles, rest: seq<string>, m: int, bestTime: Option<real>) {
    && 0 <= m < |rest|
    && rest[m] != AutosaveSlot
    && SlotStamp(files, sf, rest[m]).Some?
    && (bestTime.Some? ==> SlotStamp(files, sf, rest[m]).value < bestTime.value)
    && forall i :: 0 <= i < m && rest[i] != AutosaveSlot ==>
         SlotStamp(files, sf, rest[i]).Some? && SlotStamp(files, sf, rest[m]).value < SlotStamp(files, sf, rest[i]).value
  }

  /** Only a strictly older timestamp replaces the best so far, so among equal oldest stamps the first listed wins. */
  lemma {:induction false} OldestFirstOfEqual(files: map<string, FileContent>, sf: SaveFiles, rest: seq<string>, best: string, bestTime: Option<real>)
    requires forall i :: 0 <= i < |rest| && rest[i] != AutosaveSlot ==> SlotStamp(files, sf, rest[i]).Some?
    ensures var slot := Oldest(files, sf, rest, best, bestTime);
      || (slot == best && forall i :: 0 <= i < |rest| && rest[i] != AutosaveSlot ==>
            bestTime.Some? && bestTime.value <= SlotStamp(files, sf, rest[i]).value)
      || exists m :: EarliestAt(files, sf, rest, m, bestTime) && slot == rest[m]
  {
    if rest != [] {
      var tail := rest[1..];
      assert forall i :: 0 <= i < |tail| ==> tail[i] == rest[i + 1];
      if rest[0] == AutosaveSlot {
        OldestFirstOfEqual(files, sf, tail, best, bestTime);
        if m :| EarliestAt(files, sf, tail, m, bestTime) && Oldest(files, sf, tail, best, bestTime) == tail[m] {
          EarliestPastHead(files, sf, rest, m, bestTime, bestTime);
        }
      } else {
        var t := SlotStamp(files, sf, rest[0]);
        if bestTime.None? || t.value < bestTime.value {
          OldestFirstOfEqual(files, sf, tail, rest[0], t);
          if m :| EarliestAt(files, sf, tail, m, t) && Oldest(files, sf, tail, rest[0], t) == tail[m] {
            EarliestPastHead(files, sf, rest, m, t, bestTime);
          } else {
            assert EarliestAt(files, sf, rest, 0, bestTime);
          }
        } else {
          OldestFirstOfEqual(files, sf, tail, best, bestTime);
          if m :| EarliestAt(files, sf, tail, m, bestTime) && Oldest(files, sf, tail, best, bestTime) == tail[m] {
            EarliestPastHead(files, sf, rest, m, bestTime, bestTime);
          }
        }
      }
    }
  }

  /** An entry that the scan can settle on past the head, and older than the head, is one it can settle on from the head. */
  lemma EarliestPastHead(files: map<string, FileContent>, sf: SaveFiles, rest: seq<string>, m: int, tailTime: Option<real>, bestTime: Option<real>)
    requires rest != [] && EarliestAt(files, sf, rest[1..], m, tailTime)
    requires rest[0] != AutosaveSlot ==>
      SlotStamp(files, sf, rest[0]).Some? && SlotStamp(files, sf, rest[m + 1]).value < SlotStamp(files, sf, rest[0]).value
    requires bestTime.Some? ==> SlotStamp(files, sf, rest[m + 1]).value < bestTime.value
    ensures EarliestAt(files, sf, rest, m + 1, bestTime)
  {
    assert rest[1..][m] == rest[m + 1];
    forall i | 0 <= i < m + 1 && rest[i] != AutosaveSlot
      ensures SlotStamp(files, sf, rest[i]).Some? && SlotStamp(files, sf, rest[m + 1]).value < SlotStamp(files, sf, rest[i]).value
    {
      if i > 0 {
        assert rest[i] == rest[1..][i - 1];
      }
    }
  }

  /**
   * With every numbered slot written and readable, quick save overwrites the
   * first listed of the slots sharing the earliest timestamp: every numbered
   * slot listed before it is strictly newer.
   */
  lemma QuickSaveTieBreak(files: map<string, FileContent>, listing: seq<string>)
    requires forall k :: 1 <= k <= MaxSaves ==> SlotStamp(files, SaveFilesOf(listing), SlotName(k)).Some?
    ensures var sf := SaveFilesOf(listing);
      var slot := QuickSaveSlot(files, listing);
      && slot in sf.order
      && SlotStamp(files, sf, slot).Some?
      && forall i :: 0 <= i < FirstIndex(sf.order, slot) && sf.order[i] != AutosaveSlot ==>
           SlotStamp(files, sf, slot).value < SlotStamp(files, sf, sf.order[i]).value
  {
    var sf := SaveFilesOf(listing);
    NumberedStamped(files, listing);
    OldestFirstOfEqual(files, sf, sf.order, "1", None);
    var m :| EarliestAt(files, sf, sf.order, m, None) && Oldest(files, sf, sf.order, "1", None) == sf.order[m];
    EarliestIsFirst(files, sf, m);
  }

  /** With every numbered slot written and readable, no numbered slot is free and every listed one reads. */
  lemma NumberedStamped(files: map<string, FileContent>, listing: seq<string>)
    requires forall k :: 1 <= k <= MaxSaves ==> SlotStamp(files, SaveFilesOf(listing), SlotName(k)).Some?
    ensures var sf := SaveFilesOf(listing);
      && FirstFreeSlot(sf, 1).None?
      && "1" in sf.order
      && forall i :: 0 <= i < |sf.order| && sf.order[i] != AutosaveSlot ==> SlotStamp(files, sf, sf.order[i]).Some?
  {
    var sf := SaveFilesOf(listing);
    SlotNames();
    forall i | 0 <= i < |sf.order| && sf.order[i] != AutosaveSlot
      ensures SlotStamp(files, sf, sf.order[i]).Some?
    {
      FoundSlots(listing, sf.order[i]);
    }
    assert SlotStamp(files, sf, SlotName(1)).Some?;
  }

  /** A slot strictly older than every numbered slot listed before it is listed there for the first time. */
  lemma EarliestIsFirst(files: map<string, FileContent>, sf: SaveFiles, m: int)
    requires EarliestAt(files, sf, sf.order, m, None)
    ensures FirstIndex(sf.order, sf.order[m]) == m
  {
    var f := FirstIndex(sf.order, sf.order[m]);
    assert sf.order[m] !in sf.order[..f];
  }

  /** `get_save_files` files nothing but the three numbered slots and the autosave slot. */
  lemma FoundSlots(listing: seq<string>, slot: string)
    requires slot in SaveFilesOf(listing).paths
    ensures slot in {"1", "2", "3", AutosaveSlot}
  {
    SlotNames();
    assert SlotOfFileName(SaveFilesOf(listing).paths[slot]) == Some(slot);
  }

  /** An unreadable file among the slots still to visit: the scan ends on an unreadable one. */
  lemma {:induction false} OldestTakesUnreadable(files: map<string, FileContent>, sf: SaveFiles, rest: seq<string>, best: string, bestTime: Option<real>, j: nat)
    requires j < |rest| && rest[j] != AutosaveSlot && SlotStamp(files, sf, rest[j]).None?
    ensures SlotStamp(files, sf, Oldest(files, sf, rest, best, bestTime)).None?
  {
    if rest[0] == AutosaveSlot || SlotStamp(files, sf, rest[0]).Some? {
      assert j > 0;
      var tail := rest[1..];
      assert tail[j - 1] == rest[j];
      OldestTakesUnreadable(files, sf, tail, rest[0], SlotStamp(files, sf, rest[0]), j - 1);
      OldestTakesUnreadable(files, sf, tail, best, bestTime, j - 1);
    }
  }

  /** With every numbered slot written and one unreadable, quick save overwrites an unreadable slot. */
  lemma QuickSaveReplacesUnreadable(files: map<string, FileContent>, listing: seq<string>, n: int)
    requires forall k :: 1 <= k <= MaxSaves ==> SlotName(k) in SaveFilesOf(listing).paths
    requires 1 <= n <= MaxSaves && SlotStamp(files, SaveFilesOf(listing), SlotName(n)).None?
    ensures SlotStamp(files, SaveFilesOf(listing), QuickSaveSlot(files, listing)).None?
  {
    var sf := SaveFilesOf(listing);
    SlotNames();
    assert FirstFreeSlot(sf, 1).None?;
    assert SlotName(n) in sf.order;
    var j :| 0 <= j < |sf.order| && sf.order[j] == SlotName(n);
    assert SlotName(n) != AutosaveSlot;
    OldestTakesUnreadable(files, sf, sf.order, "1", None, j);
  }

  /** An autosave loads back as the state it saved. */
  lemma AutosaveThenLoad(files: map<string, FileContent>, before: map<string, FileContent>, listing: seq<string>,
                         r: PlayerRecord, now: real, datetime: string)
    requires Wrote(files, before, AutosaveFileName, r, now, datetime)
    requires Enumerates(listing, files.Keys)
    ensures LoadResult(files, listing, AutosaveSlot) == Some(r)
  {
    var sf := SaveFilesOf(listing);
    var i :| 0 <= i < |listing| && listing[i] == AutosaveFileName;
    AutosaveFileOnly(AutosaveFileName);
    assert AutosaveSlot in sf.paths;
    AutosaveFileOnly(sf.paths[AutosaveSlot]);
    SnapshotLoadsBack(files[AutosaveFileName].data.playerState.value, r);
  }

  /**
   * A save to slot `n` loads back as the state it saved, provided no other
   * file in the directory (say "save_01.json") is listed under the same slot.
   */
  lemma SaveThenLoad(files: map<string, FileContent>, before: map<string, FileContent>, listing: seq<string>,
                     n: int, r: PlayerRecord, now: real, datetime: string)
    requires 1 <= n <= MaxSaves
    requires Wrote(files, before, "save_" + SlotName(n) + ".json", r, now, datetime)
    requires Enumerates(listing, files.Keys)
    requires forall name :: name in files && SlotOfFileName(name) == Some(SlotName(n)) ==> name == "save_" + SlotName(n) + ".json"
    ensures LoadResult(files, listing, SlotName(n)) == Some(r)
  {
    var name := "save_" + SlotName(n) + ".json";
    var sf := SaveFilesOf(listing);
    NumberedFileRoundTrip(n);
    var i :| 0 <= i < |listing| && listing[i] == name;
    assert SlotName(n) in sf.paths;
    assert sf.paths[SlotName(n)] == name;
    SnapshotLoadsBack(files[name].data.playerState.value, r);
  }

  /**
   * Deleting a slot's file empties the slot exactly when no other file is
   * listed under it; otherwise the other file shows through.
   */
  lemma DeleteEmptiesSlot(files: map<string, FileContent>, listing: seq<string>, slot: string, after: seq<string>)
    requires Enumerates(listing, files.Keys)
    requires slot in SaveFilesOf(listing).paths
    requires Enumerates(after, files.Keys - {SaveFilesOf(listing).paths[slot]})
    ensures slot !in SaveFilesOf(after).paths <==>
      forall name :: name in files && SlotOfFileName(name) == Some(slot) ==> name == SaveFilesOf(listing).paths[slot]
    ensures slot !in SaveFilesOf(after).paths ==> LoadResult(files - {SaveFilesOf(listing).paths[slot]}, after, slot).None?
  {
    var gone := SaveFilesOf(listing).paths[slot];
    if exists name :: name in files && SlotOfFileName(name) == Some(slot) && name != gone {
      var name :| name in files && SlotOfFileName(name) == Some(slot) && name != gone;
      assert name in after;
      var i :| 0 <= i < |after| && after[i] == name;
    }
  }

  /**
   * `latest` is what `get_latest_save` may answer: `None` exactly when no
   * readable file has a timestamp above 0, otherwise a slot with the greatest
   * timestamp and no earlier slot in the order with one as great.
   */
  predicate LatestSave(files: map<string, FileContent>, sf: SaveFiles, latest: Option<string>)
    requires sf.Valid()
  {
    && (latest.None? <==> forall slot :: slot in sf.paths ==> !StampedAfter(files, sf, slot, 0.0))
    && (latest.Some? ==>
          && latest.value in sf.paths
          && StampedAfter(files, sf, latest.value, 0.0)
          && (forall slot :: slot in sf.paths ==> !StampedAfter(files, sf, slot, SlotStamp(files, sf, latest.value).value))
          && (forall j :: 0 <= j < FirstIndex(sf.order, latest.value) ==>
                !StampedAtLeast(files, sf, sf.order[j], SlotStamp(files, sf, latest.value).value)))
  }

  /** `get_latest_save`'s answer is determined by the files and their listing order. */
  lemma LatestSaveUnique(files: map<string, FileContent>, sf: SaveFiles, a: Option<string>, b: Option<string>)
    requires sf.Valid()
    requires LatestSave(files, sf, a) && LatestSave(files, sf, b)
    ensures a == b
  {
    if a.Some? && b.Some? {
      var ta, tb := SlotStamp(files, sf, a.value).value, SlotStamp(files, sf, b.value).value;
      assert !StampedAfter(files, sf, a.value, tb) && !StampedAfter(files, sf, b.value, ta);
      assert ta == tb;
      var ia, ib := FirstIndex(sf.order, a.value), FirstIndex(sf.order, b.value);
      assert StampedAtLeast(files, sf, sf.order[ia], tb) && StampedAtLeast(files, sf, sf.order[ib], ta);
      assert ia == ib;
    }
  }

  /**
   * What `get_latest_save`'s loop knows after the first `i` slots: the best
   * slot so far is the first with the greatest timestamp above 0 among them.
   */
  predicate Scanned(files: map<string, FileContent>, sf: SaveFiles, i: nat, latest: Option<string>, latestTime: real) {
    && i <= |sf.order|
    && (latest.None? ==> latestTime == 0.0)
    && (latest.Some? ==>
          && latest.value in sf.order[..i]
          && SlotStamp(files, sf, latest.value) == Some(latestTime)
          && latestTime > 0.0
          && forall j :: 0 <= j < FirstIndex(sf.order, latest.value) ==> !StampedAtLeast(files, sf, sf.order[j], latestTime))
    && forall j :: 0 <= j < i ==> !StampedAfter(files, sf, sf.order[j], latestTime)
  }

  /** A slot no later than the best so far leaves the best as it is. */
  lemma ScanKeeps(files: map<string, FileContent>, sf: SaveFiles, i: nat, latest: Option<string>, latestTime: real)
    requires Scanned(files, sf, i, latest, latestTime) && i < |sf.order|
    requires !StampedAfter(files, sf, sf.order[i], latestTime)
    ensures Scanned(files, sf, i + 1, latest, latestTime)
  {
    if latest.Some? {
      assert sf.order[..i] <= sf.order[..i + 1];
    }
  }

  /** A strictly later slot becomes the best so far. */
  lemma ScanTakes(files: map<string, FileContent>, sf: SaveFiles, i: nat, latest: Option<string>, latestTime: real)
    requires sf.Valid()
    requires Scanned(files, sf, i, latest, latestTime) && i < |sf.order|
    requires StampedAfter(files, sf, sf.order[i], latestTime)
    ensures Scanned(files, sf, i + 1, Some(sf.order[i]), SlotStamp(files, sf, sf.order[i]).value)
  {
    var t := SlotStamp(files, sf, sf.order[i]).value;
    assert FirstIndex(sf.order, sf.order[i]) == i;
    assert sf.order[i] in sf.order[..i + 1];
    assert forall j :: 0 <= j < i ==> !StampedAtLeast(files, sf, sf.order[j], t);
  }

  /** The loop of `get_latest_save` over the slots found: a strictly later timestamp replaces the best so far, starting from 0. */
  method ScanLatest(files: map<string, FileContent>, sf: SaveFiles) returns (latest: Option<string>)
    requires sf.Valid()
    ensures LatestSave(files, sf, latest)
  {
    latest := None;
    var latestTime: real := 0.0;
    var i := 0;
    while i < |sf.order|
      invariant Scanned(files, sf, i, latest, latestTime)
    {
      var slot := sf.order[i];
      var content := ReadFile(files, sf.paths[slot]);
      if content.Saved? && content.data.timestamp.GetOr(0.0) > latestTime {
        ScanTakes(files, sf, i, latest, latestTime);
        latest, latestTime := Some(slot), content.data.timestamp.GetOr(0.0);
      } else {
        ScanKeeps(files, sf, i, latest, latestTime);
      }
      i := i + 1;
    }
    forall slot | slot in sf.paths
      ensures !StampedAfter(files, sf, slot, latestTime)
    {
      assert slot in sf.order;
    }
  }

  /**
   * The oldest-save loop of `quick_save`. Where the source saves to an
   * unreadable slot at once, this returns that slot and the caller saves to
   * it, which writes the same file.
   */
  method ScanOldest(files: map<string, FileContent>, sf: SaveFiles) returns (oldestSlot: string)
    requires sf.Valid()
    ensures oldestSlot == Oldest(files, sf, sf.order, "1", None)
  {
    oldestSlot := "1";
    var oldestTime: Option<real> := None;
    var i := 0;
    while i < |sf.order|
      invariant 0 <= i <= |sf.order|
      invariant Oldest(files, sf, sf.order, "1", None) == Oldest(files, sf, sf.order[i..], oldestSlot, oldestTime)
    {
      var slot := sf.order[i];
      assert sf.order[i..][1..] == sf.order[i + 1..];
      if slot != AutosaveSlot {
        var content := ReadFile(files, sf.paths[slot]);
        if content.Unreadable? {
          return slot;
        }
        var t := content.data.timestamp.GetOr(0.0);
        if oldestTime.None? || t < oldestTime.value {
          oldestTime, oldestSlot := Some(t), slot;
        }
      }
      i := i + 1;
    }
  }

  /** The saves directory. */
  class SaveStore {
    /** Each file in the directory and what reading it gives. */
    var files: map<string, FileContent>

    constructor (files: map<string, FileContent>)
      ensures this.files == files
    {
      this.files := files;
    }

    /**
     * `save_game`: the file for the slot is (re)written with the clock
     * reading, the date and the state's snapshot; a slot that is neither
     * "autosave" nor an integer is refused and nothing is written.
     */
    method SaveGame(state: PlayerState, slot: string, now: real, datetime: string) returns (ok: bool)
      modifies this
      ensures ok <==> slot == AutosaveSlot || ParseInt(slot).Some?
      ensures ok ==> Wrote(files, old(files), SaveFileName(slot).value, state.Value(), now, datetime)
      ensures !ok ==> files == old(files)
    {
      var d := state.ToDict();
      var name := SaveFileName(slot);
      if name.None? {
        return false;
      }
      files := files[name.value := Saved(SaveData(Some(now), Some(datetime), Some(d)))];
      return true;
    }

    /** `autosave`: `save_game` to the autosave slot, which always succeeds. */
    method Autosave(state: PlayerState, now: real, datetime: string) returns (ok: bool)
      modifies this
      ensures ok
      ensures Wrote(files, old(files), AutosaveFileName, state.Value(), now, datetime)
    {
      ok := SaveGame(state, AutosaveSlot, now, datetime);
    }

    /** `load_game`: a new `PlayerState`, or `null` for `None`. */
    method LoadGame(listing: seq<string>, slot: string) returns (state: PlayerState?)
      ensures state == null <==> LoadResult(files, listing, slot).None?
      ensures state != null ==> fresh(state) && state.Value() == LoadResult(files, listing, slot).value
    {
      var sf := GetSaveFiles(listing);
      if slot !in sf.paths {
        return null;
      }
      var content := ReadFile(files, sf.paths[slot]);
      if content.Unreadable? {
        return null;
      }
      var r := FromDict(content.data.playerState.GetOr(EmptyDict));
      state := new PlayerState.FromRecord(r);
    }

    /**
     * `show_save_slots`: an entry for each numbered slot (empty, an error or a
     * summary) and one for the autosave slot when it has a file.
     */
    method ShowSaveSlots(listing: seq<string>) returns (info: map<string, SlotView>)
      ensures info.Keys == ShownSlots(SaveFilesOf(listing))
      ensures info == SlotMenu(files, SaveFilesOf(listing))
    {
      var sf := GetSaveFiles(listing);
      info := ShowNumberedSlots(sf);
      if AutosaveSlot in sf.paths {
        var view := ViewSlot(sf, AutosaveSlot);
        info := info[AutosaveSlot := view];
      }
      SlotMenuFromEntries(info, files, sf);
    }

    /** The loop of `show_save_slots` over the numbered slots, 1 to `MAX_SAVES`. */
    method ShowNumberedSlots(sf: SaveFiles) returns (info: map<string, SlotView>)
      ensures info.Keys == {"1", "2", "3"}
      ensures forall slot :: slot in info ==> info[slot] == ViewOf(files, sf, slot)
    {
      info := map[];
      for n := 1 to MaxSaves + 1
        invariant info.Keys == SlotsBelow(n)
        invariant forall slot :: slot in info ==> info[slot] == ViewOf(files, sf, slot)
      {
        var slot := SlotName(n);
        var view := ViewSlot(sf, slot);
        info := info[slot := view];
      }
      SlotNames();
      assert SlotsBelow(MaxSaves + 1) == {"1", "2", "3"};
    }

    /** One slot's entry of `show_save_slots`, read from its file. */
    method ViewSlot(sf: SaveFiles, slot: string) returns (view: SlotView)
      ensures view == ViewOf(files, sf, slot)
    {
      if slot in sf.paths {
        var content := ReadFile(files, sf.paths[slot]);
        if content.Unreadable? {
          view := ReadError;
        } else {
          var data := content.data;
          view := Summary(ExtractSaveInfo(data.playerState.GetOr(EmptyDict), data.datetime.GetOr(UnknownDate)));
        }
      } else {
        view := EmptySlot;
      }
    }

    /** `delete_save`: the slot's file is removed; `false` when the slot has none. */
    method DeleteSave(listing: seq<string>, slot: string) returns (ok: bool)
      modifies this
      ensures ok <==> slot in SaveFilesOf(listing).paths && SaveFilesOf(listing).paths[slot] in old(files)
      ensures ok ==> files == old(files) - {SaveFilesOf(listing).paths[slot]}
      ensures !ok ==> files == old(files)
    {
      var sf := GetSaveFiles(listing);
      if slot !in sf.paths || sf.paths[slot] !in files {
        return false;
      }
      files := files - {sf.paths[slot]};
      return true;
    }

    /**
     * `get_latest_save`: the slot whose readable file has the greatest
     * timestamp, the first such in listing order; `None` when no readable
     * file has a timestamp above 0.
     */
    method GetLatestSave(listing: seq<string>) returns (latest: Option<string>)
      ensures LatestSave(files, SaveFilesOf(listing), latest)
    {
      var sf := GetSaveFiles(listing);
      if |sf.order| == 0 {
        return None;
      }
      latest := ScanLatest(files, sf);
    }

    /**
     * `quick_save`: saves to `QuickSaveSlot`, the first free numbered slot or
     * else the oldest numbered save.
     */
    method QuickSave(state: PlayerState, listing: seq<string>, now: real, datetime: string) returns (ok: bool)
      modifies this
      ensures ok
      ensures Wrote(files, old(files), "save_" + QuickSaveSlot(old(files), listing) + ".json", state.Value(), now, datetime)
    {
      var sf := GetSaveFiles(listing);
      QuickSaveSlotNumbered(files, listing);
      SlotNames();
      for n := 1 to MaxSaves + 1
        invariant FirstFreeSlot(sf, 1) == FirstFreeSlot(sf, n)
      {
        var slot := SlotName(n);
        if slot !in sf.paths {
          NumberedSaveFileName(n);
          ok := SaveGame(state, slot, now, datetime);
          return;
        }
      }
      var oldestSlot := ScanOldest(files, sf);
      assert oldestSlot == QuickSaveSlot(files, listing);
      NumberedSaveFileName(1);
      NumberedSaveFileName(2);
      NumberedSaveFileName(3);
      ok := SaveGame(state, oldestSlot, now, datetime);
    }
  }
}
