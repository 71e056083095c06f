/** Torrents as the registry keeps them: the list snapshot, lazily loaded detail, and local health. */
module Torrents {
  import opened Wrappers

  type Id = string
  type Key = string

  datatype File = File(id: nat, path: string, bytes: nat, selected: bool)

  datatype TorrentInfo = TorrentInfo(files: seq<File>, links: seq<string>)

  /** One entry of the remote list. */
  datatype Listing = Listing(id: Id, hash: string, name: string, progress: nat, status: string)

  datatype TorrentState = Ok | Broken | UnderRepair

  datatype ManagedTorrent = ManagedTorrent(
    accessKey: Key,
    rdIds: seq<Id>,
    torrent: Listing,
    info: Option<TorrentInfo>,
    state: TorrentState,
    unrepairable: Option<string>,
    lastRepairedAt: Option<int>,
    fileStates: Option<map<string, string>>,
    startedAt: Option<int>)

  /** The stored row: everything but the detail and the list's progress and status. */
  datatype Row = Row(
    accessKey: Key,
    rdIds: seq<Id>,
    hash: string,
    name: string,
    state: TorrentState,
    unrepairable: Option<string>,
    fileStates: Option<map<string, string>>,
    lastRepairedAt: Option<int>,
    startedAt: Option<int>)

  function ToRow(mt: ManagedTorrent): Row {
    Row(mt.accessKey, mt.rdIds, mt.torrent.hash, mt.torrent.name, mt.state, mt.unrepairable, mt.fileStates,
        mt.lastRepairedAt, mt.startedAt)
  }

  /** A torrent loaded at start, before the first refresh. */
  function FromRow(row: Row): ManagedTorrent {
    ManagedTorrent(row.accessKey, row.rdIds,
                   Listing(if row.rdIds != [] then row.rdIds[0] else "", row.hash, row.name, 100, "downloaded"),
                   None, row.state, row.unrepairable, row.lastRepairedAt, row.fileStates, row.startedAt)
  }

  /** Storing and loading again keeps everything but the detail and what only the list knows, and loading
      and storing again keeps the row. */
  lemma RowRoundTrip(mt: ManagedTorrent, row: Row)
    ensures ToRow(FromRow(row)) == row
    ensures var back := FromRow(ToRow(mt));
      && back == mt.(info := None, torrent := back.torrent)
      && back.torrent.hash == mt.torrent.hash && back.torrent.name == mt.torrent.name
      && (mt.rdIds != [] ==> back.torrent.id == mt.rdIds[0])
  {}

  function AccessKey(hash: string, name: string): Key { hash + "/" + name }

  function KeyOf(t: Listing): Key { AccessKey(t.hash, t.name) }

  // ----- Selected and playable files -----

  /** The selected files, in order. */
  function SelectedFiles(files: seq<File>): (r: seq<File>)
    ensures forall f :: f in r <==> f in files && f.selected
  {
    if files == [] then []
    else
      var last := files[|files| - 1];
      SelectedFiles(files[..|files| - 1]) + (if last.selected then [last] else [])
  }

  function Selected(t: ManagedTorrent): seq<File> {
    if t.info.None? then [] else SelectedFiles(t.info.value.files)
  }

  const PLAYABLE := [
    ".mkv", ".mp4", ".avi", ".webm", ".m4v", ".mpg", ".mpeg", ".mp3", ".flac", ".m4b", ".aac", ".opus", ".wav"]

  /** Lower case as far as ASCII results go; the Kelvin sign is the one other character that has one. */
  function LowerChar(c: char): char {
    if 'A' <= c <= 'Z' then (c as int + 32) as char else if c == '\U{212A}' then 'k' else c
  }

  function Lower(s: string): string { seq(|s|, i requires 0 <= i < |s| => LowerChar(s[i])) }

  predicate EndsWith(s: string, suffix: string) { |suffix| <= |s| && s[|s| - |suffix|..] == suffix }

  predicate PathLooksPlayable(path: string) { exists e | e in PLAYABLE :: EndsWith(Lower(path), e) }

  predicate DuplicateIds(files: seq<File>) { exists i, j :: 0 <= i < j < |files| && files[i].id == files[j].id }

  predicate NonPlayableSelected(t: ManagedTorrent) { exists f | f in Selected(t) :: !PathLooksPlayable(f.path) }

  /** The link slot of the i-th selected file is missing or empty. */
  predicate SlotIsEmpty(links: seq<string>, i: nat) { i >= |links| || links[i] == "" }

  function EmptySlots(links: seq<string>, n: nat): set<nat> { set i: nat | i < n && SlotIsEmpty(links, i) }

  /** How many selected files have no link. */
  function UnassignedLinks(info: TorrentInfo): nat {
    |EmptySlots(info.links, |SelectedFiles(info.files)|)|
  }

  /** Whether the periodic scan takes the torrent up. */
  predicate PeriodicEligible(t: ManagedTorrent) {
    && t.unrepairable.None?
    && (t.state.Broken? || t.state.UnderRepair?
        || (t.info.Some? && UnassignedLinks(t.info.value) > 0)
        || (t.fileStates.Some?
            && exists p | p in t.fileStates.value :: t.fileStates.value[p] == "broken" && PathLooksPlayable(p)))
  }
}
