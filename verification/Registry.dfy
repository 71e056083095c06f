/** The torrent registry: live entries, their stored rows, and the operations that change health. */
module Registry {
  import opened Wrappers
  import opened Torrents

  datatype Registry = Registry(torrents: map<Key, ManagedTorrent>, rows: map<Key, Row>)

  /** Put an entry in memory and, when the database takes it, in its row. */
  function Stored(r: Registry, key: Key, mt: ManagedTorrent, dbOk: bool): Registry {
    Registry(r.torrents[key := mt], if dbOk then r.rows[mt.accessKey := ToRow(mt)] else r.rows)
  }

  /** A change of state; the clock of a repair starts when `UnderRepair` is entered, not when it is
      entered again. */
  function InState(mt: ManagedTorrent, state: TorrentState, reason: Option<string>, now: int): ManagedTorrent {
    mt.(
    state := state,
    unrepairable := reason,
    lastRepairedAt := if state.Ok? then Some(now) else mt.lastRepairedAt,
    startedAt := if !state.UnderRepair? then None else if mt.state.UnderRepair? then mt.startedAt else Some(now))
  }

  function Updated(r: Registry, key: Key, state: TorrentState, reason: Option<string>, now: int, dbOk: bool): Registry {
    if key !in r.torrents then r else Stored(r, key, InState(r.torrents[key], state, reason, now), dbOk)
  }

  function WithBrokenFile(mt: ManagedTorrent, path: string): ManagedTorrent {
    mt.(fileStates := Some((if mt.fileStates.None? then map[] else mt.fileStates.value)[path := "broken"]))
  }

  function FileBroken(r: Registry, key: Key, path: string, dbOk: bool): Registry {
    if key !in r.torrents then r else Stored(r, key, WithBrokenFile(r.torrents[key], path), dbOk)
  }

  /** New remote ids make the detail and the file states stale. */
  function WithIds(mt: ManagedTorrent, ids: seq<Id>): ManagedTorrent {
    mt.(rdIds := ids, info := None, fileStates := None,
    torrent := if ids == [] then mt.torrent else mt.torrent.(id := ids[0]))
  }

  function IdsReplaced(r: Registry, key: Key, ids: seq<Id>, dbOk: bool): Registry {
    if key !in r.torrents then r
    else
      var mt := WithIds(r.torrents[key], ids);
      Stored(r, mt.accessKey, mt, dbOk)
  }

  function InfoLoaded(r: Registry, key: Key, info: TorrentInfo): Registry {
    if key !in r.torrents then r else r.(torrents := r.torrents[key := r.torrents[key].(info := Some(info))])
  }

  /** A restart: memory is rebuilt from the rows. */
  function Restarted(r: Registry): Registry {
    r.(torrents := map k | k in r.rows :: FromRow(r.rows[k]))
  }

  class TorrentManager {
    var torrents: map<Key, ManagedTorrent>
    var rows: map<Key, Row>

    ghost function View(): Registry
      reads this
    {
      Registry(torrents, rows)
    }

    constructor LoadFromDb(rows: map<Key, Row>)
      ensures View() == Restarted(Registry(map[], rows))
    {
      this.rows := rows;
      torrents := map k | k in rows :: FromRow(rows[k]);
    }

    method PersistTorrentSnapshot(mt: ManagedTorrent, dbOk: bool) returns (ok: bool)
      modifies this
      ensures View() == Stored(old(View()), mt.accessKey, mt, dbOk) && ok == dbOk
    {
      torrents := torrents[mt.accessKey := mt];
      if dbOk { rows := rows[mt.accessKey := ToRow(mt)]; }
      return dbOk;
    }

    method UpdateTorrentState(key: Key, state: TorrentState, reason: Option<string>, now: int, dbOk: bool)
      returns (ok: bool)
      modifies this
      ensures View() == Updated(old(View()), key, state, reason, now, dbOk)
      ensures ok == (dbOk || key !in old(torrents))
    {
      if key !in torrents { return true; }
      var existing := torrents[key];
      var lastRepairedAt := existing.lastRepairedAt;
      if state.Ok? { lastRepairedAt := Some(now); }
      var startedAt: Option<int> := None;
      if state.UnderRepair? {
        startedAt := if existing.state.UnderRepair? then existing.startedAt else Some(now);
      }
      var updated := existing.(
      state := state, unrepairable := reason, lastRepairedAt := lastRepairedAt, startedAt := startedAt);
      torrents := torrents[key := updated];
      if dbOk { rows := rows[updated.accessKey := ToRow(updated)]; }
      return dbOk;
    }

    method MarkFileBroken(key: Key, path: string, dbOk: bool) returns (ok: bool)
      modifies this
      ensures View() == FileBroken(old(View()), key, path, dbOk)
      ensures ok == (dbOk || key !in old(torrents))
    {
      if key !in torrents { return true; }
      var existing := torrents[key];
      var states := if existing.fileStates.None? then map[] else existing.fileStates.value;
      states := states[path := "broken"];
      var updated := existing.(fileStates := Some(states));
      torrents := torrents[key := updated];
      if dbOk { rows := rows[updated.accessKey := ToRow(updated)]; }
      return dbOk;
    }

    method ReplaceRdIds(key: Key, ids: seq<Id>, dbOk: bool) returns (ok: bool)
      modifies this
      ensures View() == IdsReplaced(old(View()), key, ids, dbOk)
      ensures ok == (dbOk || key !in old(torrents))
    {
      if key !in torrents { return true; }
      var m := torrents[key].(rdIds := ids, info := None, fileStates := None);
      if ids != [] { m := m.(torrent := m.torrent.(id := ids[0])); }
      ok := PersistTorrentSnapshot(m, dbOk);
    }

    /** `fetched` is the detail call's reply, made only when the detail is missing and an id is known. */
    method EnsureTorrentInfo(key: Key, fetched: Option<TorrentInfo>) returns (r: Option<ManagedTorrent>)
      modifies this
      ensures r.None? <==> key !in old(torrents) || (old(torrents)[key].info.None? && old(torrents)[key].rdIds == [])
      ensures r.None? ==> View() == old(View())
      ensures r.Some? ==>
        && key in torrents && r.value == torrents[key]
        && View() == if old(torrents)[key].info.None? && fetched.Some? then InfoLoaded(old(View()), key, fetched.value)
                     else old(View())
    {
      if key !in torrents { return None; }
      var mt := torrents[key];
      if mt.info.Some? { return Some(mt); }
      if mt.rdIds == [] { return None; }
      if fetched.None? { return Some(mt); }
      var updated := mt.(info := fetched);
      torrents := torrents[key := updated];
      return Some(updated);
    }
  }
}
