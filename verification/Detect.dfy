/** Passive repair signals: the loops that look at a torrent's files, links and states. */
module Detect {
  import opened Torrents

  method CollectSelected(files: seq<File>) returns (r: seq<File>)
    ensures r == SelectedFiles(files)
  {
    r := [];
    for i := 0 to |files|
      invariant r == SelectedFiles(files[..i])
    {
      assert files[..i + 1][..i] == files[..i];
      if files[i].selected { r := r + [files[i]]; }
    }
    assert files[..|files|] == files;
  }

  /** The chain of endings. */
  method LooksPlayable(path: string) returns (r: bool)
    ensures r == PathLooksPlayable(path)
  {
    var p := Lower(path);
    r := EndsWith(p, ".mkv")
      || EndsWith(p, ".mp4")
      || EndsWith(p, ".avi")
      || EndsWith(p, ".webm")
      || EndsWith(p, ".m4v")
      || EndsWith(p, ".mpg")
      || EndsWith(p, ".mpeg")
      || EndsWith(p, ".mp3")
      || EndsWith(p, ".flac")
      || EndsWith(p, ".m4b")
      || EndsWith(p, ".aac")
      || EndsWith(p, ".opus")
      || EndsWith(p, ".wav");
    hide EndsWith, Lower;
    assert forall i | 0 <= i < |PLAYABLE| :: PLAYABLE[i] in PLAYABLE;
    if r {
      assert exists e | e in PLAYABLE :: EndsWith(p, e);
    }
  }

  /** Some of the files can be played. */
  method AnyPlayable(files: seq<File>) returns (r: bool)
    ensures r <==> exists f | f in files :: PathLooksPlayable(f.path)
  {
    hide PathLooksPlayable;
    for i := 0 to |files|
      invariant forall j | 0 <= j < i :: !PathLooksPlayable(files[j].path)
    {
      var playable := LooksPlayable(files[i].path);
      if playable { return true; }
    }
    return false;
  }

  method HasNonPlayableSelected(files: seq<File>) returns (r: bool)
    ensures r <==> exists f | f in SelectedFiles(files) :: !PathLooksPlayable(f.path)
  {
    hide PathLooksPlayable;
    for i := 0 to |files|
      invariant forall j | 0 <= j < i && files[j].selected :: PathLooksPlayable(files[j].path)
    {
      var playable := LooksPlayable(files[i].path);
      if files[i].selected && !playable { return true; }
    }
    return false;
  }

  /** The loop that looks for a repeated id among the selected files. */
  method DuplicateSelectedFileIds(files: seq<File>) returns (r: bool)
    ensures r == DuplicateIds(SelectedFiles(files))
  {
    var selected := CollectSelected(files);
    var seen: set<nat> := {};
    for i := 0 to |selected|
      invariant forall x :: x in seen <==> exists j | 0 <= j < i :: selected[j].id == x
      invariant !DuplicateIds(selected[..i])
    {
      if selected[i].id in seen { return true; }
      seen := seen + {selected[i].id};
    }
    assert selected[..|selected|] == selected;
    return false;
  }

  /** The index of a file among the selected ones is the index of its link. */
  method UnassignedSelectedLinkCount(info: TorrentInfo) returns (missing: nat)
    ensures missing == UnassignedLinks(info)
  {
    missing := 0;
    var slot := 0;
    for i := 0 to |info.files|
      invariant slot == |SelectedFiles(info.files[..i])|
      invariant missing == |EmptySlots(info.links, slot)|
    {
      assert info.files[..i + 1][..i] == info.files[..i];
      if info.files[i].selected {
        OneMoreSlot(info.links, slot);
        if !(slot < |info.links| && info.links[slot] != "") { missing := missing + 1; }
        slot := slot + 1;
      }
    }
    assert info.files[..|info.files|] == info.files;
  }

  lemma OneMoreSlot(links: seq<string>, n: nat)
    ensures |EmptySlots(links, n + 1)| == |EmptySlots(links, n)| + (if SlotIsEmpty(links, n) then 1 else 0)
  {
    if SlotIsEmpty(links, n) {
      assert EmptySlots(links, n + 1) == EmptySlots(links, n) + {n};
    } else {
      assert EmptySlots(links, n + 1) == EmptySlots(links, n);
    }
  }

  /** Some playable file is known to be broken. */
  method FileBroken(states: map<string, string>) returns (r: bool)
    ensures r <==> exists p | p in states :: states[p] == "broken" && PathLooksPlayable(p)
  {
    hide PathLooksPlayable;
    var todo := states.Keys;
    while todo != {}
      invariant todo <= states.Keys
      invariant forall p | p in states && p !in todo :: !(states[p] == "broken" && PathLooksPlayable(p))
    {
      var p :| p in todo;
      var playable := LooksPlayable(p);
      if states[p] == "broken" && playable { return true; }
      todo := todo - {p};
    }
    return false;
  }

  method PeriodicRepairEligible(t: ManagedTorrent) returns (r: bool)
    ensures r == PeriodicEligible(t)
  {
    if t.unrepairable.Some? { return false; }
    var missing := 0;
    if t.info.Some? { missing := UnassignedSelectedLinkCount(t.info.value); }
    var broken := false;
    if t.fileStates.Some? { broken := FileBroken(t.fileStates.value); }
    return t.state.Broken? || t.state.UnderRepair? || (t.state.Ok? && (missing > 0 || broken));
  }
}
