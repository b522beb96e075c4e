/**
 The dev-state snapshot on disk: written to a temporary file and renamed, skipped when unchanged, with
 the process free to crash (or an operation free to fail) at any point.
 */
module DevState {
  import opened Common

  /** The two files involved; `None` is an absent file. */
  datatype Disk = Disk(state: Option<string>, tmp: Option<string>)

  /** How far one write gets: nothing, the first `n` characters of the temporary file,
      all but the rename, or the end. */
  datatype Fate = BeforeWrite | InWrite(n: nat) | BeforeRename | Completes

  /** `writeDevStateFile`, as far as `fate` lets it. */
  function Write(disk: Disk, serialized: string, fate: Fate): Disk {
    match fate
    case BeforeWrite => disk
    case InWrite(n) => disk.(tmp := Some(if n < |serialized| then serialized[..n] else serialized))
    case BeforeRename => disk.(tmp := Some(serialized))
    case Completes => Disk(Some(serialized), None)
  }

  /** A save; `crash` ends the process afterwards and a new one, which has saved nothing yet, takes over. */
  datatype Save = Save(serialized: string, fate: Fate, crash: bool)

  datatype Server = Server(disk: Disk, lastSaved: Option<string>)

  /** `saveState`: an exception is reported and leaves `lastSaved` as it was. */
  function SaveState(s: Server, save: Save): Server {
    var next := if s.lastSaved == Some(save.serialized) then s
                else Server(Write(s.disk, save.serialized, save.fate),
                            if save.fate.Completes? then Some(save.serialized) else s.lastSaved);
    if save.crash then next.(lastSaved := None) else next
  }

  function SaveAll(s: Server, saves: seq<Save>): Server {
    if saves == [] then s else SaveState(SaveAll(s, saves[..|saves| - 1]), saves[|saves| - 1])
  }

  /** The same saves without the shortcut. */
  function WriteAll(disk: Disk, saves: seq<Save>): Disk {
    if saves == [] then disk
    else
      var last := saves[|saves| - 1];
      Write(WriteAll(disk, saves[..|saves| - 1]), last.serialized, last.fate)
  }

  /** The snapshot of the last write that completed. */
  function LastComplete(saves: seq<Save>): Option<string> {
    if saves == [] then None
    else if saves[|saves| - 1].fate.Completes? then Some(saves[|saves| - 1].serialized)
    else LastComplete(saves[..|saves| - 1])
  }

  /**
   For every run of saves, failures and crashes: writing always leaves the state file as it was, or
   holding the whole of the last snapshot whose write completed, never a part of one; and skipping an
   unchanged snapshot leaves the same state file.
   */
  lemma {:induction false} EveryRunOfSaves(disk: Disk, saves: seq<Save>)
    ensures var end := SaveAll(Server(disk, None), saves);
            && WriteAll(disk, saves).state == (if LastComplete(saves).Some? then LastComplete(saves) else disk.state)
            && end.disk.state == WriteAll(disk, saves).state
            && (end.lastSaved.Some? ==> end.disk.state == end.lastSaved)
  {
    if saves != [] {
      EveryRunOfSaves(disk, saves[..|saves| - 1]);
    }
  }

  /** A snapshot that was written is on disk, and only there; this process does not write it again, a new one does. */
  lemma SavedOnce(s: Server, serialized: string, again: Fate)
    ensures var saved := SaveState(s, Save(serialized, Completes, false));
            && saved.lastSaved == Some(serialized)
            && (s.lastSaved != Some(serialized) ==> saved.disk == Disk(Some(serialized), None))
            && SaveState(saved, Save(serialized, again, false)) == saved
            && (again.Completes? ==>
                  var restarted := SaveState(s, Save(serialized, again, true));
                  SaveState(restarted, Save(serialized, BeforeRename, false)).disk.tmp == Some(serialized))
  {
  }

  /** A write that fails leaves the state file as it was, beside a beginning of the snapshot, and is not remembered. */
  lemma FailedSaveIsForgotten(s: Server, serialized: string, fate: Fate)
    requires !fate.Completes?
    ensures var failed := SaveState(s, Save(serialized, fate, false));
            && failed.lastSaved == s.lastSaved && failed.disk.state == s.disk.state
            && (failed.disk.tmp == s.disk.tmp || (failed.disk.tmp.Some? && failed.disk.tmp.value <= serialized))
  {
  }

  /** The file system and the dev server's variable, updated in place. */
  class DevServer {
    var disk: Disk
    var lastSaved: Option<string>

    function State(): Server
      reads this
    {
      Server(disk, lastSaved)
    }

    constructor (disk: Disk)
      ensures State() == Server(disk, None)
    {
      this.disk, lastSaved := disk, None;
    }

    /** Three operations, the temporary write being the only one that can stop half-way. */
    method WriteDevStateFile(serialized: string, fate: Fate) returns (ok: bool)
      modifies this`disk
      ensures disk == Write(old(disk), serialized, fate) && (ok <==> fate.Completes?)
    {
      if fate.BeforeWrite? {
        return false;
      }
      if fate.InWrite? {
        disk := disk.(tmp := Some(if fate.n < |serialized| then serialized[..fate.n] else serialized));
        return false;
      }
      disk := disk.(tmp := Some(serialized));
      if fate.BeforeRename? {
        return false;
      }
      disk := Disk(disk.tmp, None);
      ok := true;
    }

    method SaveSnapshot(serialized: string, fate: Fate)
      modifies this
      ensures State() == SaveState(old(State()), Save(serialized, fate, false))
    {
      if lastSaved == Some(serialized) {
        return;
      }
      var ok := WriteDevStateFile(serialized, fate);
      if ok {
        lastSaved := Some(serialized);
      }
    }

    /** The process ends; the next one has saved nothing yet. */
    method Restart()
      modifies this`lastSaved
      ensures lastSaved == None
    {
      lastSaved := None;
    }

    /** Every run of saves, failures and crashes: the state file is never torn. */
    method Replay(saves: seq<Save>)
      requires lastSaved.None?
      modifies this
      ensures disk.state == if LastComplete(saves).Some? then LastComplete(saves) else old(disk).state
      ensures lastSaved.Some? ==> disk.state == lastSaved
    {
      ghost var before := State();
      for i := 0 to |saves|
        invariant State() == SaveAll(before, saves[..i])
      {
        assert saves[..i + 1][..i] == saves[..i];
        SaveSnapshot(saves[i].serialized, saves[i].fate);
        if saves[i].crash {
          Restart();
        }
      }
      assert saves[..|saves|] == saves;
      EveryRunOfSaves(before.disk, saves);
    }
  }
}
