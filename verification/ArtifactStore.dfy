/** The artifact store as the agent meets it: every answer it gave is remembered. */
module ArtifactStore {
  import opened Prelude
  import opened ReleaseTree
  import opened Storage

  /** What the store answered to a download, and to the question whether an artifact exists, if it answered that. */
  datatype Reply = Fetched(key: string, ok: bool) | Presence(key: string, answer: Option<bool>)

  class Store {
    ghost var replies: seq<Reply>

    constructor ()
      ensures replies == []
    {
      replies := [];
    }

    /** Downloads an artifact into a file, and may leave anything there when it fails. */
    method Download(key: string, disk: Disk, name: string, file: string) returns (ok: bool)
      requires disk.Valid() && name in disk.view.dirs
      modifies this, disk`view, disk`history, disk`written, disk`ioFaults
      ensures replies == old(replies) + [Fetched(key, ok)]
      ensures disk.Valid() && OnlyDirectory(old(disk.view), disk.view, name) && name in disk.view.dirs
      ensures old(disk.history) <= disk.history && disk.ioFaults >= old(disk.ioFaults)
      ensures ok ==>
        && file in disk.view.dirs[name]
        && disk.view.dirs[name] == old(disk.view).dirs[name][file := disk.view.dirs[name][file]]
      ensures !ok ==> disk.view.dirs[name] - {file} == old(disk.view).dirs[name] - {file}
    {
      var content: Content := *;
      var fetched: bool := *;
      ok := false;
      if file != "" && fetched {
        ok := disk.CopyFile(name, file, content);
      }
      replies := replies + [Fetched(key, ok)];
    }

    /** Whether the artifact exists; the question itself may fail. */
    method Exists(key: string) returns (answer: Option<bool>)
      modifies this
      ensures replies == old(replies) + [Presence(key, answer)]
    {
      answer := *;
      replies := replies + [Presence(key, answer)];
    }
  }
}
