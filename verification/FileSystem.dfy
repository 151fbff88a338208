/**
 `FileSystem::atomic_write_file` step by step: a temporary file is written and renamed over the target. Whatever
 fails, and wherever the process dies, the target holds its old content or the whole new one.
 */
module FileSystem {
  import opened Prelude
  import opened Graphs
  import opened World
  import opened LineFormat

  /** How a write ends: by itself, by an error that is cleaned up, or by the death of the process. */
  datatype WriteFate =
    | Smooth
    | CannotOpen
    | CannotWrite(written: nat)
    | CannotRename
    | DiesWriting(written: nat)
    | DiesBeforeRename
    | DiesAfterRename

  /** How the removal of a file ends. */
  datatype RemoveFate = Removed | NotRemoved | DiesAfterRemoval

  predicate Dies(fate: WriteFate)
  {
    fate.DiesWriting? || fate.DiesBeforeRename? || fate.DiesAfterRename?
  }

  /** The new content has taken the place of the old one. */
  predicate Lands(fate: WriteFate)
  {
    fate.Smooth? || fate.DiesAfterRename?
  }

  function Prefix(c: Content, n: nat): Content
  {
    if n <= |c| then c[..n] else c
  }

  /** `id` stands for the process number and the counter. */
  function TemporaryPath(path: Path, id: string): Path
  {
    path + ".tmp." + id
  }

  class FileSystem {
    var files: map<Path, Content>
    /** Files that are there but cannot be opened. */
    var unreadable: set<Path>

    /** What a loader finds under `p`. */
    function At(p: Path): Stored
      reads this
    {
      if p !in files then Absent else if p in unreadable then Unreadable else Text(files[p])
    }

    constructor (files: map<Path, Content>, unreadable: set<Path>)
      ensures this.files == files && this.unreadable == unreadable
    {
      this.files, this.unreadable := files, unreadable;
    }

    /** `remove_if_exists`. */
    method Remove(p: Path)
      modifies this
      ensures files == old(files) - {p} && unreadable == old(unreadable) - {p}
    {
      files, unreadable := files - {p}, unreadable - {p};
    }

    /** `std::filesystem::remove` with an error code. */
    method TryRemove(p: Path, fate: RemoveFate) returns (ok: bool)
      modifies this
      ensures forall q :: q != p ==> At(q) == old(At(q))
      ensures At(p) == if fate.NotRemoved? then old(At(p)) else Absent
      ensures ok <==> fate.Removed?
    {
      if !fate.NotRemoved? {
        Remove(p);
      }
      return fate.Removed?;
    }

    /** The return value is meaningful unless the process died. */
    method AtomicWrite(path: Path, content: Content, id: string, fate: WriteFate) returns (ok: bool)
      modifies this
      ensures forall p :: p != path && p != TemporaryPath(path, id) ==> At(p) == old(At(p))
      ensures At(path) == if Lands(fate) then Text(content) else old(At(path))
      ensures ok <==> fate.Smooth?
      ensures ok ==> At(path) == Text(content)
      ensures !ok && !fate.DiesAfterRename? ==> At(path) == old(At(path))
      ensures !Dies(fate) ==> TemporaryPath(path, id) !in files
    {
      var temp := TemporaryPath(path, id);
      assert |temp| > |path|;
      Remove(temp);
      if fate.CannotOpen? {
        return false;
      }
      files := files[temp := ""];
      if fate.DiesWriting? || fate.CannotWrite? {
        files := files[temp := Prefix(content, fate.written)];
        if fate.CannotWrite? {
          Remove(temp);
        }
        return false;
      }
      files := files[temp := content];
      if fate.DiesBeforeRename? {
        return false;
      }
      if fate.CannotRename? {
        Remove(temp);
        return false;
      }
      files, unreadable := (files - {temp})[path := files[temp]], unreadable - {path};
      return fate.Smooth?;
    }
  }
}
