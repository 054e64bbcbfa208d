/** The two files of a saved room, metadata and protected room code
    (client/internal/securestore). A file is replaced or removed atomically; any call may be
    Refused or Lost, and any file may be unreadable for a while. */
module LocalStores {
  import opened Outcomes

  datatype Loaded<+T> = Found(value: T) | Missing | Unreadable

  class FileStore<T(==)> {
    var content: Option<T>
    ghost var faults: nat      // errors reported

    method Load() returns (r: Loaded<T>)
      modifies this`faults
      ensures faults == old(faults) + if r.Unreadable? then 1 else 0
      ensures match r case Found(v) => content == Some(v) case Missing => content.None? case Unreadable => true
    {
      var readable: bool := *;
      if !readable {
        faults := faults + 1;
        return Unreadable;
      }
      match content
      case Some(v) => return Found(v);
      case None => return Missing;
    }

    method Save(value: T) returns (err: bool, ghost fate: Fate)
      modifies this
      ensures err == !fate.Done? && faults == old(faults) + (if err then 1 else 0)
      ensures content == if fate.Applied() then Some(value) else old(content)
    {
      var outcome: Fate := *;
      if !outcome.Refused? { content := Some(value); }
      err, fate := !outcome.Done?, outcome;
      if err { faults := faults + 1; }
    }

    method Clear() returns (err: bool, ghost fate: Fate)
      modifies this
      ensures err == !fate.Done? && faults == old(faults) + (if err then 1 else 0)
      ensures content == if fate.Applied() then None else old(content)
    {
      var outcome: Fate := *;
      if !outcome.Refused? { content := None; }
      err, fate := !outcome.Done?, outcome;
      if err { faults := faults + 1; }
    }
  }
}
