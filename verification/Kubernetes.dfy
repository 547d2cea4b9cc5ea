/**
  The object store as one client sees it. Every call takes the failure the environment chose for it,
  so that a run of the controller is a function of its inputs.
 */
module Kubernetes {
  import opened Wrappers

  datatype Key = Key(namespace: string, name: string)

  datatype Error = NotFound | AlreadyExists | Unavailable | Invalid

  /** What the environment does to one API call: nothing, lose the request, or lose the response.
      A controller that dies between two calls is one whose next call is lost. */
  datatype Fault = Works | FailsBefore | FailsAfter {
    /** Whether a write that meets this fault reaches the store. */
    predicate Lands() { !FailsBefore? }
  }

  /** The faults of a read and of the write that may follow it. */
  datatype Calls = Calls(get: Fault, write: Fault)

  /** The cell of the store that a write leaves behind, and the error the caller sees. */
  datatype Written<T> = Written(cell: Option<T>, err: Option<Error>)

  function GetCell<T>(cell: Option<T>, fault: Fault): Result<T, Error> {
    if !fault.Works? then Err(Unavailable)
    else match cell
      case None => Err(NotFound)
      case Some(x) => Ok(x)
  }

  function CreateCell<T>(cell: Option<T>, x: T, fault: Fault): Written<T> {
    match fault
    case FailsBefore => Written(cell, Some(Unavailable))
    case FailsAfter => Written(if cell.None? then Some(x) else cell, Some(Unavailable))
    case Works => if cell.None? then Written(Some(x), None) else Written(cell, Some(AlreadyExists))
  }

  function UpdateCell<T>(cell: Option<T>, x: T, fault: Fault): Written<T> {
    match fault
    case FailsBefore => Written(cell, Some(Unavailable))
    case FailsAfter => Written(if cell.None? then cell else Some(x), Some(Unavailable))
    case Works => if cell.None? then Written(cell, Some(NotFound)) else Written(Some(x), None)
  }

  function DeleteCell<T>(cell: Option<T>, fault: Fault): Written<T> {
    match fault
    case FailsBefore => Written(cell, Some(Unavailable))
    case FailsAfter => Written(None, Some(Unavailable))
    case Works => Written(None, if cell.None? then Some(NotFound) else None)
  }

  /** A write succeeds exactly if it works and the object is there, or for Create is not. A lost request leaves
      the cell as it was; a lost response leaves what a success would have left. */
  lemma WritesAreAtomic<T>(cell: Option<T>, x: T, fault: Fault)
    ensures var w := CreateCell(cell, x, fault);
            && (w.err.None? <==> fault.Works? && cell.None?)
            && w.cell == (if fault.Lands() && cell.None? then Some(x) else cell)
            && (w.err == Some(AlreadyExists) <==> fault.Works? && cell.Some?)
    ensures var w := UpdateCell(cell, x, fault);
            && (w.err.None? <==> fault.Works? && cell.Some?)
            && w.cell == (if fault.Lands() && cell.Some? then Some(x) else cell)
            && (w.err == Some(NotFound) <==> fault.Works? && cell.None?)
    ensures var w := DeleteCell(cell, fault);
            && (w.err.None? <==> fault.Works? && cell.Some?)
            && w.cell == (if fault.Lands() then None else cell)
            && (w.err == Some(NotFound) <==> fault.Works? && cell.None?)
  {
  }

  // One cell of a keyed map, and the map with that cell replaced.

  function Lookup<T>(m: map<Key, T>, k: Key): Option<T> {
    if k in m then Some(m[k]) else None
  }

  function Store<T>(m: map<Key, T>, k: Key, cell: Option<T>): map<Key, T> {
    match cell
    case None => m - {k}
    case Some(x) => m[k := x]
  }

  lemma StoreLaws<T>(m: map<Key, T>, k: Key, cell: Option<T>, again: Option<T>)
    ensures Lookup(Store(m, k, cell), k) == cell
    ensures forall j :: j != k ==> Lookup(Store(m, k, cell), j) == Lookup(m, j)
    ensures Store(Store(m, k, cell), k, again) == Store(m, k, again)
    ensures Store(m, k, Lookup(m, k)) == m
  {
  }

  lemma StoreSame<T>(m: map<Key, T>, k: Key)
    ensures Store(m, k, Lookup(m, k)) == m
  {
  }

  lemma StoreCommutes<T>(m: map<Key, T>, k: Key, x: Option<T>, j: Key, y: Option<T>)
    requires k != j
    ensures Store(Store(m, k, x), j, y) == Store(Store(m, j, y), k, x)
  {
  }

  /** The objects of one kind. */
  class Collection<T> {
    var objects: map<Key, T>

    constructor ()
      ensures objects == map[]
    {
      objects := map[];
    }

    method Get(k: Key, fault: Fault) returns (r: Result<T, Error>)
      ensures r == GetCell(Lookup(objects, k), fault)
    {
      if fault.Works? {
        if k in objects { r := Ok(objects[k]); } else { r := Err(NotFound); }
      } else {
        r := Err(Unavailable);
      }
    }

    method Create(k: Key, x: T, fault: Fault) returns (err: Option<Error>)
      modifies this
      ensures objects == Store(old(objects), k, CreateCell(Lookup(old(objects), k), x, fault).cell)
      ensures err == CreateCell(Lookup(old(objects), k), x, fault).err
    {
      StoreLaws(objects, k, None, None);
      var taken := k in objects;
      if !fault.FailsBefore? && !taken {
        objects := objects[k := x];
      }
      err := if !fault.Works? then Some(Unavailable) else if taken then Some(AlreadyExists) else None;
    }

    method Update(k: Key, x: T, fault: Fault) returns (err: Option<Error>)
      modifies this
      ensures objects == Store(old(objects), k, UpdateCell(Lookup(old(objects), k), x, fault).cell)
      ensures err == UpdateCell(Lookup(old(objects), k), x, fault).err
    {
      StoreLaws(objects, k, None, None);
      var present := k in objects;
      if !fault.FailsBefore? && present {
        objects := objects[k := x];
      }
      err := if !fault.Works? then Some(Unavailable) else if present then None else Some(NotFound);
    }

    method Delete(k: Key, fault: Fault) returns (err: Option<Error>)
      modifies this
      ensures objects == Store(old(objects), k, DeleteCell(Lookup(old(objects), k), fault).cell)
      ensures err == DeleteCell(Lookup(old(objects), k), fault).err
    {
      StoreLaws(objects, k, None, None);
      var present := k in objects;
      if !fault.FailsBefore? {
        objects := objects - {k};
      }
      err := if !fault.Works? then Some(Unavailable) else if present then None else Some(NotFound);
    }
  }
}
