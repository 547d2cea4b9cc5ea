/**
  `controllerutil.CreateOrUpdate` of controller-runtime v0.6.2, for any mutate function, and what the
  no-op mutate of the Postgres client makes of it.
 */
module CreateOrUpdate {
  import opened Wrappers
  import opened Kubernetes

  datatype Operation = Unchanged | Created | Updated

  datatype Applied<T> = Applied(cell: Option<T>, op: Operation, err: Option<Error>)

  /** What the library fixes about a kind: the key an object carries, and what the API server fills in
      when it first stores one. */
  datatype Kind<!T> = Kind(keyOf: T -> Key, admit: T -> T)

  /** The mutate function followed by the library's check that it did not move the object. */
  function Mutate<T>(kind: Kind<T>, mutate: T -> Result<T, Error>, obj: T): Result<T, Error> {
    match mutate(obj)
    case Err(e) => Err(e)
    case Ok(changed) => if kind.keyOf(changed) == kind.keyOf(obj) then Ok(changed) else Err(Invalid)
  }

  function Apply<T(==)>(kind: Kind<T>, cell: Option<T>, obj: T, mutate: T -> Result<T, Error>, calls: Calls)
    : Applied<T>
  {
    match GetCell(cell, calls.get)
    case Err(NotFound) =>
      (match Mutate(kind, mutate, obj)
       case Err(e) => Applied(cell, Unchanged, Some(e))
       case Ok(changed) =>
         var w := CreateCell(cell, kind.admit(changed), calls.write);
         Applied(w.cell, if w.err.None? then Created else Unchanged, w.err))
    case Err(e) => Applied(cell, Unchanged, Some(e))
    case Ok(existing) =>
      (match Mutate(kind, mutate, existing)
       case Err(e) => Applied(cell, Unchanged, Some(e))
       case Ok(changed) =>
         if changed == existing then Applied(cell, Unchanged, None)
         else
           var w := UpdateCell(cell, changed, calls.write);
           Applied(w.cell, if w.err.None? then Updated else Unchanged, w.err))
  }

  function NoMutation<T>(x: T): Result<T, Error> { Ok(x) }

  /** What the client's `CreateOrUpdate` does to one cell. */
  function Ensure<T(==)>(kind: Kind<T>, cell: Option<T>, obj: T, calls: Calls): Applied<T> {
    Apply(kind, cell, obj, NoMutation, calls)
  }

  /** With the no-op mutate the call creates an absent object and otherwise only reads. */
  lemma EnsureIsCreateIfAbsent<T>(kind: Kind<T>, cell: Option<T>, obj: T, calls: Calls)
    ensures !Ensure(kind, cell, obj, calls).op.Updated?
    ensures cell.Some? ==> Ensure(kind, cell, obj, calls).cell == cell
    ensures cell.Some? ==> (Ensure(kind, cell, obj, calls).err.None? <==> calls.get.Works?)
    ensures cell.None? ==>
              Ensure(kind, cell, obj, calls).cell
              == if calls.get.Works? && calls.write.Lands() then Some(kind.admit(obj)) else None
    ensures cell.None? ==>
              (Ensure(kind, cell, obj, calls).err.None? <==> calls.get.Works? && calls.write.Works?)
  {
  }

  /** What a call leaves and reports, for any mutate: success leaves the mutation of what was stored, or of the
      given object as the server admits it, and the operation says which write happened, if any; a failure
      whose write was lost leaves what was there. */
  lemma ApplyStoresTheMutation<T>(kind: Kind<T>, cell: Option<T>, obj: T, mutate: T -> Result<T, Error>, calls: Calls)
    ensures var a := Apply(kind, cell, obj, mutate, calls);
            && (a.err.None? ==>
                  var source := if cell.Some? then cell.value else obj;
                  && mutate(source).Ok? && kind.keyOf(mutate(source).value) == kind.keyOf(source)
                  && a.cell == Some(if cell.Some? then mutate(source).value else kind.admit(mutate(source).value))
                  && (a.op.Created? <==> cell.None?)
                  && (a.op.Updated? <==> cell.Some? && a.cell != cell))
            && (a.err.Some? ==> a.op.Unchanged?)
            && (a.err.Some? && !calls.write.FailsAfter? ==> a.cell == cell)
            && (calls.get.Works? && calls.write.FailsAfter? ==>
                  a.cell == Apply(kind, cell, obj, mutate, Calls(Works, Works)).cell)
  {
  }

  predicate Settled<T(==)>(mutate: T -> Result<T, Error>, x: T) { mutate(x) == Ok(x) }

  /** A successful call whose mutate is settled by one application (also on what the server stored) makes
      every later successful call with it a read, whatever object that call starts from. */
  lemma ApplyIsIdempotent<T>(kind: Kind<T>, cell: Option<T>, obj: T, other: T,
                             mutate: T -> Result<T, Error>, first: Calls, second: Calls)
    requires Apply(kind, cell, obj, mutate, first).err.None?
    requires forall x :: mutate(x).Ok? ==> Settled(mutate, mutate(x).value)
    requires forall x :: mutate(x).Ok? ==> Settled(mutate, kind.admit(mutate(x).value))
    requires second.get.Works?
    ensures var once := Apply(kind, cell, obj, mutate, first).cell;
            once.Some? && Apply(kind, once, other, mutate, second) == Applied(once, Unchanged, None)
  {
  }

  method Perform<T(==)>(kind: Kind<T>, c: Collection<T>, obj: T, mutate: T -> Result<T, Error>, calls: Calls)
    returns (op: Operation, err: Option<Error>)
    modifies c
    ensures var k := kind.keyOf(obj);
            var applied := Apply(kind, Lookup(old(c.objects), k), obj, mutate, calls);
            && c.objects == Store(old(c.objects), k, applied.cell)
            && op == applied.op && err == applied.err
  {
    var k := kind.keyOf(obj);
    StoreLaws(c.objects, k, None, None);
    var got := c.Get(k, calls.get);
    match got
    case Err(e) =>
      if e != NotFound { return Unchanged, Some(e); }
      var changed := Mutate(kind, mutate, obj);
      if changed.Err? { return Unchanged, Some(changed.error); }
      err := c.Create(k, kind.admit(changed.value), calls.write);
      op := if err.None? then Created else Unchanged;
    case Ok(existing) =>
      var changed := Mutate(kind, mutate, existing);
      if changed.Err? { return Unchanged, Some(changed.error); }
      if changed.value == existing { return Unchanged, None; }
      err := c.Update(k, changed.value, calls.write);
      op := if err.None? then Updated else Unchanged;
  }
}
