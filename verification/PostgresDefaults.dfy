/** `initializeDefaults` of the Postgres controller, on values and on the resource itself. */
module PostgresDefaults {
  import opened Wrappers
  import opened Text
  import opened Managed
  import opened PostgresApi

  const DEFAULT_PORT: MachineInt := 5432

  function OrElse<T>(o: Option<T>, default: T): Option<T> {
    if o.Some? then o else Some(default)
  }

  function Defaulted(p: Parameters): Parameters {
    var username := OrElse(p.masterUsername, "postgres");
    p.(storageClass := OrElse(p.storageClass, "Standard"),
       masterUsername := username,
       database := if p.database.Some? then p.database else username,
       port := OrElse(p.port, DEFAULT_PORT))
  }

  /** What the flag returned by the Go function reports: the port and the namespace do not count. */
  predicate ReportsChange(p: Parameters) {
    p.storageClass.None? || p.masterUsername.None? || p.database.None?
  }

  predicate Complete(p: Parameters) {
    p.storageClass.Some? && p.masterUsername.Some? && p.database.Some? && p.port.Some?
  }

  /** Defaulting settles everything, changes nothing that was set, and is done after one application. */
  lemma DefaultingLaws(p: Parameters)
    ensures var q := Defaulted(p);
            && Complete(q)
            && Defaulted(q) == q && (ReportsChange(p) <==> q.(port := p.port) != p)
            && Stays(p.masterUsername, q.masterUsername) && Stays(p.database, q.database)
            && Stays(p.storageClass, q.storageClass) && Stays(p.port, q.port)
            && q.databaseSize == p.databaseSize && q.passwordRef == p.passwordRef
            && (p.storageClass.None? ==> q.storageClass == Some("Standard"))
            && (p.masterUsername.None? ==> q.masterUsername == Some("postgres"))
            && (p.database.None? ==> q.database == q.masterUsername)
            && (p.port.None? ==> q.port == Some(5432))
  {
  }

  /** Assigns the missing parameters. An unset database gets the very pointer of the user name. */
  method InitializeParameters(p: PostgresParameters) returns (updated: bool)
    modifies p
    ensures p.View() == Defaulted(old(p.View()))
    ensures updated == ReportsChange(old(p.View()))
    ensures old(p.database) == null ==> p.database == p.masterUsername
    ensures fresh(p.Pointees() - old(p.Pointees()))
  {
    updated := false;
    if p.storageClass == null {
      p.storageClass := new Ref("Standard");
      updated := true;
    }
    if p.masterUsername == null {
      p.masterUsername := new Ref("postgres");
      updated := true;
    }
    if p.database == null {
      p.database := p.masterUsername;
      updated := true;
    }
    if p.port == null {
      p.port := new Ref(DEFAULT_PORT);
    }
  }

  method InitializeDefaults(pg: Postgres) returns (updated: bool)
    modifies pg`namespace, pg.forProvider
    ensures pg.View() == DefaultedView(old(pg.View()))
    ensures updated == ReportsChange(old(pg.forProvider.View()))
    ensures old(pg.forProvider.database) == null ==> pg.forProvider.database == pg.forProvider.masterUsername
    ensures fresh(pg.forProvider.Pointees() - old(pg.forProvider.Pointees()))
  {
    if TrimSpace(pg.namespace) == "" {
      pg.namespace := "default";
    }
    updated := InitializeParameters(pg.forProvider);
  }

  function DefaultedView(v: PostgresView): PostgresView {
    v.(namespace := DefaultNamespace(v.namespace), parameters := Defaulted(v.parameters))
  }

  /** Defaulting one element of a slice leaves the values of the others, whatever pointers they share. */
  method DefaultElement(items: seq<Postgres>, i: nat, ghost views: seq<PostgresView>)
    requires i < |items| && Separate(items) && Show(items, views)
    modifies items[i], items[i].forProvider
    ensures Show(items, views[i := DefaultedView(views[i])])
  {
    var updated := InitializeDefaults(items[i]);
  }

  /** Defaulting an element of a deep copy is invisible in the list it was copied from, and in everything else
      that existed before: the method has nothing to modify but the copy. */
  method DefaultElementOfCopy(list: PostgresList, i: nat, ghost views: seq<PostgresView>)
    returns (copy: PostgresList)
    requires list.items.Some? && i < |list.items.value| && Show(list.items.value, views)
    ensures copy.items.Some? && Show(copy.items.value, views[i := DefaultedView(views[i])])
  {
    copy := list.DeepCopy(views);
    DisjointIsSeparate(copy.items.value);
    DefaultElement(copy.items.value, i, views);
  }

  /** It also leaves the values of resources that share no memory with the element. */
  method DefaultElementBeside(items: seq<Postgres>, i: nat, ghost views: seq<PostgresView>,
                              ghost others: seq<Postgres>, ghost otherViews: seq<PostgresView>)
    requires i < |items| && Separate(items) && Show(items, views) && Show(others, otherViews)
    requires forall j :: 0 <= j < |others| ==> others[j].Reach() !! {items[i], items[i].forProvider}
    modifies items[i], items[i].forProvider
    ensures Show(items, views[i := DefaultedView(views[i])]) && Show(others, otherViews)
  {
    DefaultElement(items, i, views);
  }

  /** The other way round: the copy keeps the values the original had before its element was defaulted. */
  method DefaultElementOfOriginal(list: PostgresList, i: nat, ghost views: seq<PostgresView>)
    returns (copy: PostgresList)
    requires list.items.Some? && i < |list.items.value| && Separate(list.items.value)
    requires Show(list.items.value, views)
    modifies list.items.value[i], list.items.value[i].forProvider
    ensures list.items == old(list.items) && Show(list.items.value, views[i := DefaultedView(views[i])])
    ensures copy.items.Some? && Show(copy.items.value, views)
  {
    copy := list.DeepCopy(views);
    DefaultElementBeside(list.items.value, i, views, copy.items.value, views);
  }
}
