/**
  The Postgres custom resource: its parameters as values, and the objects of
  `apis/database/v1alpha1` with their pointers and generated deep copies.
 */
module PostgresApi {
  import opened Wrappers
  import opened Text
  import opened Managed

  datatype SecretKeySelector = SecretKeySelector(name: string, namespace: string, key: string)

  /** The parameters with every pointer followed: None is a nil pointer. */
  datatype Parameters = Parameters(
    databaseSize: string,
    masterUsername: Option<string>,
    database: Option<string>,
    storageClass: Option<string>,
    port: Option<MachineInt>,
    passwordRef: Option<SecretKeySelector>)

  /** A variable that pointers point to. */
  class Ref<T> {
    var value: T

    constructor (value: T)
      ensures this.value == value
    {
      this.value := value;
    }
  }

  function Target<T>(p: Ref?<T>): Option<T>
    reads p
  {
    if p == null then None else Some(p.value)
  }

  ghost function Box<T>(p: Ref?<T>): set<object> {
    if p == null then {} else {p}
  }

  method Allocate<T>(v: Option<T>) returns (p: Ref?<T>)
    ensures fresh(Box(p)) && Target(p) == v
  {
    p := null;
    if v.Some? { p := new Ref(v.value); }
  }

  /** The generated code for one optional field: a nil pointer stays, any other gets a variable of its own. */
  method CopyPointer<T>(p: Ref?<T>) returns (q: Ref?<T>)
    ensures p == null <==> q == null
    ensures q != null ==> fresh(q)
    ensures Target(q) == Target(p)
  {
    q := null;
    if p != null { q := new Ref(p.value); }
  }

  class PostgresParameters {
    var databaseSize: string
    var masterUsername: Ref?<string>
    var database: Ref?<string>
    var storageClass: Ref?<string>
    var port: Ref?<MachineInt>
    var passwordRef: Ref?<SecretKeySelector>

    constructor ()
      ensures View() == Parameters("", None, None, None, None, None)
    {
      databaseSize := "";
      masterUsername, database, storageClass, port, passwordRef := null, null, null, null, null;
    }

    /** Decodes stored parameters: every field gets a pointer of its own. */
    constructor Decode(p: Parameters)
      ensures View() == p && fresh(Pointees())
    {
      var u := Allocate(p.masterUsername);
      var d := Allocate(p.database);
      var c := Allocate(p.storageClass);
      var n := Allocate(p.port);
      var r := Allocate(p.passwordRef);
      databaseSize := p.databaseSize;
      masterUsername, database, storageClass, port, passwordRef := u, d, c, n, r;
    }

    function View(): Parameters
      reads this, masterUsername, database, storageClass, port, passwordRef
    {
      Parameters(databaseSize, Target(masterUsername), Target(database), Target(storageClass), Target(port),
                 Target(passwordRef))
    }

    /** The variables the five optional fields point to. */
    ghost function Pointees(): set<object>
      reads this
    {
      Box(masterUsername) + Box(database) + Box(storageClass) + Box(port) + Box(passwordRef)
    }

    /** No two of the five fields point to the same variable. */
    ghost predicate Unshared()
      reads this
    {
      Box(masterUsername) !! Box(database) !! Box(storageClass) !! Box(port) !! Box(passwordRef)
    }

    /** New variables for the fields that are set, each holding what the old one holds. */
    method CopyPointees()
      returns (u: Ref?<string>, d: Ref?<string>, c: Ref?<string>, n: Ref?<MachineInt>, r: Ref?<SecretKeySelector>)
      ensures fresh(Box(u)) && fresh(Box(d)) && fresh(Box(c)) && fresh(Box(n)) && fresh(Box(r))
      ensures Box(u) !! Box(d) !! Box(c) !! Box(n) !! Box(r)
      ensures Target(u) == Target(masterUsername) && Target(d) == Target(database) && Target(c) == Target(storageClass)
      ensures Target(n) == Target(port) && Target(r) == Target(passwordRef)
    {
      u := CopyPointer(masterUsername);
      d := CopyPointer(database);
      c := CopyPointer(storageClass);
      n := CopyPointer(port);
      r := CopyPointer(passwordRef);
    }

    /** A copy into another struct: equal values behind new pointers, no two of them shared. */
    method DeepCopyInto(out: PostgresParameters)
      requires out != this
      modifies out
      ensures out.View() == View() == old(View())
      ensures fresh(out.Pointees()) && out.Unshared()
    {
      var u, d, c, n, r := CopyPointees();
      out.databaseSize := databaseSize;
      out.masterUsername := u;
      out.database := d;
      out.storageClass := c;
      out.port := n;
      out.passwordRef := r;
    }

    method DeepCopy() returns (out: PostgresParameters)
      ensures fresh(out) && fresh(out.Pointees()) && out.Unshared()
      ensures out.View() == View()
    {
      out := new PostgresParameters();
      DeepCopyInto(out);
    }
  }

  /** A Postgres resource as a value. */
  datatype PostgresView = PostgresView(
    name: string, namespace: string, policy: DeletionPolicy, parameters: Parameters, ready: bool, pvcStatus: string)

  class Postgres {
    var name: string
    var namespace: string
    var policy: DeletionPolicy
    /** The struct embedded in the spec; its address is fixed by the address of the resource. */
    const forProvider: PostgresParameters
    /** Whether the status holds the condition Ready=True. */
    var ready: bool
    var pvcStatus: string

    constructor ()
      ensures fresh(forProvider)
      ensures View() == PostgresView("", "", PolicyDelete, Parameters("", None, None, None, None, None), false, "")
    {
      name, namespace, policy, ready, pvcStatus := "", "", PolicyDelete, false, "";
      forProvider := new PostgresParameters();
    }

    constructor Decode(v: PostgresView)
      ensures fresh(forProvider) && fresh(forProvider.Pointees())
      ensures View() == v
    {
      name, namespace, policy, ready, pvcStatus := v.name, v.namespace, v.policy, v.ready, v.pvcStatus;
      forProvider := new PostgresParameters.Decode(v.parameters);
    }

    function View(): PostgresView
      reads this, forProvider, forProvider.masterUsername, forProvider.database, forProvider.storageClass,
            forProvider.port, forProvider.passwordRef
    {
      PostgresView(name, namespace, policy, forProvider.View(), ready, pvcStatus)
    }

    /** Everything a write through this resource can reach. */
    ghost function Reach(): set<object>
      reads this, forProvider
    {
      {this, forProvider} + forProvider.Pointees()
    }

    method DeepCopyInto(out: Postgres)
      requires out != this && out.forProvider != forProvider
      modifies out, out.forProvider
      ensures out.View() == old(View()) && View() == old(View())
      ensures fresh(out.forProvider.Pointees()) && out.forProvider.Unshared()
    {
      out.name, out.namespace, out.policy := name, namespace, policy;
      forProvider.DeepCopyInto(out.forProvider);
      out.ready, out.pvcStatus := ready, pvcStatus;
    }

    method DeepCopy() returns (out: Postgres)
      ensures fresh(out.Reach()) && out.forProvider.Unshared()
      ensures out.View() == View()
    {
      out := new Postgres();
      DeepCopyInto(out);
    }
  }

  /** The elements of a slice: no two of them, and no two of their embedded structs, are the same. Their
      pointers may be shared. */
  ghost predicate Separate(items: seq<Postgres>) {
    forall i, j :: 0 <= i < j < |items| ==> items[i] != items[j] && items[i].forProvider != items[j].forProvider
  }

  /** No two of these regions of memory overlap. */
  ghost predicate Apart(regions: seq<set<object>>) {
    forall i, j :: 0 <= i < j < |regions| ==> regions[i] !! regions[j]
  }

  /** No two elements reach any common memory, and no two pointers in one of them are shared. */
  ghost predicate Disjoint(items: seq<Postgres>)
    reads items, set p | p in items :: p.forProvider
  {
    && (forall i, j :: 0 <= i < j < |items| ==> items[i].Reach() !! items[j].Reach())
    && (forall i :: 0 <= i < |items| ==> items[i].forProvider.Unshared())
  }

  lemma DisjointIsSeparate(items: seq<Postgres>)
    requires Disjoint(items)
    ensures Separate(items)
  {
    assert forall i :: 0 <= i < |items| ==> items[i] in items[i].Reach() && items[i].forProvider in items[i].Reach();
  }

  /** The elements have these values. Contracts over lists name the values by it, so that those of one moment
      can be compared with those of another. */
  ghost predicate Show(items: seq<Postgres>, views: seq<PostgresView>)
    reads *
  {
    |items| == |views| && forall i :: 0 <= i < |items| ==> items[i].View() == views[i]
  }

  /** What is kept of a copy: its value, and the memory it reaches, in which nothing is shared. */
  ghost predicate Finished(copy: Postgres, region: set<object>, v: PostgresView)
    reads copy, copy.forProvider, copy.forProvider.masterUsername, copy.forProvider.database,
          copy.forProvider.storageClass, copy.forProvider.port, copy.forProvider.passwordRef
  {
    copy.Reach() == region && copy.forProvider.Unshared() && copy.View() == v
  }

  /** Every element so far is a finished copy, and no two of them overlap. */
  ghost predicate AllFinished(copies: seq<Postgres>, regions: seq<set<object>>, views: seq<PostgresView>)
    reads *
  {
    && |copies| == |regions| <= |views| && Apart(regions)
    && forall j :: 0 <= j < |copies| ==> Finished(copies[j], regions[j], views[j])
  }

  /** A deep copy of p in memory of its own. What is finished stays so. */
  method NextCopy(p: Postgres, ghost copies: seq<Postgres>, ghost regions: seq<set<object>>,
                  ghost views: seq<PostgresView>)
    returns (copy: Postgres, ghost region: set<object>)
    requires AllFinished(copies, regions, views) && |copies| < |views| && p.View() == views[|copies|]
    ensures AllFinished(copies, regions, views)
    ensures Finished(copy, region, views[|copies|]) && fresh(region) && Apart(regions + [region])
  {
    copy := p.DeepCopy();
    region := copy.Reach();
  }

  lemma OneMoreIsFinished(copies: seq<Postgres>, regions: seq<set<object>>, views: seq<PostgresView>,
                          copy: Postgres, region: set<object>)
    requires AllFinished(copies, regions, views) && |copies| < |views|
    requires Finished(copy, region, views[|copies|]) && Apart(regions + [region])
    ensures AllFinished(copies + [copy], regions + [region], views)
  {
  }

  lemma FinishedIsDisjoint(copies: seq<Postgres>, regions: seq<set<object>>, views: seq<PostgresView>)
    requires AllFinished(copies, regions, views) && |copies| == |views|
    ensures Show(copies, views) && Disjoint(copies)
    ensures forall i :: 0 <= i < |copies| ==> copies[i].Reach() == regions[i]
  {
    assert forall i :: 0 <= i < |copies| ==> Finished(copies[i], regions[i], views[i]);
  }

  /** The loop keeps, for every copy, the memory it reaches. */
  method CopyItems(items: seq<Postgres>, ghost views: seq<PostgresView>) returns (copies: seq<Postgres>)
    requires Show(items, views)
    ensures Show(copies, views) && Disjoint(copies)
    ensures forall i :: 0 <= i < |copies| ==> fresh(copies[i].Reach())
  {
    copies := [];
    ghost var regions: seq<set<object>> := [];
    for i := 0 to |items|
      invariant |copies| == i && AllFinished(copies, regions, views)
      invariant forall j :: 0 <= j < i ==> fresh(regions[j])
    {
      var copy, region := NextCopy(items[i], copies, regions, views);
      OneMoreIsFinished(copies, regions, views, copy, region);
      copies, regions := copies + [copy], regions + [region];
    }
    FinishedIsDisjoint(copies, regions, views);
  }

  class PostgresList {
    var resourceVersion: string
    /** None is a nil slice. */
    var items: Option<seq<Postgres>>

    constructor ()
      ensures items == None && resourceVersion == ""
    {
      resourceVersion, items := "", None;
    }

    /** A nil slice stays nil; any other becomes a slice of the same length whose elements have equal values and
        share no memory with each other or with anything that existed before. */
    method DeepCopyInto(out: PostgresList, ghost views: seq<PostgresView>)
      requires out != this && (items.Some? ==> Show(items.value, views))
      modifies out
      ensures out.resourceVersion == resourceVersion && (out.items.None? <==> items.None?)
      ensures items.Some? ==> Show(out.items.value, views) && Disjoint(out.items.value)
      ensures items.Some? ==> forall i :: 0 <= i < |views| ==> fresh(out.items.value[i].Reach())
    {
      out.resourceVersion, out.items := resourceVersion, None;
      if items.Some? {
        var copies := CopyItems(items.value, views);
        out.items := Some(copies);
      }
    }

    method DeepCopy(ghost views: seq<PostgresView>) returns (out: PostgresList)
      requires items.Some? ==> Show(items.value, views)
      ensures fresh(out)
      ensures out.resourceVersion == resourceVersion && (out.items.None? <==> items.None?)
      ensures items.Some? ==> Show(out.items.value, views) && Disjoint(out.items.value)
      ensures items.Some? ==> forall i :: 0 <= i < |views| ==> fresh(out.items.value[i].Reach())
    {
      out := new PostgresList();
      DeepCopyInto(out, views);
    }
  }
}
