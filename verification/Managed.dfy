/** What all managed resources of the provider share. */
module Managed {
  import opened Text

  /** What becomes of the objects of a resource when the resource is deleted: "Delete" or "Orphan". */
  datatype DeletionPolicy = PolicyDelete | PolicyOrphan

  /** The namespace part of both `initializeDefaults`. */
  function DefaultNamespace(namespace: string): string {
    if TrimSpace(namespace) == "" then "default" else namespace
  }

  /** A namespace with any ink in it is kept, any other becomes the default one; once is enough. */
  lemma NamespaceLaws(namespace: string)
    ensures var n := DefaultNamespace(namespace);
            && DefaultNamespace(n) == n
            && (exists c :: c in n && !IsSpace(c))
            && ((forall c :: c in namespace ==> IsSpace(c)) ==> n == "default")
            && (n == namespace <==> namespace == "default" || exists c :: c in namespace && !IsSpace(c))
  {
    TrimSpaceIsEmptyIffBlank(namespace);
    assert 'd' in "default" && !IsSpace('d');
    TrimSpaceIsEmptyIffBlank("default");
  }
}
