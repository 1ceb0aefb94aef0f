/** A fact about sets that several modules need. */
module Collections {

  /** The loops over sets and maps pick an element; this is why there is one. */
  lemma SomeElement<T(!new)>(s: set<T>) returns (x: T)
    requires s != {}
    ensures x in s
  {
    x :| x in s;
  }
}
