/** The customer list screen's search box. */
module CustomerList {
  import opened Text
  import opened Seqs
  import opened Records

  /** A customer document with its id, as the list holds it. */
  datatype Listed = Listed(id: string, doc: CustomerDoc)

  /** The name matches case-insensitively, the phone number as typed. */
  predicate Matches(c: Listed, search: string) {
    Contains(Lower(c.doc.name), Lower(search)) || Contains(c.doc.phone, search)
  }

  /** `filtered`: the matching customers, in list order. */
  function Search(customers: seq<Listed>, search: string): (r: seq<Listed>)
    ensures forall c :: c in r <==> c in customers && Matches(c, search)
    ensures IsSubseq(r, customers)
    ensures forall x :: multiset(r)[x] == if Matches(x, search) then multiset(customers)[x] else 0
  {
    FilterIsSubseq(customers, (c: Listed) => Matches(c, search));
    FilterMultiset(customers, (c: Listed) => Matches(c, search));
    Filter(customers, (c: Listed) => Matches(c, search))
  }

  /** An empty search box lists every customer. */
  lemma SearchEmpty(customers: seq<Listed>)
    ensures Search(customers, "") == customers
  {
    FilterKeepsAll(customers, (c: Listed) => Matches(c, ""));
  }

  /** Searching the results again with the same text changes nothing. */
  lemma SearchIdempotent(customers: seq<Listed>, search: string)
    ensures Search(Search(customers, search), search) == Search(customers, search)
  {
    FilterIdempotent(customers, (c: Listed) => Matches(c, search));
  }

  /** Case does not matter for the name: an upper-cased search finds what its lower-case form finds by name. */
  lemma SearchNameIgnoresCase(c: Listed, search: string)
    requires Contains(Lower(c.doc.name), Lower(search))
    ensures Matches(c, Lower(search)) && Matches(c, search)
  {
    LowerIdempotent(search);
  }
}
