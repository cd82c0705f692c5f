/** The university picker of `components/auth/UniversitySelector.tsx`: the
    fixed list of fifteen universities, the search over name, location and
    country, and the dropdown state that a selection resets. */
module UniversitySelector {
  import opened Common

  datatype University = University(id: string, name: string, location: string, country: string)

  const Universities: seq<University> := [
    University("1", "University of Lagos", "Lagos", "Nigeria"),
    University("2", "University of Ibadan", "Ibadan", "Nigeria"),
    University("3", "Covenant University", "Ota", "Nigeria"),
    University("4", "Obafemi Awolowo University", "Ile-Ife", "Nigeria"),
    University("5", "Ahmadu Bello University", "Zaria", "Nigeria"),
    University("6", "University of Nigeria", "Nsukka", "Nigeria"),
    University("7", "Federal University of Technology", "Akure", "Nigeria"),
    University("8", "University of Port Harcourt", "Port Harcourt", "Nigeria"),
    University("9", "Bayero University", "Kano", "Nigeria"),
    University("10", "University of Calabar", "Calabar", "Nigeria"),
    University("11", "University of Ghana", "Accra", "Ghana"),
    University("12", "Kwame Nkrumah University", "Kumasi", "Ghana"),
    University("13", "University of Cape Town", "Cape Town", "South Africa"),
    University("14", "University of the Witwatersrand", "Johannesburg", "South Africa"),
    University("15", "Makerere University", "Kampala", "Uganda")
  ]

  /** The term, lower-cased, occurs in the lower-cased name, location or
      country. */
  predicate Matches(u: University, term: string) {
    var t := Lower(term);
    Contains(Lower(u.name), t) || Contains(Lower(u.location), t) || Contains(Lower(u.country), t)
  }

  /** `filteredUniversities` over a list: the universities the term
      matches, in the order of the list, each as often as listed. */
  function Search(list: seq<University>, term: string): (r: seq<University>)
    ensures |r| <= |list|
    ensures forall i :: 0 <= i < |r| ==> Matches(r[i], term)
    ensures forall i :: 0 <= i < |list| && Matches(list[i], term) ==> list[i] in r
    ensures IsSubseq(r, list)
    ensures forall u :: multiset(r)[u] == if Matches(u, term) then multiset(list)[u] else 0
  {
    FilterExact(list, (u: University) => Matches(u, term));
    Filter(list, (u: University) => Matches(u, term))
  }

  /** An empty search keeps the whole list. */
  lemma EmptyTermKeepsAll(list: seq<University>)
    ensures Search(list, "") == list
  {
    forall i | 0 <= i < |list| ensures Matches(list[i], "") {
      ContainsEmpty(Lower(list[i].name));
    }
    FilterAll(list, (u: University) => Matches(u, ""));
  }

  /** With an empty search the dropdown lists all fifteen universities. */
  lemma EmptyTermListsFifteen()
    ensures Search(Universities, "") == Universities
    ensures |Search(Universities, "")| == 15
  {
    EmptyTermKeepsAll(Universities);
  }

  /** The search ignores the letter case of the term. */
  lemma SearchIgnoresCase(list: seq<University>, term: string)
    ensures Search(list, Lower(term)) == Search(list, term)
  {
    LowerIdempotent(term);
    FilterSame(list, (u: University) => Matches(u, Lower(term)),
               (u: University) => Matches(u, term));
  }

  lemma LowerIdempotent(s: string)
    ensures Lower(Lower(s)) == Lower(s)
  {
  }

  /** No two listed universities share an id. */
  lemma UniversityIdsDistinct()
    ensures forall i, j :: 0 <= i < j < |Universities| ==> Universities[i].id != Universities[j].id
  {
    forall i, j | 0 <= i < j < |Universities|
      ensures Universities[i].id != Universities[j].id
    {
      var a := Universities[i].id;
      var b := Universities[j].id;
      if |a| == |b| {
        assert a[|a| - 1] != b[|b| - 1];
      }
    }
  }

  /** The dropdown's state: whether it is open and the search box's text,
      beside the list it searches (the fixed list above). */
  class Selector {
    var isOpen: bool
    var searchTerm: string
    const universities: seq<University>

    constructor ()
      ensures !isOpen && searchTerm == "" && universities == Universities
    {
      isOpen := false;
      searchTerm := "";
      universities := Universities;
    }

    /** The universities currently listed. */
    function Listed(): seq<University>
      reads this
    {
      Search(universities, searchTerm)
    }

    /** "No universities found" is shown exactly when nothing matches. */
    predicate ShowsNoneFound()
      reads this
    {
      |Listed()| == 0
    }

    /** The toggle button. */
    method Toggle()
      modifies this
      ensures isOpen == !old(isOpen) && searchTerm == old(searchTerm)
    {
      isOpen := !isOpen;
    }

    /** Typing in the search box. */
    method SetSearchTerm(term: string)
      modifies this
      ensures searchTerm == term && isOpen == old(isOpen)
    {
      searchTerm := term;
    }

    /** `handleSelect`: the chosen university goes to `onSelect` (returned
        here), then the dropdown closes and the search is cleared, so the
        next opening lists every university again. */
    method HandleSelect(u: University) returns (selected: University)
      modifies this
      ensures selected == u
      ensures !isOpen && searchTerm == ""
      ensures Listed() == universities
    {
      selected := u;
      isOpen := false;
      searchTerm := "";
      EmptyTermKeepsAll(universities);
    }
  }
}
