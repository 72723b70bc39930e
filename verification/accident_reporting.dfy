/**
 * The accident list of frontend-new/src/components/AccidentReporting.jsx:
 * the case-insensitive location search and the three sort modes applied by
 * `filteredAccidents`.
 */
module AccidentReporting {
  import opened Text
  import opened Ordering

  /** An accident as the list shows it; `createdAt` is the instant in
      milliseconds that `new Date(createdAt)` yields. */
  datatype Accident = Accident(location: string, severity: string, createdAt: int)

  /** `{ Critical: 4, High: 3, Medium: 2, Low: 1 }[severity] || 0`. */
  function SeverityRank(severity: string): (rank: int)
    ensures 0 <= rank <= 4
    ensures rank == 4 <==> severity == "Critical"
  {
    if severity == "Critical" then 4
    else if severity == "High" then 3
    else if severity == "Medium" then 2
    else if severity == "Low" then 1
    else 0
  }

  /** The comparator `(a, b) => key(b) - key(a)` as a descending key. */
  function SortKey(sortBy: string, a: Accident): real {
    if sortBy == "newest" then a.createdAt as real
    else if sortBy == "severity" then SeverityRank(a.severity) as real
    else 0.0
  }

  /** The search: the lower-cased location contains the lower-cased term. */
  predicate Matches(searchTerm: string, a: Accident) {
    Contains(ToLower(a.location), ToLower(searchTerm))
  }

  /** `filteredAccidents`. */
  function FilteredAccidents(accidents: seq<Accident>, searchTerm: string, sortBy: string): (r: seq<Accident>)
    ensures multiset(r) == multiset(Filter(accidents, a => Matches(searchTerm, a)))
    ensures Descending(r, a => SortKey(sortBy, a))
  {
    var matches := Filter(accidents, a => Matches(searchTerm, a));
    SortDescDescending(matches, a => SortKey(sortBy, a));
    SortDesc(matches, a => SortKey(sortBy, a))
  }

  /** An accident is listed exactly when it is loaded and its location
      matches the search, ignoring case. */
  lemma FilteredMember(accidents: seq<Accident>, searchTerm: string, sortBy: string, a: Accident)
    ensures a in FilteredAccidents(accidents, searchTerm, sortBy) <==> a in accidents && Matches(searchTerm, a)
  {
    var r := FilteredAccidents(accidents, searchTerm, sortBy);
    assert a in r <==> a in multiset(r);
    FilterMember(accidents, x => Matches(searchTerm, x), a);
  }

  /** The empty search keeps every accident (as a permutation of the list). */
  lemma EmptySearchKeepsAll(accidents: seq<Accident>, sortBy: string)
    ensures multiset(FilteredAccidents(accidents, "", sortBy)) == multiset(accidents)
  {
    forall i | 0 <= i < |accidents|
      ensures Matches("", accidents[i])
    {
      ContainsEmpty(ToLower(accidents[i].location));
    }
    FilterAll(accidents, a => Matches("", a));
  }

  /** Under 'severity' the ranks do not increase along the list. */
  lemma SeverityOrder(accidents: seq<Accident>, searchTerm: string, i: nat, j: nat)
    requires var r := FilteredAccidents(accidents, searchTerm, "severity"); i < j < |r|
    ensures var r := FilteredAccidents(accidents, searchTerm, "severity");
      SeverityRank(r[i].severity) >= SeverityRank(r[j].severity)
  {
    var r := FilteredAccidents(accidents, searchTerm, "severity");
    assert SortKey("severity", r[i]) >= SortKey("severity", r[j]);
  }

  /** Under 'newest' the timestamps do not increase along the list. */
  lemma NewestOrder(accidents: seq<Accident>, searchTerm: string, i: nat, j: nat)
    requires var r := FilteredAccidents(accidents, searchTerm, "newest"); i < j < |r|
    ensures var r := FilteredAccidents(accidents, searchTerm, "newest");
      r[i].createdAt >= r[j].createdAt
  {
    var r := FilteredAccidents(accidents, searchTerm, "newest");
    assert SortKey("newest", r[i]) >= SortKey("newest", r[j]);
  }

  /** `Array.prototype.sort` is stable: the listed accidents that share a
      sort key (a timestamp under 'newest', a rank under 'severity') keep
      the order in which they were loaded. */
  lemma FilteredTies(accidents: seq<Accident>, searchTerm: string, sortBy: string, c: real)
    ensures var key := (a: Accident) => SortKey(sortBy, a);
      Filter(FilteredAccidents(accidents, searchTerm, sortBy), KeyIs(key, c))
        == Filter(Filter(accidents, a => Matches(searchTerm, a)), KeyIs(key, c))
  {
    SortDescStable(Filter(accidents, a => Matches(searchTerm, a)), a => SortKey(sortBy, a), c);
  }

  /** Any other sort mode compares every pair as equal, and the stable sort
      keeps the loaded order of the matches. */
  lemma OtherSortKeepsOrder(accidents: seq<Accident>, searchTerm: string, sortBy: string)
    requires sortBy != "newest" && sortBy != "severity"
    ensures FilteredAccidents(accidents, searchTerm, sortBy) == Filter(accidents, a => Matches(searchTerm, a))
  {
    SortDescConstantKey(Filter(accidents, a => Matches(searchTerm, a)), a => SortKey(sortBy, a), 0.0);
  }
}
