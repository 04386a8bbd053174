/** The repository list of readme-gen/src/app/components/UpdatedProjectSection.tsx:
    the visibility and search filter, the summary counts and the "updated" label. */
module UpdatedProjectSection {
  import opened Wrappers
  import opened Seqs
  import opened Strings

  /** The fields of a listed repository that the filter, the counts and the
      label read. */
  datatype Project = Project(name: string, description: Option<string>, isPrivate: bool,
                             language: Option<string>, stars: int, updatedDays: int)

  datatype VisibilityFilter = All | Public | Private | Archived

  /** The visibility test: only "Public" and "Private" drop anything. */
  predicate PassesVisibility(filter: VisibilityFilter, p: Project) {
    !(filter == Public && p.isPrivate) && !(filter == Private && !p.isPrivate)
  }

  /** `field?.toLowerCase().includes(s)` is truthy: a missing field never matches. */
  predicate FieldIncludes(field: Option<string>, s: string) {
    field.Some? && Contains(ToLower(field.value), s)
  }

  /** The search test for a non-empty query. */
  predicate MatchesQuery(p: Project, q: string) {
    var s := ToLower(q);
    Contains(ToLower(p.name), s) || FieldIncludes(p.description, s) || FieldIncludes(p.language, s)
  }

  /** The predicate `projects.filter` applies. */
  predicate Keeps(filter: VisibilityFilter, q: string, p: Project) {
    PassesVisibility(filter, p) && (q == "" || MatchesQuery(p, q))
  }

  /** `filtered` */
  function Filtered(projects: seq<Project>, filter: VisibilityFilter, q: string): (r: seq<Project>)
    ensures IsSubsequence(r, projects)
    ensures forall p :: p in r <==> p in projects && Keeps(filter, q, p)
  {
    var r := Filter(projects, p => Keeps(filter, q, p));
    FilterIsSubsequence(projects, p => Keeps(filter, q, p));
    forall p ensures p in r <==> p in projects && Keeps(filter, q, p) {
      FilterMembership(projects, p => Keeps(filter, q, p), p);
    }
    r
  }

  /** "Public" keeps no private repository and "Private" no public one. */
  lemma VisibilityFilters(projects: seq<Project>, q: string)
    ensures forall p :: p in Filtered(projects, Public, q) ==> !p.isPrivate
    ensures forall p :: p in Filtered(projects, Private, q) ==> p.isPrivate
  {
  }

  /** With an empty query, "All" and "Archived" keep the whole list. */
  lemma EmptyQueryKeepsAll(projects: seq<Project>, filter: VisibilityFilter)
    requires filter == All || filter == Archived
    ensures Filtered(projects, filter, "") == projects
  {
    FilterAll(projects, p => Keeps(filter, "", p));
  }

  /** With an empty query, "Public" keeps exactly the public repositories, in order. */
  lemma EmptyQueryPublic(projects: seq<Project>)
    ensures Filtered(projects, Public, "") == Filter(projects, IsPublic)
  {
    FilterSameTest(projects, p => Keeps(Public, "", p), IsPublic);
  }

  /** The search ignores the case of the query. */
  lemma QueryIgnoresCase(projects: seq<Project>, filter: VisibilityFilter, q: string)
    ensures Filtered(projects, filter, ToLower(q)) == Filtered(projects, filter, q)
  {
    ToLowerIdempotent(q);
    FilterSameTest(projects, p => Keeps(filter, ToLower(q), p), p => Keeps(filter, q, p));
  }

  /** A repository whose name holds the lowercased query passes the search. */
  lemma NameMatchKeeps(projects: seq<Project>, filter: VisibilityFilter, q: string, p: Project)
    requires p in projects && PassesVisibility(filter, p)
    requires Contains(ToLower(p.name), ToLower(q))
    ensures p in Filtered(projects, filter, q)
  {
  }

  datatype Stats = Stats(total: int, publicCount: int, privateCount: int, totalStars: int)

  function Stars(p: Project): int { p.stars }
  predicate IsPublic(p: Project) { !p.isPrivate }
  predicate IsPrivate(p: Project) { p.isPrivate }

  /** `stats` */
  function ComputeStats(projects: seq<Project>): (r: Stats)
    ensures r.total == |projects|
    ensures r.publicCount + r.privateCount == r.total
    ensures r.publicCount == |Filter(projects, IsPublic)|
    ensures r.privateCount == |Filter(projects, IsPrivate)|
    ensures r.totalStars == Sum(projects, Stars)
  {
    FilterSplitsCount(projects, IsPublic, IsPrivate);
    Stats(|projects|, |Filter(projects, IsPublic)|, |Filter(projects, IsPrivate)|, Sum(projects, Stars))
  }

  /** The counts of two lists add up. */
  lemma StatsAdd(a: seq<Project>, b: seq<Project>)
    ensures ComputeStats(a + b).publicCount == ComputeStats(a).publicCount + ComputeStats(b).publicCount
    ensures ComputeStats(a + b).totalStars == ComputeStats(a).totalStars + ComputeStats(b).totalStars
  {
    FilterConcat(a, b, IsPublic);
    SumConcat(a, b, Stars);
  }

  /** `formatDate`, from the whole days elapsed. */
  function FormatDate(days: int): (r: string)
    ensures days == 0 ==> r == "Updated today"
    ensures days == 1 ==> r == "Updated yesterday"
    ensures days < 7 && days != 0 && days != 1 ==> r == "Updated " + IntToString(days) + " days ago"
    ensures 7 <= days < 30 ==> r == "Updated " + NatToString(days / 7) + " weeks ago"
    ensures days >= 30 ==> r == "Updated " + NatToString(days / 30) + " months ago"
  {
    if days == 0 then "Updated today"
    else if days == 1 then "Updated yesterday"
    else if days < 7 then "Updated " + IntToString(days) + " days ago"
    else if days < 30 then "Updated " + NatToString(days / 7) + " weeks ago"
    else "Updated " + NatToString(days / 30) + " months ago"
  }

  /** The number shown for an age of a week or more is the count of whole
      units: between one and four weeks below thirty days, months from then on. */
  lemma FormatDateUnits(days: int)
    requires days >= 7
    ensures var n := if days < 30 then days / 7 else days / 30;
            var unit := if days < 30 then 7 else 30;
            n >= 1 && n * unit <= days < (n + 1) * unit &&
            FormatDate(days) == "Updated " + NatToString(n) + (if days < 30 then " weeks ago" else " months ago") &&
            ParseDigits(NatToString(n)) == n &&
            (days < 30 ==> n <= 4)
  {
    var n := if days < 30 then days / 7 else days / 30;
    NatToStringRoundTrip(n);
  }
}
