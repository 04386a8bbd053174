/** The static project list of readme-gen/src/app/components/ProjectSection.tsx
    and its visibility and search filter. */
module ProjectSection {
  import opened Wrappers
  import opened Seqs
  import opened Strings

  datatype Visibility = Public | Private | Archived

  /** The filter buttons: "All", or one visibility. */
  datatype ProjectFilter = All | Only(visibility: Visibility)

  datatype Tech = Tech(name: string, count: Option<int>)

  datatype Project = Project(id: int, title: string, visibility: Visibility, short: seq<string>,
                             tech: seq<Tech>, updated: string)

  /** `PROJECTS` */
  const Projects: seq<Project> := [
    Project(1, "E-commerce App", Public,
      ["Modern e-commerce platform built with", "React and Node.js"],
      [Tech("JavaScript", Some(24)), Tech("Issues", Some(8)), Tech("PRs", Some(0))],
      "Updated 2 hours ago"),
    Project(2, "ML Analytics", Private,
      ["Machine learning analytics dashboard for", "business insights"],
      [Tech("Python", Some(12)), Tech("Issues", Some(3)), Tech("PRs", Some(0))],
      "Updated 1 day ago"),
    Project(3, "API Gateway", Public,
      ["Scalable API gateway service with", "authentication and rate limiting"],
      [Tech("Node.js", Some(45)), Tech("Issues", Some(15)), Tech("PRs", Some(0))],
      "Updated 3 days ago"),
    Project(4, "Mobile Fitness", Private,
      ["Cross-platform fitness tracking app with", "social features"],
      [Tech("Flutter", Some(8)), Tech("Issues", Some(2)), Tech("PRs", Some(0))],
      "Updated 5 days ago"),
    Project(5, "Portfolio Website", Public,
      ["Personal portfolio website with modern", "design and animations"],
      [Tech("Vue.js", Some(16)), Tech("Issues", Some(5)), Tech("PRs", Some(0))],
      "Updated 1 week ago"),
    Project(6, "Data Pipeline", Private,
      ["Automated data processing pipeline for", "real-time analytics"],
      [Tech("Go", Some(7)), Tech("Issues", Some(1)), Tech("PRs", Some(0))],
      "Updated 2 weeks ago")
  ]

  predicate PassesVisibility(filter: ProjectFilter, p: Project) {
    filter == All || p.visibility == filter.visibility
  }

  /** `p.tech.some(t => t.name.toLowerCase().includes(s))` */
  predicate SomeTechIncludes(p: Project, s: string) {
    exists i :: 0 <= i < |p.tech| && Contains(ToLower(p.tech[i].name), s)
  }

  /** The search test for a non-empty query. */
  predicate MatchesQuery(p: Project, q: string) {
    var s := ToLower(q);
    Contains(ToLower(p.title), s) || Contains(ToLower(Join(p.short, " ")), s) || SomeTechIncludes(p, s)
  }

  predicate Keeps(filter: ProjectFilter, q: string, p: Project) {
    PassesVisibility(filter, p) && (q == "" || MatchesQuery(p, q))
  }

  /** `filtered` */
  function Filtered(filter: ProjectFilter, q: string): (r: seq<Project>)
    ensures |r| <= 6
    ensures IsSubsequence(r, Projects)
    ensures forall p :: p in r <==> p in Projects && Keeps(filter, q, p)
  {
    var r := Filter(Projects, p => Keeps(filter, q, p));
    FilterIsSubsequence(Projects, p => Keeps(filter, q, p));
    forall p ensures p in r <==> p in Projects && Keeps(filter, q, p) {
      FilterMembership(Projects, p => Keeps(filter, q, p), p);
    }
    r
  }

  /** A visibility filter keeps only projects of that visibility. */
  lemma OnlyKeepsVisibility(v: Visibility, q: string)
    ensures forall p :: p in Filtered(Only(v), q) ==> p.visibility == v
  {
  }

  /** "All" with an empty query shows all six projects in their order. */
  lemma AllEmptyQueryKeepsAll()
    ensures Filtered(All, "") == Projects
  {
    FilterAll(Projects, p => Keeps(All, "", p));
  }

  /** The visibilities of `PROJECTS`, in order. */
  lemma ProjectVisibilities()
    ensures |Projects| == 6
    ensures forall k :: 0 <= k < 6 ==> Projects[k].visibility == if k % 2 == 0 then Public else Private
  {
  }

  /** With an empty query the "Public" filter keeps the first, third and fifth project. */
  lemma EmptyQueryPublic()
    ensures Filtered(Only(Public), "") == [Projects[0], Projects[2], Projects[4]]
  {
    ProjectVisibilities();
    var pub := p => Keeps(Only(Public), "", p);
    var s := Projects;
    assert s[6..] == [];
    assert Filter(s[5..], pub) == [];
    assert Filter(s[4..], pub) == [s[4]];
    assert Filter(s[3..], pub) == [s[4]];
    assert Filter(s[2..], pub) == [s[2], s[4]];
    assert Filter(s[1..], pub) == [s[2], s[4]];
    assert Filter(s, pub) == [s[0], s[2], s[4]];
  }

  /** With an empty query the "Private" filter keeps the second, fourth and sixth project. */
  lemma EmptyQueryPrivate()
    ensures Filtered(Only(Private), "") == [Projects[1], Projects[3], Projects[5]]
  {
    ProjectVisibilities();
    var pri := p => Keeps(Only(Private), "", p);
    var s := Projects;
    assert s[6..] == [];
    assert Filter(s[5..], pri) == [s[5]];
    assert Filter(s[4..], pri) == [s[5]];
    assert Filter(s[3..], pri) == [s[3], s[5]];
    assert Filter(s[2..], pri) == [s[3], s[5]];
    assert Filter(s[1..], pri) == [s[1], s[3], s[5]];
    assert Filter(s, pri) == [s[1], s[3], s[5]];
  }

  /** No project is archived, so the "Archived" filter shows nothing. */
  lemma EmptyQueryArchived(q: string)
    ensures Filtered(Only(Archived), q) == []
  {
    NoneArchived();
    var r := Filtered(Only(Archived), q);
    assert forall p :: p !in r;
  }

  lemma NoneArchived()
    ensures forall p :: p in Projects ==> p.visibility != Archived
  {
    ProjectVisibilities();
    forall p | p in Projects ensures p.visibility != Archived {
      var k :| 0 <= k < |Projects| && Projects[k] == p;
    }
  }

  /** The search ignores the case of the query. */
  lemma QueryIgnoresCase(filter: ProjectFilter, q: string)
    ensures Filtered(filter, ToLower(q)) == Filtered(filter, q)
  {
    ToLowerIdempotent(q);
    FilterSameTest(Projects, p => Keeps(filter, ToLower(q), p), p => Keeps(filter, q, p));
  }

  /** A query found in one line of a project's summary keeps the project
      when its visibility passes. */
  lemma SummaryMatchKeeps(filter: ProjectFilter, q: string, k: nat, i: nat)
    requires k < |Projects| && PassesVisibility(filter, Projects[k])
    requires i < |Projects[k].short| && Contains(ToLower(Projects[k].short[i]), ToLower(q))
    ensures Projects[k] in Filtered(filter, q)
  {
    var p := Projects[k];
    JoinContainsPart(p.short, " ", i);
    LowerContains(Join(p.short, " "), p.short[i]);
    ContainsTransitive(ToLower(Join(p.short, " ")), ToLower(p.short[i]), ToLower(q));
  }

  /** A query found in one tech name keeps the project when its visibility passes. */
  lemma TechMatchKeeps(filter: ProjectFilter, q: string, k: nat, i: nat)
    requires k < |Projects| && PassesVisibility(filter, Projects[k])
    requires i < |Projects[k].tech| && Contains(ToLower(Projects[k].tech[i].name), ToLower(q))
    ensures Projects[k] in Filtered(filter, q)
  {
    KeepsByTech(filter, q, Projects[k], i);
  }

  lemma KeepsByTech(filter: ProjectFilter, q: string, p: Project, i: nat)
    requires PassesVisibility(filter, p)
    requires i < |p.tech| && Contains(ToLower(p.tech[i].name), ToLower(q))
    ensures Keeps(filter, q, p)
  {
    assert SomeTechIncludes(p, ToLower(q));
  }
}
