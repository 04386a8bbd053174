/** The repository dashboard of src/pages/Dashboard.tsx: the demo repositories,
    the language buttons, the search and language filter, and the totals. */
module Dashboard {
  import opened Wrappers
  import opened Seqs
  import opened Strings
  import opened Time
  import opened RepoCard

  /** `demoRepos`: repository k was updated k days ago. */
  const DemoRepos: seq<Repo> := [
    Repo(1, "next-ecommerce", "user/next-ecommerce",
      Some("A modern e-commerce platform built with Next.js, Stripe, and Tailwind CSS"),
      Some("TypeScript"), 234, 45, 8, false, 86400000),
    Repo(2, "python-ml-toolkit", "user/python-ml-toolkit",
      Some("Machine learning toolkit with pre-built models for NLP and computer vision"),
      Some("Python"), 891, 123, 15, false, 172800000),
    Repo(3, "go-microservices", "user/go-microservices",
      Some("Production-ready microservices template with gRPC and Docker"),
      Some("Go"), 456, 67, 3, true, 259200000),
    Repo(4, "react-component-lib", "user/react-component-lib",
      Some("Beautiful React component library with Storybook documentation"),
      Some("TypeScript"), 1200, 189, 22, false, 345600000),
    Repo(5, "rust-web-server", "user/rust-web-server",
      Some("High-performance web server built with Actix-web and Tokio"),
      Some("Rust"), 567, 34, 5, false, 432000000),
    Repo(6, "flutter-social-app", "user/flutter-social-app",
      Some("Cross-platform social media app with real-time messaging"),
      Some("Kotlin"), 178, 23, 11, true, 518400000),
    Repo(7, "vue-dashboard", "user/vue-dashboard",
      Some("Admin dashboard template with charts, tables, and authentication"),
      Some("JavaScript"), 345, 78, 6, false, 604800000),
    Repo(8, "swift-ios-kit", "user/swift-ios-kit",
      Some("iOS development toolkit with reusable Swift components"),
      Some("Swift"), 89, 12, 2, false, 691200000)
  ]

  function LanguageOf(r: Repo): Option<string> { r.language }

  /** `.filter(Boolean)` over the language column: the languages that are set
      and not empty, in order. */
  function PresentLanguages(langs: seq<Option<string>>): seq<string> {
    if langs == [] then []
    else (if langs[0].Some? && langs[0].value != "" then [langs[0].value] else []) + PresentLanguages(langs[1..])
  }

  lemma {:induction false} PresentLanguagesMembership(langs: seq<Option<string>>, l: string)
    ensures l in PresentLanguages(langs) <==> l != "" && Some(l) in langs
  {
    if langs != [] {
      PresentLanguagesMembership(langs[1..], l);
      assert langs == [langs[0]] + langs[1..];
    }
  }

  /** `languages`: the distinct present languages in first-occurrence order. */
  function Languages(repos: seq<Repo>): (r: seq<string>)
    ensures Distinct(r)
    ensures forall l :: l in r <==> l != "" && exists i :: 0 <= i < |repos| && repos[i].language == Some(l)
  {
    var column := Map(repos, LanguageOf);
    var r := Dedup(PresentLanguages(column));
    DedupDistinct(PresentLanguages(column));
    forall l ensures l in r <==> l != "" && exists i :: 0 <= i < |repos| && repos[i].language == Some(l) {
      DedupMembership(PresentLanguages(column), l);
      PresentLanguagesMembership(column, l);
      if Some(l) in column {
        var i :| 0 <= i < |column| && column[i] == Some(l);
        assert repos[i].language == Some(l);
      }
    }
    r
  }

  /** The language column of the demo repositories. */
  lemma DemoLanguageColumn()
    ensures Map(DemoRepos, LanguageOf) == [Some("TypeScript"), Some("Python"), Some("Go"), Some("TypeScript"),
                                           Some("Rust"), Some("Kotlin"), Some("JavaScript"), Some("Swift")]
  {
  }

  /** The first "TypeScript" is kept and the second one skipped. */
  lemma DemoDedup()
    ensures Dedup(["TypeScript", "Python", "Go", "TypeScript", "Rust", "Kotlin", "JavaScript", "Swift"])
         == ["TypeScript", "Python", "Go", "Rust", "Kotlin", "JavaScript", "Swift"]
  {
    var a, b := ["TypeScript", "Python", "Go"], ["Rust", "Kotlin", "JavaScript", "Swift"];
    assert ["TypeScript", "Python", "Go", "TypeScript", "Rust", "Kotlin", "JavaScript", "Swift"]
        == a + ["TypeScript"] + b;
    DedupSkipsRepeat(a, "TypeScript", b);
    assert Distinct(a + b);
    DedupOfDistinct(a + b);
  }

  /** The buttons of the demo page, in order. */
  lemma DemoLanguages()
    ensures Languages(DemoRepos) == ["TypeScript", "Python", "Go", "Rust", "Kotlin", "JavaScript", "Swift"]
  {
    DemoLanguageColumn();
    var c := [Some("TypeScript"), Some("Python"), Some("Go"), Some("TypeScript"), Some("Rust"),
              Some("Kotlin"), Some("JavaScript"), Some("Swift")];
    assert c[8..] == [];
    assert PresentLanguages(c) == ["TypeScript", "Python", "Go", "TypeScript", "Rust", "Kotlin", "JavaScript", "Swift"];
    DemoDedup();
  }

  /** Every demo language has its own colour on the cards. */
  lemma DemoLanguagesColoured()
    ensures forall l :: l in Languages(DemoRepos) ==> LangColor(l) != MutedColor
  {
    var langs := Languages(DemoRepos);
    DemoLanguages();
    LangColorKeys();
    forall l | l in langs ensures LangColor(l) != MutedColor {
      assert l in LangColors;
      MutedOnlyForUnknown(l);
    }
  }

  /** `matchSearch && matchLang`; `!langFilter` also holds for an empty filter. */
  predicate Keeps(search: string, langFilter: Option<string>, r: Repo) {
    var s := ToLower(search);
    var matchSearch := Contains(ToLower(r.name), s) || Contains(ToLower(OrDefault(r.description, "")), s);
    var matchLang := langFilter.None? || langFilter.value == "" || r.language == langFilter;
    matchSearch && matchLang
  }

  /** `filtered` */
  function Filtered(repos: seq<Repo>, search: string, langFilter: Option<string>): (r: seq<Repo>)
    ensures IsSubsequence(r, repos)
    ensures forall x :: x in r <==> x in repos && Keeps(search, langFilter, x)
  {
    var r := Filter(repos, x => Keeps(search, langFilter, x));
    FilterIsSubsequence(repos, x => Keeps(search, langFilter, x));
    forall x ensures x in r <==> x in repos && Keeps(search, langFilter, x) {
      FilterMembership(repos, x => Keeps(search, langFilter, x), x);
    }
    r
  }

  /** An empty search with no language selected shows every repository. */
  lemma EmptySearchKeepsAll(repos: seq<Repo>)
    ensures Filtered(repos, "", None) == repos
  {
    forall i | 0 <= i < |repos| ensures Keeps("", None, repos[i]) {
      assert IsPrefix("", ToLower(repos[i].name));
    }
    FilterAll(repos, x => Keeps("", None, x));
  }

  /** A selected language keeps only repositories written in it. */
  lemma LanguageFilterKeepsLanguage(repos: seq<Repo>, search: string, lang: string)
    requires lang != ""
    ensures forall x :: x in Filtered(repos, search, Some(lang)) ==> x.language == Some(lang)
  {
  }

  /** The search ignores the case of the search text. */
  lemma SearchIgnoresCase(repos: seq<Repo>, search: string, langFilter: Option<string>)
    ensures Filtered(repos, ToLower(search), langFilter) == Filtered(repos, search, langFilter)
  {
    ToLowerIdempotent(search);
    FilterSameTest(repos, x => Keeps(ToLower(search), langFilter, x), x => Keeps(search, langFilter, x));
  }

  function Stars(r: Repo): int { r.stars }
  function Forks(r: Repo): int { r.forks }

  /** `totalStars` and `totalForks` over the demo repositories. */
  lemma DemoTotals()
    ensures Sum(DemoRepos, Stars) == 3960
    ensures Sum(DemoRepos, Forks) == 571
  {
    var s := DemoRepos;
    assert s[8..] == [];
    assert Sum(s[7..], Stars) == 89 && Sum(s[7..], Forks) == 12;
    assert Sum(s[6..], Stars) == 434 && Sum(s[6..], Forks) == 90;
    assert Sum(s[5..], Stars) == 612 && Sum(s[5..], Forks) == 113;
    assert Sum(s[4..], Stars) == 1179 && Sum(s[4..], Forks) == 147;
    assert Sum(s[3..], Stars) == 2379 && Sum(s[3..], Forks) == 336;
    assert Sum(s[2..], Stars) == 2835 && Sum(s[2..], Forks) == 403;
    assert Sum(s[1..], Stars) == 3726 && Sum(s[1..], Forks) == 526;
  }

  /** A language button: clicking the active language clears the filter, any
      other sets it. */
  function ToggleLanguage(langFilter: Option<string>, lang: string): (r: Option<string>)
    ensures r.None? <==> langFilter == Some(lang)
    ensures r.Some? ==> r.value == lang
  {
    if langFilter == Some(lang) then None else Some(lang)
  }

  /** Clicking the same button twice from no filter gives no filter again, and a
      second click always returns to the state before the first click when that
      state was "All" or that language. */
  lemma ToggleTwice(langFilter: Option<string>, lang: string)
    requires langFilter == None || langFilter == Some(lang)
    ensures ToggleLanguage(ToggleLanguage(langFilter, lang), lang) == langFilter
  {
  }

  /** After a click on a language the shown repositories are those of that
      language, unless it was already active. */
  lemma ToggleThenFilter(repos: seq<Repo>, search: string, langFilter: Option<string>, lang: string)
    requires lang != "" && langFilter != Some(lang)
    ensures forall x :: x in Filtered(repos, search, ToggleLanguage(langFilter, lang)) ==> x.language == Some(lang)
  {
    LanguageFilterKeepsLanguage(repos, search, lang);
  }
}
