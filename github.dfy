/** The repository sampler and the technology detector of
    readme-gen/src/lib/github.ts: which entries of a repository's tree are
    read, how the fetched files are collected and tagged, and which
    technology labels a list of files yields. The GitHub calls themselves are
    parameters: a tree listing that may have failed, and a content fetch per
    path that may fail. */
module GitHub {
  import opened Wrappers
  import opened Seqs
  import opened Strings

  /** One entry of the recursive tree listing: its path, its `type`
      ("blob", "tree", "commit") and its size in bytes. */
  datatype TreeEntry = TreeEntry(path: string, kind: string, size: int)

  /** A sampled file: its path, its raw text and the tag taken from its extension. */
  datatype RepoContent = RepoContent(path: string, content: string, language: string)

  const CodeExtensions: seq<string> := [
    ".js", ".jsx", ".ts", ".tsx", ".py", ".java", ".cpp", ".c", ".go",
    ".rs", ".rb", ".php", ".swift", ".kt", ".dart", ".vue", ".svelte",
    ".html", ".css", ".scss", ".json", ".yaml", ".yml", ".md", ".txt",
    ".sh", ".sql", ".graphql", ".prisma"
  ]

  const ImportantFiles: seq<string> := [
    "package.json", "requirements.txt", "Cargo.toml", "go.mod", "pom.xml",
    "build.gradle", "composer.json", "Gemfile", "setup.py", "pyproject.toml",
    "README.md", "LICENSE", ".gitignore", "Dockerfile", "docker-compose.yml",
    "tsconfig.json", "next.config.js", "vite.config.js", "webpack.config.js"
  ]

  /** Path substrings that mark vendored or generated directories. */
  const VendoredMarkers: seq<string> := [
    "node_modules/", "dist/", "build/", ".next/", "vendor/", "__pycache__/"
  ]

  const MaxFileSize := 100000
  const MaxFiles := 50
  const BatchSize := 5

  /** `path.split("/").pop() || ""` */
  function FileName(path: string): (r: string)
    ensures '/' !in r
    ensures '/' !in path ==> r == path
  {
    LastSegment(path, '/')
  }

  /** `"." + fileName.split(".").pop()`: a dot and the text after the last dot,
      or a dot and the whole name when it has none. */
  function Extension(fileName: string): (r: string)
    ensures r != [] && r[0] == '.' && '.' !in r[1..]
    ensures '.' !in fileName ==> r == "." + fileName
  {
    "." + LastSegment(fileName, '.')
  }

  predicate IsVendored(path: string) {
    exists m :: m in VendoredMarkers && Contains(path, m)
  }

  /** The filter of readRepositoryFiles: a blob of at most 100 000 bytes, outside
      the vendored directories, whose name or extension is on an allow-list. */
  predicate ShouldRead(e: TreeEntry) {
    && e.kind == "blob"
    && !(e.size > MaxFileSize)
    && !IsVendored(e.path)
    && (FileName(e.path) in ImportantFiles || Extension(FileName(e.path)) in CodeExtensions)
  }

  /** `tree.filter(ShouldRead).slice(0, 50)` */
  function FilesToRead(tree: seq<TreeEntry>): (r: seq<TreeEntry>)
    ensures |r| <= MaxFiles
    ensures forall i :: 0 <= i < |r| ==> r[i].kind == "blob" && r[i].size <= MaxFileSize
    ensures forall i, m :: 0 <= i < |r| && m in VendoredMarkers ==> !Contains(r[i].path, m)
    ensures forall i :: 0 <= i < |r| ==>
      FileName(r[i].path) in ImportantFiles || Extension(FileName(r[i].path)) in CodeExtensions
  {
    Take(Filter(tree, ShouldRead), MaxFiles)
  }

  /** The selection keeps tree order. */
  lemma SelectionIsOrdered(tree: seq<TreeEntry>)
    ensures IsSubsequence(FilesToRead(tree), tree)
  {
    var kept := Filter(tree, ShouldRead);
    FilterIsSubsequence(tree, ShouldRead);
    TakeIsSubsequence(kept, MaxFiles);
    SubsequenceTransitive(FilesToRead(tree), kept, tree);
  }

  lemma {:induction false} TakeIsSubsequence<T>(s: seq<T>, n: nat)
    ensures IsSubsequence(Take(s, n), s)
    decreases |s|
  {
    if s != [] && n > 0 {
      TakeIsSubsequence(s[1..], n - 1);
      assert Take(s, n)[1..] == Take(s[1..], n - 1);
    } else if s != [] {
      assert Take(s, n) == [];
    }
  }

  lemma {:induction false} SubsequenceTransitive<T>(a: seq<T>, b: seq<T>, c: seq<T>)
    requires IsSubsequence(a, b) && IsSubsequence(b, c)
    ensures IsSubsequence(a, c)
    decreases |c|
  {
    if a != [] {
      assert b != [] && c != [];
      if b[0] == c[0] {
        if a[0] == b[0] {
          SubsequenceTransitive(a[1..], b[1..], c[1..]);
        } else {
          SubsequenceTransitive(a, b[1..], c[1..]);
        }
      } else {
        SubsequenceTransitive(a, b, c[1..]);
        if a[0] == c[0] {
          SubsequenceTail(a, c[1..]);
        }
      }
    }
  }

  /** An entry that passes the filter is left out only when 50 others came first. */
  lemma SelectionIsFirstFifty(tree: seq<TreeEntry>, e: TreeEntry)
    requires e in tree && ShouldRead(e) && e !in FilesToRead(tree)
    ensures |FilesToRead(tree)| == MaxFiles
  {
    FilterMembership(tree, ShouldRead, e);
  }

  /** Entries listed after the fiftieth selected one do not change the selection. */
  lemma SelectionIgnoresLaterEntries(tree: seq<TreeEntry>, more: seq<TreeEntry>)
    requires |FilesToRead(tree)| == MaxFiles
    ensures FilesToRead(tree + more) == FilesToRead(tree)
  {
    FilterConcat(tree, more, ShouldRead);
    var kept := Filter(tree, ShouldRead);
    assert (kept + Filter(more, ShouldRead))[..MaxFiles] == kept[..MaxFiles];
  }

  /** The vendored test is a substring test: `mydist/` is skipped as `dist/` is. */
  lemma SubstringMarkerExcludes()
    ensures !ShouldRead(TreeEntry("src/mydist/app.js", "blob", 10))
  {
    var p := "src/mydist/app.js";
    assert p[6..11] == "dist/";
    ContainsAt(p, "dist/", 6);
    assert "dist/" in VendoredMarkers;
  }

  /** `file.path.split(".").pop() || ""`: the text after the last dot of the
      whole path, which is the whole path when it has no dot. */
  function LanguageTag(path: string): (r: string)
    ensures '.' !in r
    ensures |r| <= |path| && r == path[|path| - |r|..]
    ensures |r| < |path| ==> path[|path| - |r| - 1] == '.'
    ensures '.' !in path ==> r == path
  {
    LastSegment(path, '.')
  }

  /** What fetching one selected entry contributes: the file, or nothing when the fetch failed. */
  function FetchOne(e: TreeEntry, fetch: string -> Option<string>): (r: seq<RepoContent>)
    ensures |r| <= 1
    ensures r == [] <==> fetch(e.path).None?
    ensures r != [] ==> r[0] == RepoContent(e.path, fetch(e.path).value, LanguageTag(e.path))
  {
    match fetch(e.path)
    case Some(content) => [RepoContent(e.path, content, LanguageTag(e.path))]
    case None => []
  }

  /** The files collected from the selected entries, in the order they are fetched. */
  function Collected(entries: seq<TreeEntry>, fetch: string -> Option<string>): (r: seq<RepoContent>)
    ensures |r| <= |entries|
    ensures forall k :: 0 <= k < |r| ==>
      fetch(r[k].path) == Some(r[k].content) && r[k].language == LanguageTag(r[k].path)
  {
    if entries == [] then []
    else Collected(entries[..|entries| - 1], fetch) + FetchOne(entries[|entries| - 1], fetch)
  }

  /** Every returned file comes from a selected entry. */
  lemma {:induction false} CollectedFromEntries(entries: seq<TreeEntry>, fetch: string -> Option<string>, f: RepoContent)
    requires f in Collected(entries, fetch)
    ensures exists e :: e in entries && e.path == f.path
  {
    var last := entries[|entries| - 1];
    var front := entries[..|entries| - 1];
    if f in Collected(front, fetch) {
      CollectedFromEntries(front, fetch, f);
      var e :| e in front && e.path == f.path;
      assert e in entries;
    } else {
      assert last in entries;
    }
  }

  /** A failed fetch leaves out that file only: every entry whose fetch succeeds is returned. */
  lemma {:induction false} CollectedKeepsSuccesses(entries: seq<TreeEntry>, fetch: string -> Option<string>, e: TreeEntry)
    requires e in entries && fetch(e.path).Some?
    ensures RepoContent(e.path, fetch(e.path).value, LanguageTag(e.path)) in Collected(entries, fetch)
  {
    var last := entries[|entries| - 1];
    var front := entries[..|entries| - 1];
    if e != last {
      assert entries == front + [last];
      CollectedKeepsSuccesses(front, fetch, e);
    }
  }

  /** readRepositoryFiles: select the entries, fetch them `BatchSize` at a time,
      push each successful fetch and skip the ones that fail. A failed tree
      listing fails the whole call. */
  method ReadRepositoryFiles(tree: Option<seq<TreeEntry>>, fetch: string -> Option<string>)
    returns (files: Option<seq<RepoContent>>)
    ensures tree.None? <==> files.None?
    ensures tree.Some? ==> files.value == Collected(FilesToRead(tree.value), fetch)
    ensures tree.Some? ==> |files.value| <= MaxFiles
  {
    if tree.None? {
      return None;
    }
    var toRead := FilesToRead(tree.value);
    var out: seq<RepoContent> := [];
    var i := 0;
    while i < |toRead|
      invariant 0 <= i <= |toRead|
      invariant out == Collected(toRead[..i], fetch)
      decreases |toRead| - i
    {
      var end := if i + BatchSize < |toRead| then i + BatchSize else |toRead|;
      var j := i;
      while j < end
        invariant i <= j <= end
        invariant out == Collected(toRead[..j], fetch)
      {
        var entry := toRead[j];
        CollectedStep(toRead, j, fetch);
        match fetch(entry.path) {
          case Some(content) =>
            out := out + [RepoContent(entry.path, content, LanguageTag(entry.path))];
          case None =>
        }
        j := j + 1;
      }
      i := end;
    }
    assert toRead[..|toRead|] == toRead;
    files := Some(out);
  }

  lemma CollectedStep(entries: seq<TreeEntry>, k: nat, fetch: string -> Option<string>)
    requires k < |entries|
    ensures Collected(entries[..k + 1], fetch) == Collected(entries[..k], fetch) + FetchOne(entries[k], fetch)
  {
    assert entries[..k + 1][..k] == entries[..k];
  }

  /** The parts of a parsed `package.json` the core looks at: the dependency
      keys whose value is truthy, and the `scripts` entries when `scripts` is truthy. */
  datatype Manifest = Manifest(dependencies: set<string>, scripts: Option<seq<(string, string)>>)

  /** `JSON.parse` followed by reading the manifest; `None` when it throws. */
  type Parser = string -> Option<Manifest>

  /** The framework labels added from the dependencies of a parsed manifest. */
  function DependencyLabels(pkg: Option<Manifest>): (r: seq<string>)
    ensures pkg.None? ==> r == []
    ensures forall l :: l in r ==> l in ["React", "Next.js", "Vue.js", "Express", "TypeScript"]
    ensures pkg.Some? ==> ("React" in r <==> "react" in pkg.value.dependencies)
    ensures pkg.Some? ==> ("Next.js" in r <==> "next" in pkg.value.dependencies)
    ensures pkg.Some? ==> ("Vue.js" in r <==> "vue" in pkg.value.dependencies)
    ensures pkg.Some? ==> ("Express" in r <==> "express" in pkg.value.dependencies)
    ensures pkg.Some? ==> ("TypeScript" in r <==> "typescript" in pkg.value.dependencies)
  {
    match pkg
    case None => []
    case Some(m) =>
      (if "react" in m.dependencies then ["React"] else [])
      + (if "next" in m.dependencies then ["Next.js"] else [])
      + (if "vue" in m.dependencies then ["Vue.js"] else [])
      + (if "express" in m.dependencies then ["Express"] else [])
      + (if "typescript" in m.dependencies then ["TypeScript"] else [])
  }

  /** One row of the detection table. */
  datatype Rule =
    | ManifestRule                                        // a `package.json`: Node.js, then its dependencies
    | NameIn(names: seq<string>, adds: string)           // the file name is one of `names`
    | TagIn(tags: seq<string>, adds: string)             // the language tag is one of `tags`
    | NameOrPathHas(name: string, marker: string, adds: string)
    | PathHas(marker: string, adds: string)
    | ContentHas(marker: string, adds: string)

  /** The rules of detectTechnologies, in the order the source applies them. */
  const Rules: seq<Rule> := [
    ManifestRule,
    NameIn(["requirements.txt", "setup.py"], "Python"),
    NameIn(["Cargo.toml"], "Rust"),
    NameIn(["go.mod"], "Go"),
    NameIn(["pom.xml", "build.gradle"], "Java"),
    NameIn(["Gemfile"], "Ruby"),
    NameIn(["composer.json"], "PHP"),
    TagIn(["tsx", "jsx"], "React"),
    TagIn(["ts"], "TypeScript"),
    TagIn(["py"], "Python"),
    TagIn(["java"], "Java"),
    TagIn(["go"], "Go"),
    TagIn(["rs"], "Rust"),
    TagIn(["rb"], "Ruby"),
    TagIn(["php"], "PHP"),
    TagIn(["swift"], "Swift"),
    TagIn(["kt"], "Kotlin"),
    TagIn(["dart"], "Dart/Flutter"),
    NameIn(["next.config.js", "next.config.ts"], "Next.js"),
    NameIn(["nuxt.config.js"], "Nuxt.js"),
    NameIn(["angular.json"], "Angular"),
    NameIn(["svelte.config.js"], "Svelte"),
    NameOrPathHas("prisma.schema", "prisma/", "Prisma"),
    ContentHas("mongoose", "MongoDB"),
    ContentHas("sequelize", "SQL"),
    NameIn(["Dockerfile"], "Docker"),
    NameIn(["docker-compose.yml"], "Docker Compose"),
    PathHas(".github/workflows/", "GitHub Actions")
  ]

  /** The labels one rule adds for one file. */
  function Fire(rule: Rule, file: RepoContent, parse: Parser): (r: seq<string>)
    ensures rule.ManifestRule? ==> (r != [] <==> FileName(file.path) == "package.json")
    ensures !rule.ManifestRule? ==> |r| <= 1
  {
    var name := FileName(file.path);
    match rule
    case ManifestRule =>
      if name == "package.json" then ["Node.js"] + DependencyLabels(parse(file.content)) else []
    case NameIn(names, adds) => if name in names then [adds] else []
    case TagIn(tags, adds) => if file.language in tags then [adds] else []
    case NameOrPathHas(n, marker, adds) =>
      if name == n || Contains(file.path, marker) then [adds] else []
    case PathHas(marker, adds) => if Contains(file.path, marker) then [adds] else []
    case ContentHas(marker, adds) => if Contains(file.content, marker) then [adds] else []
  }

  /** `Fire` for one file, as a function of the rule. */
  function FireOf(file: RepoContent, parse: Parser): Rule -> seq<string> {
    rule => Fire(rule, file, parse)
  }

  /** The labels a list of rules adds for one file, rule after rule. */
  function FireAll(rules: seq<Rule>, file: RepoContent, parse: Parser): (r: seq<string>)
    ensures forall l :: l in r ==> exists k :: 0 <= k < |rules| && l in Fire(rules[k], file, parse)
  {
    var fire := FireOf(file, parse);
    var r := Flatten(rules, fire);
    assert forall l :: l in r ==> exists k :: 0 <= k < |rules| && l in Fire(rules[k], file, parse) by {
      forall l | l in r ensures exists k :: 0 <= k < |rules| && l in Fire(rules[k], file, parse) {
        FlattenSound(rules, fire, l);
        var x :| x in rules && l in fire(x);
        var k :| 0 <= k < |rules| && rules[k] == x;
        assert fire(x) == Fire(x, file, parse);
      }
    }
    r
  }

  lemma FireAllIncludes(rules: seq<Rule>, file: RepoContent, parse: Parser, k: nat, l: string)
    requires k < |rules| && l in Fire(rules[k], file, parse)
    ensures l in FireAll(rules, file, parse)
  {
    var fire := FireOf(file, parse);
    assert fire(rules[k]) == Fire(rules[k], file, parse);
    FlattenComplete(rules, fire, rules[k], l);
  }

  /** The labels one file adds to the set, in the order the rules add them. */
  function FileLabels(file: RepoContent, parse: Parser): seq<string> {
    FireAll(Rules, file, parse)
  }

  /** A rule of the table that fires for a file contributes its labels. */
  lemma RuleContributes(file: RepoContent, parse: Parser, k: nat, l: string)
    requires k < |Rules| && l in Fire(Rules[k], file, parse)
    ensures l in FileLabels(file, parse)
  {
    FireAllIncludes(Rules, file, parse, k, l);
  }

  /** Every `add` call the `forEach` makes, in order. */
  function Candidates(files: seq<RepoContent>, parse: Parser): seq<string> {
    Flatten(files, LabelsOf(parse))
  }

  /** `FileLabels` for one parser, as a function of the file. */
  function LabelsOf(parse: Parser): RepoContent -> seq<string> {
    file => FileLabels(file, parse)
  }

  /** Each `add` call comes from a rule firing for some file. */
  lemma CandidatesSound(files: seq<RepoContent>, parse: Parser, l: string)
    requires l in Candidates(files, parse)
    ensures exists f :: f in files && l in FileLabels(f, parse)
  {
    FlattenSound(files, LabelsOf(parse), l);
    var f :| f in files && l in LabelsOf(parse)(f);
    assert LabelsOf(parse)(f) == FileLabels(f, parse);
  }

  lemma CandidatesComplete(files: seq<RepoContent>, parse: Parser, f: RepoContent, l: string)
    requires f in files && l in FileLabels(f, parse)
    ensures l in Candidates(files, parse)
  {
    assert LabelsOf(parse)(f) == FileLabels(f, parse);
    FlattenComplete(files, LabelsOf(parse), f, l);
  }

  lemma CandidatesConcat(a: seq<RepoContent>, b: seq<RepoContent>, parse: Parser)
    ensures Candidates(a + b, parse) == Candidates(a, parse) + Candidates(b, parse)
  {
    FlattenConcat(a, b, LabelsOf(parse));
  }

  /** The labels `Array.from(technologies)` lists. */
  function Detected(files: seq<RepoContent>, parse: Parser): seq<string> {
    Dedup(Candidates(files, parse))
  }

  /** detectTechnologies: each label once, and a label is present exactly when
      some file triggers a rule for it. */
  method DetectTechnologies(files: seq<RepoContent>, parse: Parser) returns (labels: seq<string>)
    ensures labels == Detected(files, parse)
    ensures Distinct(labels)
    ensures forall l :: l in labels <==> exists f :: f in files && l in FileLabels(f, parse)
  {
    labels := [];
    var i := 0;
    while i < |files|
      invariant 0 <= i <= |files|
      invariant labels == Dedup(Candidates(files[..i], parse))
    {
      labels := AddAll(labels, Candidates(files[..i], parse), FileLabels(files[i], parse));
      CandidatesStep(files, i, parse);
      i := i + 1;
    }
    assert files[..|files|] == files;
    DedupDistinct(Candidates(files, parse));
    DetectedMembership(files, parse);
  }

  /** `found.forEach(t => technologies.add(t))` on a set whose insertion
      order so far is `Dedup(before)`. */
  method AddAll(labels: seq<string>, ghost before: seq<string>, found: seq<string>) returns (r: seq<string>)
    requires labels == Dedup(before)
    ensures r == Dedup(before + found)
  {
    r := labels;
    var j := 0;
    assert before + found[..0] == before;
    while j < |found|
      invariant 0 <= j <= |found|
      invariant r == Dedup(before + found[..j])
    {
      DedupStep(before + found[..j], found[j]);
      PrefixStep(before, found, j);
      if found[j] !in r {
        r := r + [found[j]];
      }
      j := j + 1;
    }
    assert found[..|found|] == found;
  }

  lemma CandidatesStep(files: seq<RepoContent>, i: nat, parse: Parser)
    requires i < |files|
    ensures Candidates(files[..i + 1], parse) == Candidates(files[..i], parse) + FileLabels(files[i], parse)
  {
    FlattenStep(files, i, LabelsOf(parse));
    assert LabelsOf(parse)(files[i]) == FileLabels(files[i], parse);
  }

  /** A label is detected exactly when some file fires a rule for it. */
  lemma DetectedMembership(files: seq<RepoContent>, parse: Parser)
    ensures forall l :: l in Detected(files, parse) <==> exists f :: f in files && l in FileLabels(f, parse)
  {
    forall l ensures l in Detected(files, parse) <==> exists f :: f in files && l in FileLabels(f, parse) {
      DedupMembership(Candidates(files, parse), l);
      if l in Candidates(files, parse) {
        CandidatesSound(files, parse, l);
      }
      if exists f :: f in files && l in FileLabels(f, parse) {
        var f :| f in files && l in FileLabels(f, parse);
        CandidatesComplete(files, parse, f, l);
      }
    }
  }

  lemma DetectedHasLabel(files: seq<RepoContent>, parse: Parser, f: RepoContent, l: string)
    requires f in files && l in FileLabels(f, parse)
    ensures l in Detected(files, parse)
  {
    CandidatesComplete(files, parse, f, l);
    DedupMembership(Candidates(files, parse), l);
  }

  /** Adding files never removes a label, nor moves the ones already found. */
  lemma DetectedGrows(files: seq<RepoContent>, more: seq<RepoContent>, parse: Parser)
    ensures |Detected(files, parse)| <= |Detected(files + more, parse)|
    ensures Detected(files + more, parse)[..|Detected(files, parse)|] == Detected(files, parse)
  {
    CandidatesConcat(files, more, parse);
    DedupGrows(Candidates(files, parse), Candidates(more, parse));
  }

  /** More generally, a label found in some files is found in any list holding them. */
  lemma DetectedMonotone(files: seq<RepoContent>, larger: seq<RepoContent>, parse: Parser, l: string)
    requires forall f :: f in files ==> f in larger
    requires l in Detected(files, parse)
    ensures l in Detected(larger, parse)
  {
    DedupMembership(Candidates(files, parse), l);
    CandidatesSound(files, parse, l);
    var f :| f in files && l in FileLabels(f, parse);
    DetectedHasLabel(larger, parse, f, l);
  }

  /** A `package.json` anywhere in the tree adds Node.js, and its dependencies
      their framework labels; a manifest that does not parse adds nothing more. */
  lemma PackageJsonRule(file: RepoContent, parse: Parser)
    requires FileName(file.path) == "package.json"
    ensures "Node.js" in FileLabels(file, parse)
    ensures parse(file.content).Some? && "react" in parse(file.content).value.dependencies ==> "React" in FileLabels(file, parse)
    ensures parse(file.content).Some? && "next" in parse(file.content).value.dependencies ==> "Next.js" in FileLabels(file, parse)
    ensures parse(file.content).Some? && "vue" in parse(file.content).value.dependencies ==> "Vue.js" in FileLabels(file, parse)
    ensures parse(file.content).Some? && "express" in parse(file.content).value.dependencies ==> "Express" in FileLabels(file, parse)
    ensures parse(file.content).Some? && "typescript" in parse(file.content).value.dependencies ==> "TypeScript" in FileLabels(file, parse)
    ensures parse(file.content).None? ==> Fire(ManifestRule, file, parse) == ["Node.js"]
  {
    var deps := DependencyLabels(parse(file.content));
    ManifestContributes(file, parse, "Node.js");
    if "React" in deps { ManifestContributes(file, parse, "React"); }
    if "Next.js" in deps { ManifestContributes(file, parse, "Next.js"); }
    if "Vue.js" in deps { ManifestContributes(file, parse, "Vue.js"); }
    if "Express" in deps { ManifestContributes(file, parse, "Express"); }
    if "TypeScript" in deps { ManifestContributes(file, parse, "TypeScript"); }
  }

  /** A label the manifest rule adds for a `package.json` is one of the file's labels. */
  lemma ManifestContributes(file: RepoContent, parse: Parser, l: string)
    requires FileName(file.path) == "package.json"
    requires l in ["Node.js"] + DependencyLabels(parse(file.content))
    ensures l in FileLabels(file, parse)
  {
    assert Rules[0] == ManifestRule;
    RuleContributes(file, parse, 0, l);
  }

  /** `Dockerfile` adds Docker, and a workflow path adds GitHub Actions. */
  lemma DevOpsRules(file: RepoContent, parse: Parser)
    ensures FileName(file.path) == "Dockerfile" ==> "Docker" in FileLabels(file, parse)
    ensures Contains(file.path, ".github/workflows/") ==> "GitHub Actions" in FileLabels(file, parse)
  {
    if FileName(file.path) == "Dockerfile" {
      assert Rules[25] == NameIn(["Dockerfile"], "Docker");
      RuleContributes(file, parse, 25, "Docker");
    }
    if Contains(file.path, ".github/workflows/") {
      assert Rules[27] == PathHas(".github/workflows/", "GitHub Actions");
      RuleContributes(file, parse, 27, "GitHub Actions");
    }
  }

  /** A repository with a `package.json` that depends on react is labelled
      with at least Node.js and React. */
  lemma ReactScenario(files: seq<RepoContent>, parse: Parser, f: RepoContent)
    requires f in files && FileName(f.path) == "package.json"
    requires parse(f.content).Some? && "react" in parse(f.content).value.dependencies
    ensures "Node.js" in Detected(files, parse) && "React" in Detected(files, parse)
  {
    PackageJsonRule(f, parse);
    DetectedHasLabel(files, parse, f, "Node.js");
    DetectedHasLabel(files, parse, f, "React");
  }
}
