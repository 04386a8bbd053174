/** The generation page of src/pages/Generate.tsx: the name guard, the choice
    between the generated README and the built-in template, and the splitting
    of the comma-separated technology list. The edge-function call and the
    database writes are parameters. */
module GeneratePage {
  import opened Wrappers
  import opened Seqs
  import opened Strings

  const DefaultDescription := "A project built with modern technologies."
  const CloneUrlHead := "git clone https://github.com/user/"

  const FeaturesToInstallation :=
    "## ✨ Features\n"
    + "\n"
    + "- Feature 1\n"
    + "- Feature 2\n"
    + "- Feature 3\n"
    + "\n"
    + "## 🚀 Getting Started\n"
    + "\n"
    + "### Prerequisites\n"
    + "\n"
    + "- Node.js 18+\n"
    + "- npm or yarn\n"
    + "\n"
    + "### Installation\n"
    + "\n"
    + "```bash\n"

  const BuildAndStructure :=
    "npm install\n"
    + "npm run dev\n"
    + "```\n"
    + "\n"
    + "## 📁 Project Structure\n"
    + "\n"

  const TreeAndFooter :=
    "├── src/\n"
    + "│   ├── components/\n"
    + "│   ├── pages/\n"
    + "│   └── utils/\n"
    + "├── public/\n"
    + "├── package.json\n"
    + "└── README.md\n"
    + "```\n"
    + "\n"
    + "## 🤝 Contributing\n"
    + "\n"
    + "Contributions are welcome! Please feel free to submit a Pull Request.\n"
    + "\n"
    + "## 📄 License\n"
    + "\n"
    + "This project is licensed under the MIT License.\n"
    + "\n"
    + "---\n"
    + "\n"
    + "Made with ❤️\n"

  /** The pieces of fallbackTemplate, in order. */
  function FallbackParts(name: string, desc: string): seq<string> {
    ["# 📦 " + name,
     "\n\n" + (if desc == "" then DefaultDescription else desc) + "\n\n",
     FeaturesToInstallation,
     CloneUrlHead + name + ".git",
     "\ncd " + name + "\n",
     BuildAndStructure,
     "```\n" + name + "/\n",
     TreeAndFooter]
  }

  /** fallbackTemplate */
  function FallbackTemplate(name: string, desc: string): string {
    Concat(FallbackParts(name, desc))
  }

  /** The name is in the title, the clone URL, the `cd` line and the root of the
      tree; the description, or the default sentence when it is empty, follows the title. */
  lemma FallbackMentions(name: string, desc: string)
    ensures Contains(FallbackTemplate(name, desc), "# 📦 " + name)
    ensures Contains(FallbackTemplate(name, desc), CloneUrlHead + name + ".git")
    ensures Contains(FallbackTemplate(name, desc), "\ncd " + name + "\n")
    ensures Contains(FallbackTemplate(name, desc), "```\n" + name + "/\n")
    ensures desc != "" ==> Contains(FallbackTemplate(name, desc), "\n\n" + desc + "\n\n")
    ensures desc == "" ==> Contains(FallbackTemplate(name, desc), "\n\n" + DefaultDescription + "\n\n")
  {
    var parts := FallbackParts(name, desc);
    ConcatContains(parts, 0);
    ConcatContains(parts, 1);
    ConcatContains(parts, 3);
    ConcatContains(parts, 4);
    ConcatContains(parts, 6);
  }

  /** The template always starts with its title. */
  lemma FallbackStartsWithTitle(name: string, desc: string)
    ensures IsPrefix("# 📦 " + name, FallbackTemplate(name, desc))
  {
    var parts := FallbackParts(name, desc);
    assert FallbackTemplate(name, desc) == parts[0] + Concat(parts[1..]);
  }

  predicate NonEmpty(s: string) {
    s != ""
  }

  /** A name the tech list can hold: not empty, no comma, trimmed. */
  predicate CleanName(t: string) {
    t != "" && ',' !in t && !IsWhitespace(t[0]) && !IsWhitespace(t[|t| - 1])
  }

  /** Trimming comma-free pieces and dropping the blank ones leaves clean names. */
  lemma TrimmedPieces(pieces: seq<string>)
    requires forall i :: 0 <= i < |pieces| ==> ',' !in pieces[i]
    ensures forall i :: 0 <= i < |Filter(Map(pieces, Trim), NonEmpty)| ==>
      CleanName(Filter(Map(pieces, Trim), NonEmpty)[i])
  {
    var trimmed := Map(pieces, Trim);
    var r := Filter(trimmed, NonEmpty);
    forall i | 0 <= i < |r| ensures CleanName(r[i]) {
      FilterMembership(trimmed, NonEmpty, r[i]);
      var k :| 0 <= k < |trimmed| && trimmed[k] == r[i];
      ContainsNoChar(pieces[k], trimmed[k], ',');
    }
  }

  /** `techStack ? techStack.split(",").map(t => t.trim()).filter(Boolean) : []` */
  function TechList(techStack: string): (r: seq<string>)
    ensures techStack == "" ==> r == []
    ensures |r| <= CountChar(techStack, ',') + 1
    ensures forall i :: 0 <= i < |r| ==> CleanName(r[i])
  {
    if techStack == "" then []
    else
      TrimmedPieces(Split(techStack, ','));
      Filter(Map(Split(techStack, ','), Trim), NonEmpty)
  }

  /** Trimming leaves clean names as they are. */
  lemma TrimClean(techs: seq<string>)
    requires forall i :: 0 <= i < |techs| ==> CleanName(techs[i])
    ensures Map(techs, Trim) == techs
  {
    forall i | 0 <= i < |techs| ensures Trim(techs[i]) == techs[i] {
      TrimUnchanged(techs[i]);
    }
  }

  lemma JoinNotEmpty(techs: seq<string>)
    requires techs != [] && techs[0] != ""
    ensures Join(techs, ",") != ""
  {
    if |techs| > 1 {
      assert Join(techs, ",") == techs[0] + "," + Join(techs[1..], ",");
    }
  }

  /** A list of clean names survives being joined with `,` and read back. */
  lemma TechListRoundTrip(techs: seq<string>)
    requires forall i :: 0 <= i < |techs| ==> CleanName(techs[i])
    ensures TechList(Join(techs, ",")) == techs
  {
    if techs != [] {
      JoinNotEmpty(techs);
      SplitJoin(techs, ',');
      assert Split(Join(techs, ","), ',') == techs;
      TrimClean(techs);
      FilterAll(techs, NonEmpty);
    }
  }

  /** Pieces that are blank after trimming are dropped. */
  lemma TechListDropsBlanks(a: string, b: string)
    requires CleanName(a) && ',' !in b
    requires forall k :: 0 <= k < |b| ==> IsWhitespace(b[k])
    ensures TechList(a + "," + b) == [a]
  {
    SplitJoin([a, b], ',');
    assert Join([a, b], ",") == a + "," + b;
    TrimUnchanged(a);
    assert Trim(b) == "";
    var trimmed := Map([a, b], Trim);
    assert trimmed == [a, ""];
    assert Filter(trimmed[1..], NonEmpty) == [];
    assert Filter(trimmed, NonEmpty) == [a] + Filter(trimmed[1..], NonEmpty);
  }

  /** What the edge function call gives back: it threw (or returned an error),
      or it returned data whose `readme` field may be missing. */
  datatype InvokeResponse = InvokeThrew | InvokeData(readme: Option<string>)

  /** How the database writes of a logged-in user end. */
  datatype SaveResult = SaveOk | InsertThrew | UpsertThrew

  /** The row written to `generated_readmes`. */
  datatype SavedReadme = SavedReadme(repoName: string, content: string, technologies: seq<string>)

  /** The state handleGenerate leaves: the markdown shown, whether the edge
      function was called, and the README row written, if any. */
  datatype Generation = Generation(markdown: string, invoked: bool, saved: Option<SavedReadme>)

  /** The readme of the response, when it is truthy. */
  predicate HasReadme(resp: InvokeResponse) {
    resp.InvokeData? && resp.readme.Some? && resp.readme.value != ""
  }

  /** handleGenerate, from the markdown shown before the click. */
  function HandleGenerate(markdown: string, name: string, description: string, techStack: string,
                          loggedIn: bool, resp: InvokeResponse, save: SaveResult): (r: Generation)
    ensures Trim(name) == "" ==> r == Generation(markdown, false, None)
    ensures Trim(name) != "" ==> r.invoked
    ensures Trim(name) != "" && HasReadme(resp) && (!loggedIn || save.SaveOk?) ==>
      r.markdown == resp.readme.value
    ensures Trim(name) != "" && !(HasReadme(resp) && (!loggedIn || save.SaveOk?)) ==>
      r.markdown == FallbackTemplate(name, description)
    ensures r.saved.Some? <==> Trim(name) != "" && HasReadme(resp) && loggedIn && !save.InsertThrew?
    ensures r.saved.Some? ==> r.saved.value == SavedReadme(name, resp.readme.value, TechList(techStack))
  {
    if Trim(name) == "" then Generation(markdown, false, None)
    else if !HasReadme(resp) then Generation(FallbackTemplate(name, description), true, None)
    else if !loggedIn then Generation(resp.readme.value, true, None)
    else
      var row := SavedReadme(name, resp.readme.value, TechList(techStack));
      match save
      case SaveOk => Generation(resp.readme.value, true, Some(row))
      case InsertThrew => Generation(FallbackTemplate(name, description), true, None)
      case UpsertThrew => Generation(FallbackTemplate(name, description), true, Some(row))
  }

  /** A generation that got past the guard always shows a non-empty README. */
  lemma GenerationShowsSomething(markdown: string, name: string, description: string, techStack: string,
                                 loggedIn: bool, resp: InvokeResponse, save: SaveResult)
    requires Trim(name) != ""
    ensures HandleGenerate(markdown, name, description, techStack, loggedIn, resp, save).markdown != ""
  {
    FallbackStartsWithTitle(name, description);
  }
}
