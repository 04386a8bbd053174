/** The README synthesiser of readme-gen/src/lib/ai-generator.ts: the prompt
    sent to the model, the template used when the model gives nothing, and the
    decision between the two. The remote call is a parameter. */
module AiGenerator {
  import opened Wrappers
  import opened Seqs
  import opened Strings
  import opened GitHub

  /** ReadmeGenerationOptions; `null` fields are `None`. */
  datatype GenerationOptions = GenerationOptions(
    repoName: string,
    repoDescription: Option<string>,
    technologies: seq<string>,
    files: seq<RepoContent>,
    language: Option<string>,
    stars: int,
    forks: int)

  // ---------------------------------------------------------------- prompt

  const MaxPromptFiles: nat := 20
  const PreviewLength: nat := 500
  const NoDescription := "No description provided"
  const NoLanguage := "Not specified"

  /** `content.slice(0, 500)` */
  function Preview(content: string): (r: string)
    ensures |r| <= PreviewLength && IsPrefix(r, content)
    ensures |content| <= PreviewLength ==> r == content
  {
    var r := Take(content, PreviewLength);
    assert content[..|r|] == r;
    r
  }

  /** The summary of one file in the prompt. */
  function FileSummary(f: RepoContent): string {
    "File: " + f.path + "\nLanguage: " + f.language + "\nContent Preview:\n" + Preview(f.content) + "\n---"
  }

  /** The summaries of the first twenty files, separated by a blank line. */
  function FileSummaries(files: seq<RepoContent>): string {
    Join(Map(Take(files, MaxPromptFiles), FileSummary), "\n\n")
  }

  /** The substituted lines of the "Repository Information" block. */
  function InformationLines(o: GenerationOptions): seq<string> {
    ["- Name: " + o.repoName,
     "- Description: " + OrDefault(o.repoDescription, NoDescription),
     "- Primary Language: " + OrDefault(o.language, NoLanguage),
     "- Technologies: " + Join(o.technologies, ", ")]
  }

  const PromptIntro :=
    "You are an expert technical writer. Generate a comprehensive, professional README.md file for a GitHub repository.\n"
    + "\n"
    + "**Repository Information:**\n"

  const PromptFilesHeading := "\n\n**Project Files Analysis:**\n"

  const PromptRequirements :=
    "\n"
    + "\n"
    + "**Requirements:**\n"
    + "1. Create a complete, professional README with the following sections:\n"
    + "   - Project title with relevant emoji\n"
    + "   - Badges (build status, license, version, language, etc.)\n"
    + "   - Brief description\n"
    + "   - Key features (bullet points)\n"
    + "   - Tech stack with icons\n"
    + "   - Prerequisites\n"
    + "   - Installation instructions (step-by-step)\n"
    + "   - Usage examples with code snippets\n"
    + "   - API documentation (if applicable)\n"
    + "   - Configuration guide\n"
    + "   - Project structure\n"
    + "   - Contributing guidelines\n"
    + "   - License information\n"
    + "   - Contact/Support information\n"
    + "\n"
    + "2. Use proper Markdown formatting:\n"
    + "   - Use headers (##, ###)\n"
    + "   - Code blocks with syntax highlighting\n"
    + "   - Tables where appropriate\n"
    + "   - Badges from shields.io\n"
    + "   - Emojis for visual appeal\n"
    + "\n"
    + "3. Include relevant badges:\n"
    + "   - Language badges\n"
    + "   - Framework badges\n"
    + "   - Build status\n"
    + "   - License\n"
    + "   - Version\n"
    + "\n"
    + "4. Add technology icons using:\n"
    + "   - shields.io badges\n"
    + "   - Simple Icons (https://simpleicons.org/)\n"
    + "   - Dev icons\n"
    + "\n"
    + "5. Make it visually appealing and easy to navigate\n"
    + "\n"
    + "6. Include actual code examples based on the project files\n"
    + "\n"
    + "7. Be specific and detailed, not generic\n"
    + "\n"
    + "8. Format all badges as: ![Badge Name](badge-url)\n"
    + "\n"
    + "Generate ONLY the README content in Markdown format. Do not include any explanations or meta-commentary."

  /** The pieces of the prompt, in order. */
  function PromptParts(o: GenerationOptions): seq<string> {
    [PromptIntro, Join(InformationLines(o), "\n"), PromptFilesHeading, FileSummaries(o.files), PromptRequirements]
  }

  /** buildPrompt */
  function BuildPrompt(o: GenerationOptions): string {
    Concat(PromptParts(o))
  }

  /** What the prompt can see of a file. */
  function Glimpse(f: RepoContent): (string, string, string) {
    (f.path, f.language, Preview(f.content))
  }

  /** The prompt depends on the files only through the path, the language tag and
      the first 500 characters of each of the first twenty files. */
  lemma PromptSeesOnlyGlimpses(o: GenerationOptions, files: seq<RepoContent>)
    requires Min(MaxPromptFiles, |files|) == Min(MaxPromptFiles, |o.files|)
    requires forall i :: 0 <= i < Min(MaxPromptFiles, |files|) ==> Glimpse(files[i]) == Glimpse(o.files[i])
    ensures BuildPrompt(o.(files := files)) == BuildPrompt(o)
  {
    var a := Map(Take(files, MaxPromptFiles), FileSummary);
    var b := Map(Take(o.files, MaxPromptFiles), FileSummary);
    assert |a| == |b|;
    forall i | 0 <= i < |a| ensures a[i] == b[i] {
      assert Glimpse(files[i]) == Glimpse(o.files[i]);
    }
    assert a == b;
  }

  /** Files after the twentieth never reach the prompt. */
  lemma PromptIgnoresLaterFiles(o: GenerationOptions, more: seq<RepoContent>)
    requires |o.files| >= MaxPromptFiles
    ensures BuildPrompt(o.(files := o.files + more)) == BuildPrompt(o)
  {
    PromptSeesOnlyGlimpses(o, o.files + more);
  }

  /** Each of the first twenty files is summarised in the prompt. */
  lemma PromptEmbedsFile(o: GenerationOptions, k: nat)
    requires k < |o.files| && k < MaxPromptFiles
    ensures Contains(BuildPrompt(o), FileSummary(o.files[k]))
  {
    JoinContainsPart(Map(Take(o.files, MaxPromptFiles), FileSummary), "\n\n", k);
    ConcatContains(PromptParts(o), 3);
    ContainsTransitive(BuildPrompt(o), FileSummaries(o.files), FileSummary(o.files[k]));
  }

  /** Each line of the "Repository Information" block is in the prompt. */
  lemma PromptHasInformationLine(o: GenerationOptions, k: nat)
    requires k < 4
    ensures Contains(BuildPrompt(o), InformationLines(o)[k])
  {
    JoinContainsPart(InformationLines(o), "\n", k);
    ConcatContains(PromptParts(o), 1);
    ContainsTransitive(BuildPrompt(o), Join(InformationLines(o), "\n"), InformationLines(o)[k]);
  }

  /** The prompt shows the description and the language, or their defaults, and
      the technologies joined with `, `. */
  lemma PromptDefaults(o: GenerationOptions)
    ensures o.repoDescription.None? || o.repoDescription == Some("") ==>
      Contains(BuildPrompt(o), "- Description: " + NoDescription)
    ensures o.repoDescription.Some? && o.repoDescription.value != "" ==>
      Contains(BuildPrompt(o), "- Description: " + o.repoDescription.value)
    ensures o.language.None? || o.language == Some("") ==>
      Contains(BuildPrompt(o), "- Primary Language: " + NoLanguage)
    ensures o.language.Some? && o.language.value != "" ==>
      Contains(BuildPrompt(o), "- Primary Language: " + o.language.value)
    ensures Contains(BuildPrompt(o), "- Technologies: " + Join(o.technologies, ", "))
  {
    PromptHasInformationLine(o, 1);
    PromptHasInformationLine(o, 2);
    PromptHasInformationLine(o, 3);
  }

  // -------------------------------------------------------------- template

  const DefaultDescription := "A modern application built with cutting-edge technologies."

  /** Text with no white space in it. */
  predicate Word(s: string) {
    forall i :: 0 <= i < |s| ==> !IsWhitespace(s[i])
  }

  /** A non-empty run of white space. */
  predicate Gap(w: string) {
    w != [] && forall i :: 0 <= i < |w| ==> IsWhitespace(w[i])
  }

  /** `s.replace(/\s+/g, "-")`: every maximal run of white space becomes one `-`. */
  function CollapseWhitespace(s: string): (r: string)
    ensures |r| <= |s|
    decreases |s|
  {
    if s == [] then []
    else if IsWhitespace(s[0]) then
      var rest := TrimStart(s);
      "-" + CollapseWhitespace(rest)
    else [s[0]] + CollapseWhitespace(s[1..])
  }

  /** No white space is left. */
  lemma {:induction false} CollapseNoWhitespace(s: string)
    ensures Word(CollapseWhitespace(s))
    decreases |s|
  {
    if s == [] {
    } else if IsWhitespace(s[0]) {
      var rest := TrimStart(s);
      CollapseNoWhitespace(rest);
      var r := CollapseWhitespace(rest);
      assert forall i :: 1 <= i <= |r| ==> ("-" + r)[i] == r[i - 1];
    } else {
      CollapseNoWhitespace(s[1..]);
      var r := CollapseWhitespace(s[1..]);
      assert forall i :: 1 <= i <= |r| ==> ([s[0]] + r)[i] == r[i - 1];
    }
  }

  /** Text without white space is left as it is. */
  lemma {:induction false} CollapseWord(s: string)
    requires Word(s)
    ensures CollapseWhitespace(s) == s
    decreases |s|
  {
    if s != [] {
      assert !IsWhitespace(s[0]);
      assert Word(s[1..]) by {
        assert forall i :: 0 <= i < |s[1..]| ==> s[1..][i] == s[i + 1];
      }
      CollapseWord(s[1..]);
      assert s == [s[0]] + s[1..];
    }
  }

  /** The logo slug of a badge: lower case, runs of white space replaced by `-`. */
  function Slug(tech: string): (r: string)
    ensures Word(r)
    ensures Word(tech) ==> r == ToLower(tech)
  {
    var lower := ToLower(tech);
    CollapseNoWhitespace(lower);
    if Word(tech) then
      assert Word(lower) by {
        assert forall i :: 0 <= i < |tech| ==> (IsWhitespace(lower[i]) <==> IsWhitespace(tech[i]));
      }
      CollapseWord(lower);
      CollapseWhitespace(lower)
    else
      CollapseWhitespace(lower)
  }

  /** A character other than white space is kept. */
  lemma CollapseKeeps(c: char, t: string)
    requires !IsWhitespace(c)
    ensures CollapseWhitespace([c] + t) == [c] + CollapseWhitespace(t)
  {
    assert ([c] + t)[1..] == t;
  }

  /** A leading run of white space becomes one `-`. */
  lemma CollapseLeadingRun(w: string, b: string)
    requires Gap(w)
    requires b == [] || !IsWhitespace(b[0])
    ensures CollapseWhitespace(w + b) == "-" + CollapseWhitespace(b)
  {
    assert (w + b)[0] == w[0];
    TrimStartSkipsRun(w, b);
  }

  /** A run of white space between two words becomes exactly one `-`. */
  lemma {:induction false} CollapseRun(a: string, w: string, b: string)
    requires Word(a) && Gap(w)
    requires b == [] || !IsWhitespace(b[0])
    ensures CollapseWhitespace(a + w + b) == a + "-" + CollapseWhitespace(b)
    decreases |a|
  {
    if a == [] {
      assert a + w + b == w + b;
      CollapseLeadingRun(w, b);
    } else {
      var t := a[1..] + w + b;
      assert CollapseWhitespace(a + w + b) == [a[0]] + CollapseWhitespace(t) by {
        assert a + w + b == [a[0]] + t;
        CollapseKeeps(a[0], t);
      }
      assert Word(a[1..]) by {
        assert forall i :: 0 <= i < |a[1..]| ==> a[1..][i] == a[i + 1];
      }
      CollapseRun(a[1..], w, b);
      assert a + "-" + CollapseWhitespace(b) == [a[0]] + (a[1..] + "-" + CollapseWhitespace(b));
    }
  }

  /** A slug is its own slug. */
  lemma SlugIdempotent(tech: string)
    ensures Slug(Slug(tech)) == Slug(tech)
  {
    var s := Slug(tech);
    var lower := ToLower(tech);
    var collapsed := CollapseWhitespace(lower);
    forall i | 0 <= i < |collapsed| ensures LowerChar(collapsed[i]) == collapsed[i] {
      CollapsePreservesLower(lower, i);
    }
    assert ToLower(s) == s;
  }

  /** Collapsing white space keeps text that is already lower case lower case. */
  lemma {:induction false} CollapsePreservesLower(s: string, i: nat)
    requires forall k :: 0 <= k < |s| ==> LowerChar(s[k]) == s[k]
    requires i < |CollapseWhitespace(s)|
    ensures LowerChar(CollapseWhitespace(s)[i]) == CollapseWhitespace(s)[i]
    decreases |s|
  {
    if IsWhitespace(s[0]) {
      var rest := TrimStart(s);
      if i > 0 {
        assert forall k :: 0 <= k < |rest| ==> rest[k] == s[|s| - |rest| + k];
        CollapsePreservesLower(rest, i - 1);
      }
    } else if i > 0 {
      CollapsePreservesLower(s[1..], i - 1);
    }
  }

  // The fixed pieces of a badge; none of them breaks a line. Each is its own
  // function so that its line-break check is proved once, apart from Badge.
  function BadgeLink(): (r: string) ensures '\n' !in r { "](https://img.shields.io/badge/" }
  function BadgeStyle(): (r: string) ensures '\n' !in r { "-informational?style=flat&logo=" }
  function BadgeColours(): (r: string) ensures '\n' !in r { "&logoColor=white&color=2bbc8a)" }

  /** The shields.io badge of one technology. */
  function Badge(tech: string): string {
    "![" + tech + BadgeLink() + tech + BadgeStyle() + Slug(tech) + BadgeColours()
  }

  /** One badge per technology, in order, one per line. */
  function TechBadges(techs: seq<string>): string {
    Join(Map(techs, Badge), "\n")
  }

  /** A badge is on one line when its technology is. */
  lemma BadgeOneLine(t: string)
    requires '\n' !in t
    ensures '\n' !in Badge(t)
  {
    assert '\n' !in Slug(t);
    assert '\n' !in "![";
  }

  /** Read back line by line, the badge block is one badge per technology, in order. */
  lemma TechBadgesLines(techs: seq<string>)
    requires techs != []
    requires forall i :: 0 <= i < |techs| ==> '\n' !in techs[i]
    ensures Split(TechBadges(techs), '\n') == Map(techs, Badge)
  {
    var badges := Map(techs, Badge);
    forall i | 0 <= i < |badges| ensures '\n' !in badges[i] {
      BadgeOneLine(techs[i]);
    }
    SplitJoin(badges, '\n');
  }

  function StackItem(tech: string): string {
    "- **" + tech + "**"
  }

  /** Index `i` holds the first file whose whole path is `package.json`. */
  predicate FirstPackageJsonAt(files: seq<RepoContent>, i: int) {
    0 <= i < |files| && files[i].path == "package.json"
    && forall j :: 0 <= j < i ==> files[j].path != "package.json"
  }

  /** `files.find(f => f.path === "package.json")`: the first file whose whole path is `package.json`. */
  function FindPackageJson(files: seq<RepoContent>): (r: Option<RepoContent>)
    ensures r.None? <==> forall i :: 0 <= i < |files| ==> files[i].path != "package.json"
    ensures r.Some? ==> r.value.path == "package.json"
    ensures r.Some? ==> exists i :: FirstPackageJsonAt(files, i) && files[i] == r.value
  {
    if files == [] then None
    else if files[0].path == "package.json" then Some(files[0])
    else
      var r := FindPackageJson(files[1..]);
      assert r.Some? ==> exists i :: FirstPackageJsonAt(files, i) && files[i] == r.value by {
        if r.Some? {
          var i :| FirstPackageJsonAt(files[1..], i) && files[1..][i] == r.value;
          assert files[i + 1] == r.value;
          forall j | 0 <= j < i + 1 ensures files[j].path != "package.json" {
            if j > 0 { assert files[j] == files[1..][j - 1]; }
          }
          assert FirstPackageJsonAt(files, i + 1);
        }
      }
      r
  }

  /** The line of one `scripts` entry. */
  function ScriptLine(entry: (string, string)): string {
    "- `npm run " + entry.0 + "` - " + entry.1
  }

  /** `Object.entries(pkg.scripts).map(...).join("\n")` */
  function ScriptLines(entries: seq<(string, string)>): (r: string)
    ensures r == "" <==> entries == []
  {
    var lines := Map(entries, ScriptLine);
    assert |lines| > 0 ==> |Join(lines, "\n")| >= |lines[0]| > 0;
    Join(lines, "\n")
  }

  /** The `scripts` entries of the first `package.json`, when it parses and has them. */
  function PackageScripts(files: seq<RepoContent>, parse: Parser): Option<seq<(string, string)>> {
    match FindPackageJson(files)
    case None => None
    case Some(f) =>
      match parse(f.content)
      case None => None
      case Some(m) => m.scripts
  }

  /** The value of `let scripts`. */
  function Scripts(files: seq<RepoContent>, parse: Parser): (r: string)
    ensures r != "" <==> PackageScripts(files, parse).Some? && PackageScripts(files, parse).value != []
  {
    match PackageScripts(files, parse)
    case None => ""
    case Some(entries) => ScriptLines(entries)
  }

  predicate HasDockerfile(files: seq<RepoContent>) {
    exists i :: 0 <= i < |files| && files[i].path == "Dockerfile"
  }

  predicate HasTests(files: seq<RepoContent>) {
    exists i :: 0 <= i < |files| && (Contains(files[i].path, "test") || Contains(files[i].path, "spec"))
  }

  const DockerHeading := "## 🐳 Docker Support"
  const TestingHeading := "## 🧪 Testing"
  const ScriptsHeading := "## 📜 Available Scripts"
  const DockerNoteText := "- Docker (optional)"

  const StarsBadgeHead := "\n\n![Stars](https://img.shields.io/github/stars/user/"
  const ForksBadgeHead := "?style=social)\n![Forks](https://img.shields.io/github/forks/user/"
  const LicenseBadgeHead := "?style=social)\n![License](https://img.shields.io/github/license/user/"
  const DescriptionHeading := "\n\n## 📋 Description\n\n"
  const FeaturesAndStack :=
    "## ✨ Features\n"
    + "\n"
    + "- 🚀 Fast and efficient performance\n"
    + "- 💎 Clean and modern UI/UX\n"
    + "- 🔒 Secure and reliable\n"
    + "- 📱 Responsive design\n"
    + "- ⚡ Real-time updates\n"
    + "- 🛠️ Easy to customize\n"
    + "\n"
    + "## 🛠️ Tech Stack\n"
    + "\n"
  const Prerequisites :=
    "\n"
    + "\n"
    + "## 📦 Prerequisites\n"
    + "\n"
    + "Before you begin, ensure you have the following installed:\n"
    + "\n"
    + "- Node.js (v16 or higher)\n"
    + "- npm or yarn\n"
  const InstallationHead :=
    "\n"
    + "\n"
    + "## 🚀 Installation\n"
    + "\n"
    + "1. **Clone the repository**\n"
    + "\n"
    + "```bash\n"
    + "git clone https://github.com/yourusername/"
  const InstallationCd := ".git\ncd "
  const InstallationRest :=
    "\n"
    + "```\n"
    + "\n"
    + "2. **Install dependencies**\n"
    + "\n"
    + "```bash\n"
    + "npm install\n"
    + "# or\n"
    + "yarn install\n"
    + "```\n"
    + "\n"
    + "3. **Set up environment variables**\n"
    + "\n"
    + "Create a `.env` file in the root directory:\n"
    + "\n"
    + "```env\n"
    + "# Add your environment variables here\n"
    + "DATABASE_URL=your_database_url\n"
    + "API_KEY=your_api_key\n"
    + "```\n"
    + "\n"
    + "4. **Run the application**\n"
    + "\n"
    + "```bash\n"
    + "npm run dev\n"
    + "# or\n"
    + "yarn dev\n"
    + "```\n"
    + "\n"
    + "The application will be available at `http://localhost:3000`\n"
    + "\n"
  const DockerBody :=
    "\n"
    + "\n"
    + "Run with Docker:\n"
    + "\n"
    + "```bash\n"
    + "docker build -t "
  const DockerRun := " .\ndocker run -p 3000:3000 "
  const DockerTail := "\n```\n"
  const UsageHead :=
    "\n"
    + "\n"
    + "## 📖 Usage\n"
    + "\n"
    + "```javascript\n"
    + "// Example usage\n"
    + "import { Component } from './"
  const StructureHead :=
    "';\n"
    + "\n"
    + "const app = new Component();\n"
    + "app.start();\n"
    + "```\n"
    + "\n"
    + "## 📁 Project Structure\n"
    + "\n"
    + "```\n"
  const StructureTree :=
    "/\n"
    + "├── src/                 # Source files\n"
    + "├── public/              # Static files\n"
    + "├── tests/               # Test files\n"
    + "├── package.json         # Dependencies\n"
    + "└── README.md           # Documentation\n"
    + "```\n"
    + "\n"
  const TestingBody :=
    "\n"
    + "\n"
    + "Run tests:\n"
    + "\n"
    + "```bash\n"
    + "npm test\n"
    + "```\n"
  const ContributingToAcknowledgments :=
    "\n"
    + "\n"
    + "## 🤝 Contributing\n"
    + "\n"
    + "Contributions are welcome! Please follow these steps:\n"
    + "\n"
    + "1. Fork the repository\n"
    + "2. Create a new branch (`git checkout -b feature/amazing-feature`)\n"
    + "3. Commit your changes (`git commit -m 'Add some amazing feature'`)\n"
    + "4. Push to the branch (`git push origin feature/amazing-feature`)\n"
    + "5. Open a Pull Request\n"
    + "\n"
    + "## 📄 License\n"
    + "\n"
    + "This project is licensed under the MIT License - see the [LICENSE](LICENSE) file for details.\n"
    + "\n"
    + "## 👤 Author\n"
    + "\n"
    + "**Your Name**\n"
    + "\n"
    + "- GitHub: [@yourusername](https://github.com/yourusername)\n"
    + "- Email: your.email@example.com\n"
    + "\n"
    + "## 🙏 Acknowledgments\n"
    + "\n"
    + "- Thanks to all contributors\n"
    + "- Inspired by amazing open-source projects\n"
    + "- Built with ❤️ using "
  const ClosingText :=
    "\n"
    + "\n"
    + "## 📞 Support\n"
    + "\n"
    + "For support, email your.email@example.com or open an issue.\n"
    + "\n"
    + "---\n"
    + "\n"
    + "⭐ Star this repository if you find it helpful!\n"

  /** The Description section: the description, or the default sentence. */
  function DescriptionSection(description: Option<string>): string {
    DescriptionHeading + OrDefault(description, DefaultDescription) + "\n\n"
  }

  /** The pieces of the template from the title to the placeholder of the Docker note. */
  function OpeningParts(o: GenerationOptions): seq<string> {
    ["# " + o.repoName + "\n\n",
     TechBadges(o.technologies),
     StarsBadgeHead + o.repoName + ForksBadgeHead + o.repoName + LicenseBadgeHead + o.repoName + ")",
     DescriptionSection(o.repoDescription),
     FeaturesAndStack,
     Join(Map(o.technologies, StackItem), "\n"),
     Prerequisites]
  }

  /** A piece of the template: one of the fixed stretches of text, or one of
      the sections that depend on the sampled files. */
  datatype Block =
    | Opening
    | DockerNote
    | Installation
    | DockerSection
    | UsageAndStructure
    | ScriptsSection(lines: string)
    | Spacer
    | TestingSection
    | Closing

  predicate IsFixed(b: Block) {
    b.Opening? || b.Installation? || b.UsageAndStructure? || b.Spacer? || b.Closing?
  }

  /** The text of a block; it reads the name, description and technologies, never the files. */
  function Render(b: Block, o: GenerationOptions): string {
    var name := o.repoName;
    match b
    case Opening => Concat(OpeningParts(o))
    case DockerNote => DockerNoteText
    case Installation => InstallationHead + name + InstallationCd + name + InstallationRest
    case DockerSection => "\n" + DockerHeading + DockerBody + name + DockerRun + name + DockerTail
    case UsageAndStructure => UsageHead + name + StructureHead + name + StructureTree
    case ScriptsSection(lines) => "\n" + ScriptsHeading + "\n\n" + lines + "\n"
    case Spacer => "\n\n"
    case TestingSection => "\n" + TestingHeading + TestingBody
    case Closing => ContributingToAcknowledgments + Join(o.technologies, ", ") + ClosingText
  }

  function RenderAll(blocks: seq<Block>, o: GenerationOptions): string {
    Concat(Map(blocks, b => Render(b, o)))
  }

  lemma ShowsBlock(blocks: seq<Block>, o: GenerationOptions, b: Block)
    requires b in blocks
    ensures Contains(RenderAll(blocks, o), Render(b, o))
  {
    var k :| 0 <= k < |blocks| && blocks[k] == b;
    ConcatContains(Map(blocks, b => Render(b, o)), k);
  }

  /** `[b]` when `present`, nothing otherwise. */
  function Optional(present: bool, b: Block): seq<Block> {
    if present then [b] else []
  }

  /** The order of the blocks: the fixed ones always, each conditional one when its fact holds. */
  function Layout(docker: bool, scripts: string, tests: bool): seq<Block> {
    [Opening] + Optional(docker, DockerNote) + [Installation] + Optional(docker, DockerSection)
    + [UsageAndStructure] + Optional(scripts != "", ScriptsSection(scripts))
    + [Spacer] + Optional(tests, TestingSection) + [Closing]
  }

  /** The blocks of generateReadmeTemplate for the sampled files. */
  function TemplateBlocks(files: seq<RepoContent>, parse: Parser): seq<Block> {
    Layout(HasDockerfile(files), Scripts(files, parse), HasTests(files))
  }

  /** generateReadmeTemplate */
  function GenerateReadmeTemplate(o: GenerationOptions, parse: Parser): string {
    RenderAll(TemplateBlocks(o.files, parse), o)
  }

  /** Each conditional block is in the layout exactly when its fact holds. */
  lemma LayoutIff(docker: bool, scripts: string, tests: bool)
    ensures DockerNote in Layout(docker, scripts, tests) <==> docker
    ensures DockerSection in Layout(docker, scripts, tests) <==> docker
    ensures TestingSection in Layout(docker, scripts, tests) <==> tests
    ensures forall l :: ScriptsSection(l) in Layout(docker, scripts, tests) <==> scripts != "" && l == scripts
  {
  }

  /** The Docker note and the Docker section are there exactly when some file's
      whole path is `Dockerfile`. */
  lemma DockerSectionIff(files: seq<RepoContent>, parse: Parser)
    ensures DockerNote in TemplateBlocks(files, parse) <==> HasDockerfile(files)
    ensures DockerSection in TemplateBlocks(files, parse) <==> HasDockerfile(files)
  {
    LayoutIff(HasDockerfile(files), Scripts(files, parse), HasTests(files));
  }

  /** The Testing section is there exactly when some path mentions `test` or `spec`. */
  lemma TestingSectionIff(files: seq<RepoContent>, parse: Parser)
    ensures TestingSection in TemplateBlocks(files, parse) <==> HasTests(files)
  {
    LayoutIff(HasDockerfile(files), Scripts(files, parse), HasTests(files));
  }

  /** The Scripts section is there exactly when the first `package.json` parses
      and has at least one script, and then it lists those scripts. */
  lemma ScriptsSectionIff(files: seq<RepoContent>, parse: Parser)
    ensures (exists l :: ScriptsSection(l) in TemplateBlocks(files, parse))
      <==> PackageScripts(files, parse).Some? && PackageScripts(files, parse).value != []
    ensures forall l :: ScriptsSection(l) in TemplateBlocks(files, parse) ==>
      l == ScriptLines(PackageScripts(files, parse).value)
  {
    var scripts := Scripts(files, parse);
    LayoutIff(HasDockerfile(files), scripts, HasTests(files));
    if scripts != "" {
      assert ScriptsSection(scripts) in TemplateBlocks(files, parse);
    }
  }

  /** Whatever the facts, the fixed blocks are the same five, in the same order. */
  lemma FixedBlocksIgnoreFiles(docker: bool, scripts: string, tests: bool)
    ensures Filter(Layout(docker, scripts, tests), IsFixed) == [Opening, Installation, UsageAndStructure, Spacer, Closing]
  {
    FilterOptional(docker, DockerNote);
    FilterOptional(docker, DockerSection);
    FilterOptional(scripts != "", ScriptsSection(scripts));
    FilterOptional(tests, TestingSection);
    FixedAmongPieces(Optional(docker, DockerNote), Optional(docker, DockerSection),
                     Optional(scripts != "", ScriptsSection(scripts)), Optional(tests, TestingSection));
  }

  /** The fixed blocks with pieces holding no fixed block between them. */
  lemma FixedAmongPieces(c0: seq<Block>, c1: seq<Block>, c2: seq<Block>, c3: seq<Block>)
    requires Filter(c0, IsFixed) == [] && Filter(c1, IsFixed) == []
    requires Filter(c2, IsFixed) == [] && Filter(c3, IsFixed) == []
    ensures Filter([Opening] + c0 + [Installation] + c1 + [UsageAndStructure] + c2 + [Spacer] + c3 + [Closing], IsFixed)
         == [Opening, Installation, UsageAndStructure, Spacer, Closing]
  {
    FilterFixedOne(Opening);
    var s1 := [Opening] + c0 + [Installation];
    FilterStep([Opening], c0, Installation);
    assert Filter(s1, IsFixed) == [Opening, Installation];
    var s2 := s1 + c1 + [UsageAndStructure];
    FilterStep(s1, c1, UsageAndStructure);
    assert Filter(s2, IsFixed) == [Opening, Installation, UsageAndStructure];
    var s3 := s2 + c2 + [Spacer];
    FilterStep(s2, c2, Spacer);
    assert Filter(s3, IsFixed) == [Opening, Installation, UsageAndStructure, Spacer];
    FilterStep(s3, c3, Closing);
  }

  /** Appending a conditional piece and a fixed block adds just the fixed block. */
  lemma FilterStep(s: seq<Block>, c: seq<Block>, b: Block)
    requires Filter(c, IsFixed) == [] && IsFixed(b)
    ensures Filter(s + c + [b], IsFixed) == Filter(s, IsFixed) + [b]
  {
    FilterConcat(s, c, IsFixed);
    FilterConcat(s + c, [b], IsFixed);
    FilterFixedOne(b);
    assert Filter(s, IsFixed) + [] == Filter(s, IsFixed);
  }

  lemma FilterFixedOne(b: Block)
    requires IsFixed(b)
    ensures Filter([b], IsFixed) == [b]
  {
    assert [b][1..] == [];
  }

  lemma FilterOptional(present: bool, b: Block)
    requires !IsFixed(b)
    ensures Filter(Optional(present, b), IsFixed) == []
  {
    if present {
      assert [b][1..] == [];
    }
  }

  /** Two calls whose names, descriptions and technologies agree, and whose files
      agree on the three facts the template looks at, give the same README. */
  lemma TemplateDependsOnlyOnFacts(o: GenerationOptions, files: seq<RepoContent>, parse: Parser, parse2: Parser)
    requires HasDockerfile(files) == HasDockerfile(o.files)
    requires HasTests(files) == HasTests(o.files)
    requires Scripts(files, parse2) == Scripts(o.files, parse)
    ensures GenerateReadmeTemplate(o.(files := files), parse2) == GenerateReadmeTemplate(o, parse)
  {
    var o2 := o.(files := files);
    var blocks := TemplateBlocks(o.files, parse);
    assert TemplateBlocks(o2.files, parse2) == blocks;
    forall i | 0 <= i < |blocks| ensures Render(blocks[i], o2) == Render(blocks[i], o) {
      RenderIgnoresFiles(blocks[i], o, files);
    }
    assert Map(blocks, b => Render(b, o2)) == Map(blocks, b => Render(b, o));
  }

  /** Rendering a block never looks at the files. */
  lemma RenderIgnoresFiles(b: Block, o: GenerationOptions, files: seq<RepoContent>)
    ensures Render(b, o.(files := files)) == Render(b, o)
  {
    if b.Opening? {
      assert OpeningParts(o.(files := files)) == OpeningParts(o);
    }
  }

  lemma DockerTextHasHeading(o: GenerationOptions)
    ensures Contains(Render(DockerSection, o), DockerHeading)
  {
    var name := o.repoName;
    ContainsInfix("\n", DockerHeading, DockerBody);
    ContainsExtend("\n" + DockerHeading + DockerBody, DockerHeading, name);
    ContainsExtend("\n" + DockerHeading + DockerBody + name, DockerHeading, DockerRun);
    ContainsExtend("\n" + DockerHeading + DockerBody + name + DockerRun, DockerHeading, name);
    ContainsExtend("\n" + DockerHeading + DockerBody + name + DockerRun + name, DockerHeading, DockerTail);
  }

  lemma TestingTextHasHeading(o: GenerationOptions)
    ensures Contains(Render(TestingSection, o), TestingHeading)
  {
    ContainsInfix("\n", TestingHeading, TestingBody);
  }

  lemma ScriptsTextHasLines(o: GenerationOptions, entries: seq<(string, string)>, k: nat)
    requires k < |entries|
    ensures Contains(Render(ScriptsSection(ScriptLines(entries)), o), ScriptLine(entries[k]))
  {
    var lines := ScriptLines(entries);
    JoinContainsPart(Map(entries, ScriptLine), "\n", k);
    ContainsWithin(lines, ScriptLine(entries[k]), "\n" + ScriptsHeading + "\n\n", "\n");
  }

  /** The headings of the conditional sections, and each script line, appear in
      the rendered template when their condition holds. */
  lemma TemplateShowsSections(o: GenerationOptions, parse: Parser)
    ensures HasDockerfile(o.files) ==>
      Contains(GenerateReadmeTemplate(o, parse), DockerHeading) && Contains(GenerateReadmeTemplate(o, parse), DockerNoteText)
    ensures HasTests(o.files) ==> Contains(GenerateReadmeTemplate(o, parse), TestingHeading)
    ensures PackageScripts(o.files, parse).Some? ==>
      forall e :: e in PackageScripts(o.files, parse).value ==> Contains(GenerateReadmeTemplate(o, parse), ScriptLine(e))
  {
    var blocks := TemplateBlocks(o.files, parse);
    var text := GenerateReadmeTemplate(o, parse);
    DockerSectionIff(o.files, parse);
    TestingSectionIff(o.files, parse);
    ScriptsSectionIff(o.files, parse);
    if HasDockerfile(o.files) {
      ShowsBlock(blocks, o, DockerSection);
      DockerTextHasHeading(o);
      ContainsTransitive(text, Render(DockerSection, o), DockerHeading);
      ShowsBlock(blocks, o, DockerNote);
    }
    if HasTests(o.files) {
      ShowsBlock(blocks, o, TestingSection);
      TestingTextHasHeading(o);
      ContainsTransitive(text, Render(TestingSection, o), TestingHeading);
    }
    if PackageScripts(o.files, parse).Some? {
      var entries := PackageScripts(o.files, parse).value;
      forall e | e in entries ensures Contains(text, ScriptLine(e)) {
        var k :| 0 <= k < |entries| && entries[k] == e;
        assert ScriptsSection(ScriptLines(entries)) in blocks;
        ShowsBlock(blocks, o, ScriptsSection(ScriptLines(entries)));
        ScriptsTextHasLines(o, entries, k);
        ContainsTransitive(text, Render(ScriptsSection(ScriptLines(entries)), o), ScriptLine(e));
      }
    }
  }

  /** The opening block holds the badge of each technology. */
  lemma OpeningShowsBadge(o: GenerationOptions, k: nat)
    requires k < |o.technologies|
    ensures Contains(Render(Opening, o), Badge(o.technologies[k]))
  {
    JoinContainsPart(Map(o.technologies, Badge), "\n", k);
    ConcatContains(OpeningParts(o), 1);
    ContainsTransitive(Render(Opening, o), TechBadges(o.technologies), Badge(o.technologies[k]));
  }

  /** The template holds its opening block. */
  lemma TemplateShowsOpening(o: GenerationOptions, parse: Parser)
    ensures Contains(GenerateReadmeTemplate(o, parse), Render(Opening, o))
  {
    var blocks := TemplateBlocks(o.files, parse);
    assert blocks[0] == Opening;
    ShowsBlock(blocks, o, Opening);
  }

  /** The template starts with the title line, so it is never empty. */
  lemma TemplateStartsWithTitle(o: GenerationOptions, parse: Parser)
    ensures IsPrefix("# " + o.repoName + "\n\n", GenerateReadmeTemplate(o, parse))
    ensures GenerateReadmeTemplate(o, parse) != ""
  {
    var blocks := TemplateBlocks(o.files, parse);
    assert blocks[0] == Opening;
    ConcatStartsWith(OpeningParts(o));
    ConcatStartsWith(Map(blocks, b => Render(b, o)));
    PrefixTransitive(OpeningParts(o)[0], Render(Opening, o), GenerateReadmeTemplate(o, parse));
  }

  /** Every technology has its badge in the template. */
  lemma TemplateBadges(o: GenerationOptions, parse: Parser)
    ensures forall t :: t in o.technologies ==> Contains(GenerateReadmeTemplate(o, parse), Badge(t))
  {
    var text := GenerateReadmeTemplate(o, parse);
    TemplateShowsOpening(o, parse);
    forall t | t in o.technologies ensures Contains(text, Badge(t)) {
      var k :| 0 <= k < |o.technologies| && o.technologies[k] == t;
      OpeningShowsBadge(o, k);
      ContainsTransitive(text, Render(Opening, o), Badge(t));
    }
  }

  /** The Description section holds the description, or the default sentence
      when it is missing or empty. */
  lemma TemplateDescription(o: GenerationOptions, parse: Parser)
    ensures Contains(GenerateReadmeTemplate(o, parse), DescriptionSection(o.repoDescription))
    ensures o.repoDescription.None? || o.repoDescription == Some("") ==>
      Contains(GenerateReadmeTemplate(o, parse), DescriptionHeading + DefaultDescription + "\n\n")
  {
    TemplateShowsOpening(o, parse);
    ConcatContains(OpeningParts(o), 3);
    ContainsTransitive(GenerateReadmeTemplate(o, parse), Render(Opening, o), DescriptionSection(o.repoDescription));
  }

  // -------------------------------------------------------------- decision

  /** What the Gemini request gives back: it threw (network or JSON error), a
      non-ok status, or an ok response whose first candidate text may be missing. */
  datatype AiResponse = Failed | NotOk(statusText: string) | Ok(text: Option<string>)

  /** A call that either throws an error with a message or returns a README. */
  datatype Outcome = Threw(message: string) | Returned(readme: string)

  const MissingKeyMessage := "GEMINI_API_KEY not configured"

  /** The response carries text to return as it is. */
  predicate Usable(resp: AiResponse) {
    resp.Ok? && resp.text.Some? && resp.text.value != ""
  }

  /** generateReadmeWithAI; `gemini(key, prompt)` is the remote request. */
  function GenerateReadmeWithAI(o: GenerationOptions, apiKey: Option<string>,
                                gemini: (string, string) -> AiResponse, parse: Parser): (r: Outcome)
    ensures r.Threw? <==> apiKey.None? || apiKey.value == ""
    ensures r.Threw? ==> r.message == MissingKeyMessage
    ensures r.Returned? ==> r.readme != ""
    ensures r.Returned? && Usable(gemini(apiKey.value, BuildPrompt(o))) ==>
      r.readme == gemini(apiKey.value, BuildPrompt(o)).text.value
    ensures r.Returned? && !Usable(gemini(apiKey.value, BuildPrompt(o))) ==>
      r.readme == GenerateReadmeTemplate(o, parse)
  {
    if apiKey.None? || apiKey.value == "" then Threw(MissingKeyMessage)
    else
      var resp := gemini(apiKey.value, BuildPrompt(o));
      if Usable(resp) then Returned(resp.text.value)
      else
        TemplateStartsWithTitle(o, parse);
        Returned(GenerateReadmeTemplate(o, parse))
  }

  /** A missing key is never replaced by the template, whatever the remote side does. */
  lemma MissingKeyIsNotCaught(o: GenerationOptions, gemini: (string, string) -> AiResponse, parse: Parser)
    ensures GenerateReadmeWithAI(o, None, gemini, parse) == Threw(MissingKeyMessage)
    ensures GenerateReadmeWithAI(o, Some(""), gemini, parse) == Threw(MissingKeyMessage)
  {
  }

  /** With a key, the result never depends on the response when the response is unusable. */
  lemma FailuresAllFallBack(o: GenerationOptions, key: string, g1: (string, string) -> AiResponse,
                            g2: (string, string) -> AiResponse, parse: Parser)
    requires key != ""
    requires !Usable(g1(key, BuildPrompt(o))) && !Usable(g2(key, BuildPrompt(o)))
    ensures GenerateReadmeWithAI(o, Some(key), g1, parse) == GenerateReadmeWithAI(o, Some(key), g2, parse)
      == Returned(GenerateReadmeTemplate(o, parse))
  {
  }
}
