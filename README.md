# README generator: a verified model of its core logic

The repository is a web application that writes `README.md` files for GitHub
repositories. It has two halves.

- **The Next.js half** (`readme-gen/`) lists a user's repositories and samples
  the files of one of them. It detects the technologies those files use. It then
  asks Google Gemini for a README, falling back to a fixed template when the
  model gives nothing.
- **The Vite/React half** (`src/`) is a dashboard. It has a generation page with
  its own fallback template, a contribution graph, repository cards, and admin
  and settings pages backed by Supabase.

This project models the logic of both halves that computes something, without
the UI, network and database code around it. It proves what that logic
guarantees.

One Dafny module is given per source file:

| module | source file |
|---|---|
| `GitHub` | `readme-gen/src/lib/github.ts`: which tree entries are read, how the fetched files are collected and tagged, and `detectTechnologies` |
| `AiGenerator` | `readme-gen/src/lib/ai-generator.ts`: `buildPrompt`, `generateReadmeTemplate` and the fallback decision of `generateReadmeWithAI` |
| `GeneratePage` | `src/pages/Generate.tsx`: `fallbackTemplate`, the tech-list splitting and `handleGenerate` |
| `UpdatedProjectSection` | `readme-gen/src/app/components/UpdatedProjectSection.tsx`: `filtered`, `stats`, `formatDate` |
| `ProjectSection` | `readme-gen/src/app/components/ProjectSection.tsx`: `PROJECTS` and its filter |
| `Dashboard` | `src/pages/Dashboard.tsx`: the demo repositories, `languages`, `filtered`, the totals and the language toggle |
| `RepoCard` | `src/components/RepoCard.tsx`: `timeAgo` and the language colours |
| `ContributionGraph` | `src/components/ContributionGraph.tsx`: the 52×7 `weeks` grid, `getColor`, the legend and the tooltip |
| `ReadmePreview` | `readme-gen/src/app/components/ReadmePreview.tsx`: the HTML escaping chain and the line count |
| `Admin` | `src/pages/Admin.tsx`: the open-issue count, `sendNotification` and `updateIssueStatus` |
| `Settings` | `src/pages/Settings.tsx`: profile loading, `handleSubmitIssue`, `markRead` and the click handler |

Shared modules hold the JavaScript library behaviour those files rely on:

- `Wrappers`: `Option`.
- `Seqs`: `slice`, `filter`, `map`, `reduce`, a keyed `map` update, and the insertion order of a `Set`.
- `Strings`:
  - `includes`, `trim` (with JavaScript's white-space set) and `join`;
  - `split` and `split(...).pop()`;
  - `toLowerCase`, `||` on strings, and decimal formatting of numbers.
- `Time`: `Math.floor(ms / 86400000)`.

Code that works step by step in the source is modelled as methods with loops. Each is proved equal to a specification function, and the properties are proved about that function:

| method | source loop | specification function |
|---|---|---|
| `GitHub.ReadRepositoryFiles` | the batch loop | `Collected` |
| `GitHub.DetectTechnologies` | the `forEach` adding into a `Set` | `Detected` |
| `ContributionGraph.BuildWeeks` | the nested `for` loops pushing into `week` and `grid` | `Weeks` |

Everything else in the core is written as expressions in the source and is modelled as functions.

Some inputs are parameters of the model:

- **Remote calls:**
  - the GitHub tree listing and file fetches;
  - the Gemini request;
  - the Supabase edge-function call;
  - the outcome of the database writes.
- **`JSON.parse` of a `package.json`:** an abstract function returning at most dependency names and `scripts` entries.
- **The clock:**
  - the age of a repository in milliseconds;
  - the day count of a project;
  - for the contribution graph, the date key and weekday of the day `n` days before today.

## Model

| member | source | states |
|---|---|---|
| GitHub.FileName | readme-gen/src/lib/github.ts:165 | The basename has no `/`, and a path without `/` is its own basename. |
| GitHub.Extension | readme-gen/src/lib/github.ts:166 | The extension starts with `.` and has no further `.`. A dotless name gives `"." + name`. |
| GitHub.FilesToRead | readme-gen/src/lib/github.ts:148-170 | At most 50 entries. Every one is a blob of at most 100000 bytes with no vendored-directory marker in its path. Each has an allow-listed basename or extension. |
| GitHub.SelectionIsOrdered | readme-gen/src/lib/github.ts:148-170 | The selection is an order-preserving subsequence of the tree. |
| GitHub.SelectionIsFirstFifty | readme-gen/src/lib/github.ts:170 | A qualifying entry is left out only when 50 entries were already selected. |
| GitHub.SelectionIgnoresLaterEntries | readme-gen/src/lib/github.ts:170 | Once 50 are selected, entries later in the tree do not change the selection. |
| GitHub.SubstringMarkerExcludes | readme-gen/src/lib/github.ts:156-163 | The vendored test is on substrings: `src/mydist/app.js` is skipped. |
| GitHub.LanguageTag | readme-gen/src/lib/github.ts:179 | The tag is the dot-free suffix of the whole path after its last `.`. It is the whole path when there is no `.`. |
| GitHub.FetchOne | readme-gen/src/lib/github.ts:176-189 | A failed fetch gives nothing. A successful one gives one file with its path, content and tag. |
| GitHub.Collected | readme-gen/src/lib/github.ts:174-194 | No more files than entries. Each file holds the fetched content of its path and that path's tag. |
| GitHub.CollectedFromEntries | readme-gen/src/lib/github.ts:174-194 | Every returned file has the path of a selected entry. |
| GitHub.CollectedKeepsSuccesses | readme-gen/src/lib/github.ts:176-189 | A selected entry whose fetch succeeds is returned, whatever happens to the others. |
| GitHub.ReadRepositoryFiles | readme-gen/src/lib/github.ts:123-195 | The batch loop returns `Collected(FilesToRead(tree))`, at most 50 files. A failed tree listing gives no result. |
| GitHub.CollectedStep | readme-gen/src/lib/github.ts:174-192 | Collecting one more entry appends that entry's fetch result. |
| GitHub.DependencyLabels | readme-gen/src/lib/github.ts:209-216 | A manifest that does not parse adds nothing. Otherwise each of React, Next.js, Vue.js, Express and TypeScript is added exactly when its dependency key is present, and nothing else is. |
| GitHub.Fire | readme-gen/src/lib/github.ts:203-257 | The manifest rule fires exactly for basename `package.json`. Every other rule adds at most one label. |
| GitHub.FireAll | readme-gen/src/lib/github.ts:203-257 | Every label comes from some rule of the table. |
| GitHub.FireAllIncludes | readme-gen/src/lib/github.ts:203-257 | Every label of every rule that fires is added. |
| GitHub.RuleContributes | readme-gen/src/lib/github.ts:203-257 | A rule of the table that fires for a file contributes its labels to that file's labels. |
| GitHub.CandidatesSound | readme-gen/src/lib/github.ts:203-257 | Each `add` call comes from some file. |
| GitHub.CandidatesComplete | readme-gen/src/lib/github.ts:203-257 | Each label of each file is added. |
| GitHub.CandidatesConcat | readme-gen/src/lib/github.ts:203 | The `add` calls for two lists of files are those of the first, then those of the second. |
| GitHub.CandidatesStep | readme-gen/src/lib/github.ts:203 | One more file appends its labels. |
| GitHub.AddAll | readme-gen/src/lib/github.ts:201-257 | Adding labels to a `Set` keeps the first-occurrence order of everything added. |
| GitHub.DetectTechnologies | readme-gen/src/lib/github.ts:200-260 | The result has no duplicates. A label is present exactly when some file fires a rule for it. |
| GitHub.DetectedMembership | readme-gen/src/lib/github.ts:200-260 | A label is detected if and only if some file fires a rule for it. |
| GitHub.DetectedHasLabel | readme-gen/src/lib/github.ts:200-260 | A label any file triggers is detected. |
| GitHub.DetectedGrows | readme-gen/src/lib/github.ts:201-259 | Adding files never removes a label and never reorders the ones already found. |
| GitHub.DetectedMonotone | readme-gen/src/lib/github.ts:201-259 | A label found in some files is found in any list that holds them. |
| GitHub.PackageJsonRule | readme-gen/src/lib/github.ts:207-216 | A `package.json` adds Node.js, and React/Next.js/Vue.js/Express/TypeScript for those dependencies. When the manifest does not parse, the rule adds Node.js alone. |
| GitHub.ManifestContributes | readme-gen/src/lib/github.ts:207-216 | Every label the manifest rule adds for a `package.json` is one of that file's labels. |
| GitHub.DevOpsRules | readme-gen/src/lib/github.ts:254-256 | Basename `Dockerfile` adds Docker, and a `.github/workflows/` path adds GitHub Actions. |
| GitHub.ReactScenario | readme-gen/src/lib/github.ts:207-211 | A repository whose `package.json` depends on react is labelled Node.js and React. |
| AiGenerator.Preview | readme-gen/src/lib/ai-generator.ts:80 | The preview is a prefix of the content of at most 500 characters. Short content is shown whole. |
| AiGenerator.PromptSeesOnlyGlimpses | readme-gen/src/lib/ai-generator.ts:77-83 | The prompt sees only the first 20 files, and of each only its path, its tag and its first 500 characters. |
| AiGenerator.PromptIgnoresLaterFiles | readme-gen/src/lib/ai-generator.ts:78 | Files after the twentieth never reach the prompt. |
| AiGenerator.PromptEmbedsFile | readme-gen/src/lib/ai-generator.ts:77-94 | Each of the first 20 files has its summary in the prompt. |
| AiGenerator.PromptHasInformationLine | readme-gen/src/lib/ai-generator.ts:87-91 | The four substituted information lines are in the prompt. |
| AiGenerator.PromptDefaults | readme-gen/src/lib/ai-generator.ts:88-91 | A missing or empty description reads "No description provided", and a missing or empty language "Not specified". The technologies are joined with `, `. |
| AiGenerator.CollapseNoWhitespace | readme-gen/src/lib/ai-generator.ts:166 | `replace(/\s+/g, "-")` leaves no white space. |
| AiGenerator.CollapseWord | readme-gen/src/lib/ai-generator.ts:166 | Text without white space is left as it is. |
| AiGenerator.CollapseRun | readme-gen/src/lib/ai-generator.ts:166 | A run of white space between two words becomes exactly one `-`. |
| AiGenerator.Slug | readme-gen/src/lib/ai-generator.ts:166 | The logo slug has no white space, and is the lower-cased name when the name has none. |
| AiGenerator.SlugIdempotent | readme-gen/src/lib/ai-generator.ts:166 | A slug is its own slug. |
| AiGenerator.BadgeOneLine | readme-gen/src/lib/ai-generator.ts:164-167 | The badge of a technology without a line break is a single line. |
| AiGenerator.TechBadgesLines | readme-gen/src/lib/ai-generator.ts:163-169 | Split at line breaks, the badge block is the badges of the technologies, one each and in order. |
| AiGenerator.FindPackageJson | readme-gen/src/lib/ai-generator.ts:150 | `find` gives the first file whose whole path is `package.json`, or nothing when there is none. |
| AiGenerator.ScriptLines | readme-gen/src/lib/ai-generator.ts:156-158 | The lines are empty exactly when there are no entries. |
| AiGenerator.Scripts | readme-gen/src/lib/ai-generator.ts:150-161 | `scripts` is non-empty exactly when the first `package.json` parses and has at least one script entry. |
| AiGenerator.ShowsBlock | readme-gen/src/lib/ai-generator.ts:175-327 | Every block of the layout is in the rendered template. |
| AiGenerator.LayoutIff | readme-gen/src/lib/ai-generator.ts:206-283 | Each conditional block is in the layout if and only if its condition holds. |
| AiGenerator.DockerSectionIff | readme-gen/src/lib/ai-generator.ts:172-254 | The Docker note and section appear if and only if some file's whole path is `Dockerfile`. |
| AiGenerator.TestingSectionIff | readme-gen/src/lib/ai-generator.ts:173-291 | The Testing section appears if and only if some path contains `test` or `spec`. |
| AiGenerator.ScriptsSectionIff | readme-gen/src/lib/ai-generator.ts:150-281 | The Scripts section appears exactly when the first `package.json` parses with a non-empty `scripts`. It then lists its entries. |
| AiGenerator.FixedBlocksIgnoreFiles | readme-gen/src/lib/ai-generator.ts:175-327 | Whatever the files, the unconditional stretches are the same five, in order. |
| AiGenerator.FixedAmongPieces | readme-gen/src/lib/ai-generator.ts:175-327 | The five unconditional stretches keep their order around any optional pieces. |
| AiGenerator.TemplateDependsOnlyOnFacts | readme-gen/src/lib/ai-generator.ts:146-175 | The files affect the template only through the Dockerfile test, the test/spec test and the scripts text. |
| AiGenerator.RenderIgnoresFiles | readme-gen/src/lib/ai-generator.ts:175-327 | No block's text depends on the sampled files; they only choose the blocks. |
| AiGenerator.DockerTextHasHeading | readme-gen/src/lib/ai-generator.ts:245-254 | The Docker section holds its heading. |
| AiGenerator.TestingTextHasHeading | readme-gen/src/lib/ai-generator.ts:283-291 | The Testing section holds its heading. |
| AiGenerator.ScriptsTextHasLines | readme-gen/src/lib/ai-generator.ts:156-281 | The Scripts section holds one ``- `npm run k` - v`` line per entry. |
| AiGenerator.TemplateShowsSections | readme-gen/src/lib/ai-generator.ts:172-291 | When their condition holds, the template contains the Docker heading and note, the Testing heading and each script line. |
| AiGenerator.OpeningShowsBadge | readme-gen/src/lib/ai-generator.ts:164-177 | The opening holds a badge for each technology. |
| AiGenerator.TemplateShowsOpening | readme-gen/src/lib/ai-generator.ts:175-206 | The template holds its opening. |
| AiGenerator.TemplateStartsWithTitle | readme-gen/src/lib/ai-generator.ts:174-176 | The template starts with the title line `# <name>` and a blank line, so it is never empty. |
| AiGenerator.TemplateBadges | readme-gen/src/lib/ai-generator.ts:164-177 | Every technology has its badge in the template. |
| AiGenerator.TemplateDescription | readme-gen/src/lib/ai-generator.ts:183-185 | The Description section holds the description. When it is missing or empty, it holds the default sentence. |
| AiGenerator.GenerateReadmeWithAI | readme-gen/src/lib/ai-generator.ts:16-68 | A missing or empty key throws "GEMINI_API_KEY not configured". Otherwise the result is the model's text when usable, and the template when not. A returned README is never empty. |
| AiGenerator.MissingKeyIsNotCaught | readme-gen/src/lib/ai-generator.ts:17-25 | A missing key is never replaced by the template. |
| AiGenerator.FailuresAllFallBack | readme-gen/src/lib/ai-generator.ts:51-66 | With a key, every unusable response gives the same result: the template. |
| GeneratePage.FallbackMentions | src/pages/Generate.tsx:15-65 | The name is in the title, the clone URL, the `cd` line and the tree root. The description, or the default sentence when it is empty, follows the title. |
| GeneratePage.FallbackStartsWithTitle | src/pages/Generate.tsx:15 | The fallback starts with `# 📦 ` and the name. |
| GeneratePage.TrimmedPieces | src/pages/Generate.tsx:104 | Pieces without commas, trimmed and with the blank ones dropped, are clean names. |
| GeneratePage.TechList | src/pages/Generate.tsx:104 | Empty input gives `[]`. There are at most commas + 1 names, each non-empty, comma-free and trimmed. |
| GeneratePage.TrimClean | src/pages/Generate.tsx:104 | Trimming leaves clean names unchanged. |
| GeneratePage.JoinNotEmpty | src/pages/Generate.tsx:104 | A list whose first name is non-empty joins to non-empty text. |
| GeneratePage.TechListRoundTrip | src/pages/Generate.tsx:104 | Clean names joined with `,` split back into the same list. |
| GeneratePage.TechListDropsBlanks | src/pages/Generate.tsx:104 | A blank piece after a comma is dropped. |
| GeneratePage.HandleGenerate | src/pages/Generate.tsx:81-129 | A blank name changes nothing and calls nothing. Otherwise it shows a truthy readme when the saving succeeds or nobody is logged in, and the fallback template in every other case. A row is saved exactly when a readme came back, a user is logged in and the insert did not throw. |
| GeneratePage.GenerationShowsSomething | src/pages/Generate.tsx:90-125 | Past the name guard, a non-empty README is always shown. |
| UpdatedProjectSection.Filtered | readme-gen/src/app/components/UpdatedProjectSection.tsx:106-118 | The result is an order-preserving subsequence, and a project is in it exactly when it passes the filter. |
| UpdatedProjectSection.VisibilityFilters | readme-gen/src/app/components/UpdatedProjectSection.tsx:108-109 | "Public" drops private projects, and "Private" drops public ones. |
| UpdatedProjectSection.EmptyQueryKeepsAll | readme-gen/src/app/components/UpdatedProjectSection.tsx:108-110 | "All" and "Archived" with an empty query keep every project. |
| UpdatedProjectSection.EmptyQueryPublic | readme-gen/src/app/components/UpdatedProjectSection.tsx:108-110 | "Public" with an empty query keeps exactly the public projects. |
| UpdatedProjectSection.QueryIgnoresCase | readme-gen/src/app/components/UpdatedProjectSection.tsx:111-116 | The query is case-insensitive. |
| UpdatedProjectSection.NameMatchKeeps | readme-gen/src/app/components/UpdatedProjectSection.tsx:111-113 | A name containing the query keeps a project that passes the visibility test. |
| UpdatedProjectSection.ComputeStats | readme-gen/src/app/components/UpdatedProjectSection.tsx:120-127 | Public plus private is the total, each count is that of its filter, and the star total is the sum. |
| UpdatedProjectSection.StatsAdd | readme-gen/src/app/components/UpdatedProjectSection.tsx:120-127 | The public count and the star total add up over concatenated lists. |
| UpdatedProjectSection.FormatDate | readme-gen/src/app/components/UpdatedProjectSection.tsx:129-140 | The buckets are: today, yesterday, N days (below 7), ⌊N/7⌋ weeks (below 30), ⌊N/30⌋ months. |
| UpdatedProjectSection.FormatDateUnits | readme-gen/src/app/components/UpdatedProjectSection.tsx:138-139 | The week and month counts are at least 1. |
| ProjectSection.Filtered | readme-gen/src/app/components/ProjectSection.tsx:92-103 | The result has at most 6 projects and is an order-preserving subsequence of `PROJECTS`. A project is in it exactly when it passes the filter. |
| ProjectSection.OnlyKeepsVisibility | readme-gen/src/app/components/ProjectSection.tsx:94 | A visibility filter keeps only projects of that visibility. |
| ProjectSection.AllEmptyQueryKeepsAll | readme-gen/src/app/components/ProjectSection.tsx:94-95 | "All" with an empty query keeps all six projects, in order. |
| ProjectSection.ProjectVisibilities | readme-gen/src/app/components/ProjectSection.tsx:13-86 | The six projects alternate public and private. |
| ProjectSection.EmptyQueryPublic | readme-gen/src/app/components/ProjectSection.tsx:13-95 | "Public" with an empty query shows projects 1, 3 and 5. |
| ProjectSection.EmptyQueryPrivate | readme-gen/src/app/components/ProjectSection.tsx:13-95 | "Private" with an empty query shows projects 2, 4 and 6. |
| ProjectSection.EmptyQueryArchived | readme-gen/src/app/components/ProjectSection.tsx:13-94 | "Archived" shows nothing, whatever the query. |
| ProjectSection.NoneArchived | readme-gen/src/app/components/ProjectSection.tsx:13-86 | No project of `PROJECTS` is archived. |
| ProjectSection.QueryIgnoresCase | readme-gen/src/app/components/ProjectSection.tsx:96 | The query is case-insensitive. |
| ProjectSection.SummaryMatchKeeps | readme-gen/src/app/components/ProjectSection.tsx:99 | A query found in one line of the summary keeps the project. |
| ProjectSection.TechMatchKeeps | readme-gen/src/app/components/ProjectSection.tsx:100 | A query found in one tech name keeps the project. |
| ProjectSection.KeepsByTech | readme-gen/src/app/components/ProjectSection.tsx:94-101 | A tech-name match passes the search test. |
| Dashboard.PresentLanguagesMembership | src/pages/Dashboard.tsx:30 | `.filter(Boolean)` keeps exactly the set, non-empty languages. |
| Dashboard.Languages | src/pages/Dashboard.tsx:29-32 | The languages are distinct. A language is listed exactly when some repository has it. |
| Dashboard.DemoLanguageColumn | src/pages/Dashboard.tsx:12-30 | The language column of the demo repositories, in order. |
| Dashboard.DemoDedup | src/pages/Dashboard.tsx:30-31 | The `Set` keeps the first TypeScript and drops the second. |
| Dashboard.DemoLanguages | src/pages/Dashboard.tsx:12-32 | The buttons are TypeScript, Python, Go, Rust, Kotlin, JavaScript and Swift, in that order. |
| Dashboard.DemoLanguagesColoured | src/pages/Dashboard.tsx:29-32 | Every demo language has a colour of its own on the cards. |
| Dashboard.Filtered | src/pages/Dashboard.tsx:34-41 | The result is an order-preserving subsequence, and a repository is in it exactly when it matches the search and the language. |
| Dashboard.EmptySearchKeepsAll | src/pages/Dashboard.tsx:36-38 | An empty search with no language shows every repository. |
| Dashboard.LanguageFilterKeepsLanguage | src/pages/Dashboard.tsx:38 | A selected language keeps only repositories in that language. |
| Dashboard.SearchIgnoresCase | src/pages/Dashboard.tsx:36-37 | The search is case-insensitive. |
| Dashboard.DemoTotals | src/pages/Dashboard.tsx:12-44 | The demo totals are 3960 stars and 571 forks. |
| Dashboard.ToggleLanguage | src/pages/Dashboard.tsx:108 | Clicking the active language clears the filter, and clicking any other sets it. |
| Dashboard.ToggleTwice | src/pages/Dashboard.tsx:108 | From "All" or from that language itself, two clicks return to where they started. |
| Dashboard.ToggleThenFilter | src/pages/Dashboard.tsx:38-108 | After clicking an inactive language, only that language is shown. |
| Time.WholeDays | src/components/RepoCard.tsx:46 | The floor of `ms / 86400000`, also for negative differences. |
| RepoCard.TimeAgo | src/components/RepoCard.tsx:44-52 | The buckets are: today, yesterday, `{d}d ago` (below 30), `{⌊d/30⌋}mo ago` (below 365), `{⌊d/365⌋}y ago`. |
| RepoCard.TimeAgoFirstDays | src/components/RepoCard.tsx:46-48 | The first 24 hours read "today", and the next 24 "yesterday". |
| RepoCard.TimeAgoUnits | src/components/RepoCard.tsx:50-51 | Months run from 1 to 12, and years are at least 1. |
| RepoCard.LangColorKeys | src/components/RepoCard.tsx:19-35 | The table has exactly the fifteen listed languages. |
| RepoCard.LangColor | src/components/RepoCard.tsx:19-81 | A listed language gets its colour, and any other the muted colour. Every colour is an `hsl(` value. |
| RepoCard.MutedOnlyForUnknown | src/components/RepoCard.tsx:19-81 | The muted colour appears exactly for unlisted languages. |
| ContributionGraph.DataMap | src/components/ContributionGraph.tsx:17 | The map has exactly the dates of the data as keys. |
| ContributionGraph.DataMapLastWins | src/components/ContributionGraph.tsx:17 | With duplicate dates, the last entry's count wins. |
| ContributionGraph.CountFor | src/components/ContributionGraph.tsx:26 | `dataMap.get(key) \|\| 0`. A missing key gives 0. |
| ContributionGraph.BuildWeeks | src/components/ContributionGraph.tsx:14-31 | The nested loops build exactly the `Weeks` grid. |
| ContributionGraph.WeeksShape | src/components/ContributionGraph.tsx:20-29 | There are 52 weeks of 7 cells. Week i of the grid is loop round `w = 51 - i`: its cell d is `w*7 + (6-d)` days back, with that day's key, count and weekday. |
| ContributionGraph.OffsetsDecrease | src/components/ContributionGraph.tsx:20-24 | Offsets strictly decrease along the grid, from 363 down to 0 (today). |
| ContributionGraph.CellCount | src/components/ContributionGraph.tsx:17-26 | A cell counts its date's entry, and 0 when there is none. |
| ContributionGraph.GetColor | src/components/ContributionGraph.tsx:33-39 | The colour is one of the five shades. |
| ContributionGraph.GetColorByThresholds | src/components/ContributionGraph.tsx:33-39 | For counts ≥ 0, the shade is indexed by how many of 1, 2, 4, 6 the count has reached. |
| ContributionGraph.GetColorNegative | src/components/ContributionGraph.tsx:36 | A negative count gets `bg-primary/50`. |
| ContributionGraph.GetColorMonotone | src/components/ContributionGraph.tsx:33-39 | Larger counts never get a lighter shade. |
| ContributionGraph.ReachedMonotone | src/components/ContributionGraph.tsx:33-39 | A larger count reaches at least as many thresholds. |
| ContributionGraph.LegendShowsEveryShade | src/components/ContributionGraph.tsx:64 | The legend samples 0, 1, 3, 5, 7 give the five shades in order, all distinct. |
| ContributionGraph.TooltipSingularIff | src/components/ContributionGraph.tsx:55 | The tooltip says "contribution" if and only if the count is 1. |
| ReadmePreview.ReplaceRemoves | readme-gen/src/app/components/ReadmePreview.tsx:87-90 | A global replace by text without the character removes every occurrence. |
| ReadmePreview.ReplaceConcat | readme-gen/src/app/components/ReadmePreview.tsx:87-90 | A global replace works piecewise over a concatenation. |
| ReadmePreview.ReplaceAbsent | readme-gen/src/app/components/ReadmePreview.tsx:87-90 | Replacing an absent character changes nothing. |
| ReadmePreview.ReplaceSingle | readme-gen/src/app/components/ReadmePreview.tsx:87-90 | On one character, a replace gives the replacement or the character itself. |
| ReadmePreview.EscapeConcat | readme-gen/src/app/components/ReadmePreview.tsx:86-90 | The escape chain works piecewise over a concatenation. |
| ReadmePreview.EscapeAmp | readme-gen/src/app/components/ReadmePreview.tsx:87 | `&` becomes `&amp;`, and the later steps leave it alone. |
| ReadmePreview.EscapeLt | readme-gen/src/app/components/ReadmePreview.tsx:88 | `<` becomes `&lt;` and is not escaped again. |
| ReadmePreview.EscapeGt | readme-gen/src/app/components/ReadmePreview.tsx:89 | `>` becomes `&gt;` and is not escaped again. |
| ReadmePreview.EscapeOther | readme-gen/src/app/components/ReadmePreview.tsx:90 | A line break becomes `<br/>`, and every other character stays. |
| ReadmePreview.EscapeChar | readme-gen/src/app/components/ReadmePreview.tsx:86-90 | The chain on one character is that character's encoding. |
| ReadmePreview.EscapeIsEncode | readme-gen/src/app/components/ReadmePreview.tsx:86-90 | The four-step replace chain equals escaping character by character, so no introduced entity is escaped twice. |
| ReadmePreview.NoNewline | readme-gen/src/app/components/ReadmePreview.tsx:90 | No line break is left. |
| ReadmePreview.PlainTextUnchanged | readme-gen/src/app/components/ReadmePreview.tsx:86-90 | Text without `&`, `<`, `>` or line breaks is shown as it is. |
| ReadmePreview.EncodeOfPlain | readme-gen/src/app/components/ReadmePreview.tsx:86-90 | The character-wise encoding leaves plain text as it is. |
| ReadmePreview.AngleAtLeft | readme-gen/src/app/components/ReadmePreview.tsx:88-90 | An angle bracket inside a `<br/>` stays inside one when text is appended. |
| ReadmePreview.AngleAtRight | readme-gen/src/app/components/ReadmePreview.tsx:88-90 | An angle bracket inside a `<br/>` stays inside one when text is prepended. |
| ReadmePreview.AnglesConcat | readme-gen/src/app/components/ReadmePreview.tsx:88-90 | Texts whose brackets are all in `<br/>` tags concatenate into such a text. |
| ReadmePreview.EscapedAngles | readme-gen/src/app/components/ReadmePreview.tsx:88-90 | Every `<` and `>` in the output belongs to an inserted `<br/>`. |
| ReadmePreview.EncodeAngles | readme-gen/src/app/components/ReadmePreview.tsx:88-90 | The same holds for the character-wise encoding. |
| ReadmePreview.DecodeEscape | readme-gen/src/app/components/ReadmePreview.tsx:86-90 | Escaping loses nothing: decoding the output gives the README back. |
| ReadmePreview.DecodeEncode | readme-gen/src/app/components/ReadmePreview.tsx:86-90 | The character-wise encoding decodes back to its input. |
| ReadmePreview.DecodeStep | readme-gen/src/app/components/ReadmePreview.tsx:86-90 | Decoding reads one encoded character back. |
| ReadmePreview.NotPrefix | readme-gen/src/app/components/ReadmePreview.tsx:86-90 | A text with a differing character does not start with the pattern. |
| ReadmePreview.LineCount | readme-gen/src/app/components/ReadmePreview.tsx:75 | `split("\n").length` is the number of line breaks plus one. |
| Admin.OpenIssueCount | src/pages/Admin.tsx:38-45 | Missing data counts 0. Otherwise the open issues and the others make up the list. |
| Admin.OpenIssueCountConcat | src/pages/Admin.tsx:45 | The count adds up over concatenated lists. |
| Admin.OpenIssueCountSingle | src/pages/Admin.tsx:45 | One issue counts 1 exactly when its status is "open". |
| Admin.SendNotification | src/pages/Admin.tsx:50-65 | An empty title or message does nothing. Otherwise it makes one insert for a given user, one row per user for a broadcast and nothing for an empty user list, then resets the form. |
| Admin.BroadcastRows | src/pages/Admin.tsx:58-59 | A broadcast row exists for every user, and its title, message and type are those of the form. |
| Admin.SendTwiceIsNoop | src/pages/Admin.tsx:51-63 | Sending again from the reset form does nothing. |
| Admin.UpdateIssueStatus | src/pages/Admin.tsx:67-71 | Only issues with that id get the new status. The length, the order and all other issues are unchanged. |
| Admin.UpdateIssueStatusIdempotent | src/pages/Admin.tsx:69 | Applying the same update twice is applying it once. |
| Admin.UpdateUnknownId | src/pages/Admin.tsx:69 | An unknown id changes nothing. |
| Admin.CloseLowersOpenCount | src/pages/Admin.tsx:45-69 | Setting a status other than "open" never raises the open count of the updated list. The displayed stat itself is computed once, when the data loads. |
| Settings.LoadProfile | src/pages/Settings.tsx:34 | With data, each field is the loaded one, or `""` when it is null or empty. Without data, the form stays. |
| Settings.LoadProfileReplaces | src/pages/Settings.tsx:34 | Loading replaces the whole form, whatever it held. |
| Settings.SubmitIssue | src/pages/Settings.tsx:49-58 | No user or a blank title does nothing. A failed insert keeps the list and the form. A success prepends the row, keeps the rest in order, and resets the form. |
| Settings.SubmitKeepsIssues | src/pages/Settings.tsx:54 | The old issues always remain, in order, at the end. |
| Settings.BlankTitleRefused | src/pages/Settings.tsx:50 | An all-white-space title is refused. |
| Settings.ResetFormRefused | src/pages/Settings.tsx:50-55 | The reset form cannot be submitted again. |
| Settings.MarkRead | src/pages/Settings.tsx:150-153 | Only notifications with that id become read. The length, the order and all others are unchanged. |
| Settings.MarkReadLowersUnread | src/pages/Settings.tsx:152 | Marking never raises the unread count, and the notification ends up read. |
| Settings.MarkReadIdempotent | src/pages/Settings.tsx:152 | Marking twice is marking once. |
| Settings.OnClick | src/pages/Settings.tsx:161 | A click calls `markRead` exactly for an unread notification. |
| Settings.ClickMarksRead | src/pages/Settings.tsx:161 | Clicking an unread notification marks it read. |
| Seqs.Dedup | readme-gen/src/lib/github.ts:201-259 | The insertion order of a `Set` is never longer than what was fed in. |
| Seqs.DedupMembership | readme-gen/src/lib/github.ts:201-259 | The `Set` holds exactly the values fed in. |
| Seqs.DedupDistinct | readme-gen/src/lib/github.ts:201-259 | The `Set` holds each value once. |
| Seqs.DedupGrows | readme-gen/src/lib/github.ts:201-259 | Feeding more values keeps the earlier ones, in place. |
| Strings.Trim | src/pages/Generate.tsx:82-104 | The result has no white space at either end, is empty exactly when everything was white space, and occurs in the input. |
| Strings.Split | src/pages/Generate.tsx:104 | There are separators + 1 pieces with no separator, and they join back into the input. |
| Strings.SplitJoin | src/pages/Generate.tsx:104 | `split` undoes `join` when no part holds the separator. |
| Strings.LastSegment | readme-gen/src/lib/github.ts:165-179 | `split(c).pop()` is the `c`-free suffix after the last `c`, or all of the input when it has no `c`. |
| Strings.ToLower | readme-gen/src/app/components/UpdatedProjectSection.tsx:111-116 | Lower-casing works character by character. |
| Strings.OrDefault | src/pages/Settings.tsx:34 | `v \|\| fallback`: a null or empty string gives the fallback. |
| Strings.NatToStringRoundTrip | src/components/RepoCard.tsx:49-51 | The decimal text of a number reads back as that number. |

## Left out

- **Network and database I/O:**
  - the GitHub REST calls (`fetchRepoTree`, `fetchFileContent`, the repository listing);
  - the Gemini request;
  - every Supabase query, insert, update and upsert;
  - the Next.js API routes and the Deno edge function `supabase/funcations/generte-readme/index.ts`.

  Their results are parameters of the model. The routes only pass data along.
- **Concurrency:**
  - The `Promise.all` batches of five in `readRepositoryFiles` are a sequential loop over batches of `BatchSize`.
  - The source pushes files in completion order inside a batch. The model returns them in tree order. Which files, and their contents, are the same.
- **`JSON.parse`:**
  - A `package.json` is read by an abstract `parse` function, giving dependency names and `scripts` entries, or nothing when it throws.
  - Script values that are not strings are not modelled.
- **The clock and time zones:**
  - `Date.now`, `new Date`, `setDate`, `toISOString` and `getDay` become parameters: a millisecond difference, a day count, or functions from days-back to a date key and a weekday.
  - Daylight-saving and UTC/local drift are not modelled.
  - An invalid date string (`NaN` days) is not modelled.
- **Floating point and randomness:** the `KB` size in ReadmePreview (`toFixed(1)`) and the `Math.random` bars on the admin page.
- **The prose of the prompt and the templates:** these texts are kept verbatim as constants. Only where the substituted values appear is proved about them.
- **AiGenerator.Preview:**
  - It counts characters, which are Unicode scalar values in the model. JavaScript's `slice(0, 500)` counts UTF-16 code units.
  - The two differ only for text outside the Basic Multilingual Plane. There the source may also cut a surrogate pair in half, which the model cannot.
- **Strings.ToLower:** lower-cases A to Z only. JavaScript's `toLowerCase` also maps non-ASCII letters.
- **RepoCard.LangColor:**
  - `langColors[repo.language]` on a JavaScript object also finds inherited keys such as `constructor`.
  - The model looks up the fifteen listed languages only.
- **Time.WholeDays:** works on an integer number of milliseconds. `Date` differences are integers, so only `NaN` is lost.
- **GeneratePage.HandleGenerate:**
  - The Supabase client normally reports write errors in its result instead of throwing.
  - The model takes the outcome of the two writes as a parameter (`SaveOk`, `InsertThrew`, `UpsertThrew`) and follows the `try`/`catch` for each.
  - The values of the upserted contribution row (date, count, activity type) are not modelled.
- **UpdatedProjectSection.FormatDate and RepoCard.TimeAgo:** take the day count or the millisecond difference as input. The `Date` arithmetic that produces them is out of scope.
- **React and browser machinery:**
  - state hooks, memoisation, toasts, router navigation, clipboard, Blob downloads and all rendering;
  - the auth, landing, legal and layout pages;
  - the settings form and `routes.ts`.
- **The initials one-liners:** the one-liners in `Navbar.tsx` and `Profile.tsx` are outside the modelled core.
