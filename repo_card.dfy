/** The repository card of src/components/RepoCard.tsx: the relative age label
    and the language colour. */
module RepoCard {
  import opened Wrappers
  import opened Strings
  import opened Time

  /** `Repo`; `updatedAgoMs` stands for `Date.now() - new Date(updated_at).getTime()`. */
  datatype Repo = Repo(id: int, name: string, fullName: string, description: Option<string>,
                       language: Option<string>, stars: int, forks: int, openIssues: int,
                       isPrivate: bool, updatedAgoMs: int)

  /** `timeAgo`, from the milliseconds elapsed since the update. */
  function TimeAgo(diffMs: int): (r: string)
    ensures WholeDays(diffMs) == 0 ==> r == "today"
    ensures WholeDays(diffMs) == 1 ==> r == "yesterday"
    ensures var d := WholeDays(diffMs); d < 30 && d != 0 && d != 1 ==> r == IntToString(d) + "d ago"
    ensures var d := WholeDays(diffMs); 30 <= d < 365 ==> r == NatToString(d / 30) + "mo ago"
    ensures var d := WholeDays(diffMs); d >= 365 ==> r == NatToString(d / 365) + "y ago"
  {
    var days := WholeDays(diffMs);
    if days == 0 then "today"
    else if days == 1 then "yesterday"
    else if days < 30 then IntToString(days) + "d ago"
    else if days < 365 then NatToString(days / 30) + "mo ago"
    else NatToString(days / 365) + "y ago"
  }

  /** Anything less than a day old is "today" and anything between one and two
      days old "yesterday". */
  lemma TimeAgoFirstDays(diffMs: int)
    ensures 0 <= diffMs < MillisPerDay ==> TimeAgo(diffMs) == "today"
    ensures MillisPerDay <= diffMs < 2 * MillisPerDay ==> TimeAgo(diffMs) == "yesterday"
  {
    var d := WholeDays(diffMs);
    if 0 <= diffMs < MillisPerDay {
      assert d == 0;
    }
  }

  /** From thirty days on, the number shown counts whole months of thirty days,
      from 1 to 12, and from 365 days on whole years. */
  lemma TimeAgoUnits(diffMs: int)
    requires WholeDays(diffMs) >= 30
    ensures var d := WholeDays(diffMs);
            var n := if d < 365 then d / 30 else d / 365;
            var unit := if d < 365 then 30 else 365;
            n >= 1 && n * unit <= d < (n + 1) * unit && ParseDigits(NatToString(n)) == n &&
            TimeAgo(diffMs) == NatToString(n) + (if d < 365 then "mo ago" else "y ago") &&
            (d < 365 ==> n <= 12)
  {
    var d := WholeDays(diffMs);
    NatToStringRoundTrip(if d < 365 then d / 30 else d / 365);
  }

  const MutedColor := "hsl(var(--muted-foreground))"

  /** `langColors` */
  const LangColors: map<string, string> := map[
    "TypeScript" := "hsl(210 80% 55%)",
    "JavaScript" := "hsl(50 90% 50%)",
    "Python" := "hsl(210 60% 45%)",
    "Java" := "hsl(20 80% 50%)",
    "Go" := "hsl(190 70% 45%)",
    "Rust" := "hsl(20 60% 40%)",
    "Ruby" := "hsl(0 70% 50%)",
    "PHP" := "hsl(240 50% 55%)",
    "CSS" := "hsl(270 50% 55%)",
    "HTML" := "hsl(15 80% 55%)",
    "C" := "hsl(200 30% 45%)",
    "C++" := "hsl(340 60% 50%)",
    "C#" := "hsl(120 40% 40%)",
    "Swift" := "hsl(15 90% 55%)",
    "Kotlin" := "hsl(270 60% 55%)"
  ]

  /** The languages with a colour of their own. */
  lemma LangColorKeys()
    ensures LangColors.Keys == {"TypeScript", "JavaScript", "Python", "Java", "Go", "Rust", "Ruby", "PHP",
                                "CSS", "HTML", "C", "C++", "C#", "Swift", "Kotlin"}
  {
  }

  /** `langColors[language] || "hsl(var(--muted-foreground))"` */
  function LangColor(language: string): (r: string)
    ensures language in LangColors ==> r == LangColors[language]
    ensures language !in LangColors ==> r == MutedColor
    ensures IsPrefix("hsl(", r)
  {
    if language in LangColors then LangColors[language] else MutedColor
  }

  /** Only languages missing from the table get the muted colour. */
  lemma MutedOnlyForUnknown(language: string)
    ensures LangColor(language) == MutedColor <==> language !in LangColors
  {
  }
}
