/**
 * The leaderboard page (app/leaderboard/page.tsx): the theme display names,
 * the rankings as fetched and reshaped, the three statistics, the rank tiers
 * of the first three places, and the fallbacks for a missing project.
 */
module Leaderboard {
  import opened Wrappers
  import opened Numerals
  import opened VoteStore

  const CyberAi: string := "赛博 AI 20X5"
  const RediscoverSociety: string := "重新发现社会"
  const TechChangesLife: string := "科技改变生活"
  const UnknownTheme: string := "未知主题"
  const UnknownTeam: string := "未知团队"
  const ThemePrefix: string := "主题"
  const ProjectPrefix: string := "项目 "
  const Separator: string := ", "

  /** The leaderboard's name of one theme number: the fixed name of 1, 2 or 3, else "主题<n>". */
  function ThemeName(t: int): (name: string)
    ensures t == 1 ==> name == CyberAi
    ensures t == 2 ==> name == RediscoverSociety
    ensures t == 3 ==> name == TechChangesLife
    ensures !(1 <= t <= 3) ==> name == ThemePrefix + IntToString(t)
  {
    if t == 1 then CyberAi
    else if t == 2 then RediscoverSociety
    else if t == 3 then TechChangesLife
    else ThemePrefix + IntToString(t)
  }

  /** Only the generated names start with the prefix's first character. */
  lemma ThemeNameFirstChar(t: int)
    ensures ThemeName(t)[0] == ThemePrefix[0] <==> !(1 <= t <= 3)
  {
  }

  /** Different theme numbers never share a name. */
  lemma ThemeNameInjective(a: int, b: int)
    requires ThemeName(a) == ThemeName(b)
    ensures a == b
  {
    ThemeNameFirstChar(a);
    ThemeNameFirstChar(b);
    if !(1 <= a <= 3) && !(1 <= b <= 3) {
      assert IntToString(a) == ThemeName(a)[|ThemePrefix|..];
      assert IntToString(b) == ThemeName(b)[|ThemePrefix|..];
      IntToStringInjective(a, b);
    }
  }

  /** `theme.map(t => themeNameMap[t] || `主题${t}`)`. */
  function ThemeNames(theme: seq<int>): (names: seq<string>)
    ensures |names| == |theme|
    ensures forall i :: 0 <= i < |theme| ==> names[i] == ThemeName(theme[i])
  {
    seq(|theme|, i requires 0 <= i < |theme| => ThemeName(theme[i]))
  }

  /** `parts.join(sep)`. */
  function Join(parts: seq<string>, sep: string): string
    decreases |parts|
  {
    if parts == [] then ""
    else if |parts| == 1 then parts[0]
    else parts[0] + sep + Join(parts[1..], sep)
  }

  /**
   * `getThemeDisplayName`: the names of all themes joined by ", " in list
   * order, or the unknown theme for an empty list or a value that is not an
   * array (None).
   */
  function ThemeDisplayName(theme: Option<seq<int>>): (name: string)
    ensures theme.None? || theme == Some([]) ==> name == UnknownTheme
    ensures theme.Some? && |theme.value| == 1 ==> name == ThemeName(theme.value[0])
    ensures theme.Some? && |theme.value| > 1 ==>
              name == ThemeName(theme.value[0]) + Separator + ThemeDisplayName(Some(theme.value[1..]))
    decreases if theme.Some? then |theme.value| else 0
  {
    if theme.Some? && |theme.value| > 0 then
      assert ThemeNames(theme.value)[1..] == ThemeNames(theme.value[1..]);
      Join(ThemeNames(theme.value), Separator)
    else UnknownTheme
  }

  /** A reshaped ranking row; `project` is undefined exactly when the store row has none. */
  datatype ProjectInfo = ProjectInfo(id: ProjectId, title: string, teamName: string, theme: Option<seq<int>>)
  datatype VoteRanking = VoteRanking(projectId: ProjectId, votes: int, project: Option<ProjectInfo>)

  function FormatRanking(item: RankedVote): (r: VoteRanking)
    ensures r.projectId == item.projectId && r.votes == item.votes
    ensures r.project.None? <==> item.project.None?
    ensures item.project.Some? ==>
              r.project.value == ProjectInfo(item.project.value.id, item.project.value.title,
                                             item.project.value.teamName, item.project.value.theme)
  {
    VoteRanking(item.projectId, item.votes,
      match item.project
      case None => None
      case Some(p) => Some(ProjectInfo(p.id, p.title, p.teamName, p.theme)))
  }

  /** `formattedRankings`: one row per fetched row, in the fetched order. */
  function FormatRankings(items: seq<RankedVote>): (rankings: seq<VoteRanking>)
    ensures |rankings| == |items|
    ensures forall i :: 0 <= i < |items| ==> rankings[i] == FormatRanking(items[i])
  {
    if items == [] then [] else [FormatRanking(items[0])] + FormatRankings(items[1..])
  }

  /** The "total votes" statistic: `reduce((total, r) => total + r.votes, 0)`. */
  function TotalVotes(rankings: seq<VoteRanking>): int
    decreases |rankings|
  {
    if rankings == [] then 0 else rankings[0].votes + TotalVotes(rankings[1..])
  }

  /** The "top votes" statistic: `rankings[0]?.votes || 0`. */
  function TopVotes(rankings: seq<VoteRanking>): (top: int)
    ensures rankings == [] ==> top == 0
    ensures rankings != [] ==> top == rankings[0].votes
  {
    if rankings == [] || rankings[0].votes == 0 then 0 else rankings[0].votes
  }

  function SumVotes(rows: seq<VoteRow>): int
    decreases |rows|
  {
    if rows == [] then 0 else rows[0].votes + SumVotes(rows[1..])
  }

  lemma {:induction false} SumVotesAppend(a: seq<VoteRow>, b: seq<VoteRow>)
    ensures SumVotes(a + b) == SumVotes(a) + SumVotes(b)
    decreases |a|
  {
    if a == [] {
      assert a + b == b;
    } else {
      assert (a + b)[0] == a[0];
      assert (a + b)[1..] == a[1..] + b;
      SumVotesAppend(a[1..], b);
    }
  }

  /** Taking row k out of the list takes its votes out of the sum. */
  lemma {:induction false} SumVotesRemove(b: seq<VoteRow>, k: nat)
    requires k < |b|
    ensures SumVotes(b) == b[k].votes + SumVotes(b[..k] + b[k + 1..])
  {
    var before, after := b[..k], b[k + 1..];
    var tail := [b[k]] + after;
    assert b == before + tail;
    assert tail[0] == b[k] && tail[1..] == after;
    SumVotesAppend(before, tail);
    SumVotesAppend(before, after);
  }

  lemma MultisetOfTail(a: seq<VoteRow>)
    requires a != []
    ensures multiset(a[1..]) == multiset(a) - multiset{a[0]}
  {
    assert a == [a[0]] + a[1..];
  }

  lemma MultisetWithout(b: seq<VoteRow>, k: nat)
    requires k < |b|
    ensures multiset(b[..k] + b[k + 1..]) == multiset(b) - multiset{b[k]}
  {
    assert b == b[..k] + [b[k]] + b[k + 1..];
    assert multiset(b) == multiset(b[..k]) + multiset{b[k]} + multiset(b[k + 1..]);
  }

  /** Reordering the rows does not change the sum of their votes. */
  lemma {:induction false} SumVotesPermutation(a: seq<VoteRow>, b: seq<VoteRow>)
    requires multiset(a) == multiset(b)
    ensures SumVotes(a) == SumVotes(b)
    decreases |a|
  {
    if a == [] {
      assert |b| == |multiset(b)| == 0;
    } else {
      assert a[0] in multiset(b);
      var k :| 0 <= k < |b| && b[k] == a[0];
      MultisetOfTail(a);
      MultisetWithout(b, k);
      SumVotesPermutation(a[1..], b[..k] + b[k + 1..]);
      SumVotesRemove(b, k);
    }
  }

  lemma {:induction false} TotalVotesOfFormatted(items: seq<RankedVote>)
    ensures TotalVotes(FormatRankings(items)) == SumVotes(VoteRowsOf(items))
    decreases |items|
  {
    if items != [] {
      TotalVotesOfFormatted(items[1..]);
      assert FormatRankings(items)[1..] == FormatRankings(items[1..]);
      assert VoteRowsOf(items)[1..] == VoteRowsOf(items[1..]);
    }
  }

  /** The total shown is the sum of the counts of every record in the table. */
  lemma TotalIsTableTotal(items: seq<RankedVote>, tableRows: seq<VoteRow>)
    requires multiset(VoteRowsOf(items)) == multiset(tableRows)
    ensures TotalVotes(FormatRankings(items)) == SumVotes(tableRows)
  {
    TotalVotesOfFormatted(items);
    SumVotesPermutation(VoteRowsOf(items), tableRows);
  }

  /** On rankings in the store's order, the "top votes" figure is the highest count of all. */
  lemma TopVotesIsHighest(items: seq<RankedVote>)
    requires RowsOrdered(VoteRowsOf(items))
    ensures forall i :: 0 <= i < |items| ==> FormatRankings(items)[i].votes <= TopVotes(FormatRankings(items))
    ensures items != [] ==> TopVotes(FormatRankings(items)) == items[0].votes
  {
  }

  /** Icon and highlight of a place in the list: three distinct tiers, then one default. */
  datatype RankIcon = Crown | SilverMedal | BronzeMedal | Trophy
  datatype RankColor = GoldGradient | SilverGradient | AmberGradient | PlainCard

  function GetRankIcon(index: int): RankIcon {
    if index == 0 then Crown else if index == 1 then SilverMedal else if index == 2 then BronzeMedal else Trophy
  }

  function GetRankColor(index: int): RankColor {
    if index == 0 then GoldGradient else if index == 1 then SilverGradient else if index == 2 then AmberGradient else PlainCard
  }

  lemma RankTiers(i: nat, j: nat)
    ensures i < 3 && j < 3 && i != j ==> GetRankIcon(i) != GetRankIcon(j) && GetRankColor(i) != GetRankColor(j)
    ensures i >= 3 && j >= 3 ==> GetRankIcon(i) == GetRankIcon(j) == Trophy && GetRankColor(i) == GetRankColor(j) == PlainCard
    ensures GetRankIcon(i) == Trophy <==> GetRankColor(i) == PlainCard
  {
  }

  /** The heading of a row: the project's title, or "项目 <id>" when it has none. */
  function DisplayTitle(r: VoteRanking): (title: string)
    ensures title != ""
    ensures r.project.Some? && r.project.value.title != "" ==> title == r.project.value.title
    ensures r.project.None? || r.project.value.title == "" ==> title == ProjectPrefix + IntToString(r.projectId)
  {
    if r.project.Some? && r.project.value.title != "" then r.project.value.title
    else ProjectPrefix + IntToString(r.projectId)
  }

  /** The team of a row: the team name, or the unknown team. */
  function DisplayTeam(r: VoteRanking): (team: string)
    ensures team != ""
    ensures r.project.Some? && r.project.value.teamName != "" ==> team == r.project.value.teamName
    ensures r.project.None? || r.project.value.teamName == "" ==> team == UnknownTeam
  {
    if r.project.Some? && r.project.value.teamName != "" then r.project.value.teamName else UnknownTeam
  }

  /** The theme badges of a row: one per theme entry when the theme is an array, else one unknown-theme badge. */
  function RowThemeBadges(r: VoteRanking): (badges: seq<string>)
    ensures r.project.Some? && r.project.value.theme.Some? ==> badges == ThemeNames(r.project.value.theme.value)
    ensures r.project.None? || r.project.value.theme.None? ==> badges == [UnknownTheme]
  {
    if r.project.Some? && r.project.value.theme.Some? then ThemeNames(r.project.value.theme.value)
    else [UnknownTheme]
  }

  /** No theme number is named like the unknown theme: their first characters already differ. */
  lemma ThemeNameNotUnknown(t: int)
    ensures ThemeName(t) != [] && ThemeName(t)[0] != UnknownTheme[0]
  {
  }

  /** The display name reads as the unknown theme exactly when there is no theme to name. */
  lemma DisplayNameUnknownIff(theme: Option<seq<int>>)
    ensures ThemeDisplayName(theme) == UnknownTheme <==> theme.None? || theme == Some([])
  {
    if theme.Some? && theme.value != [] {
      var name := ThemeDisplayName(theme);
      ThemeNameNotUnknown(theme.value[0]);
      assert name[0] == ThemeName(theme.value[0])[0];
    }
  }

  /** A row shows the unknown-theme badge exactly when its project or its theme array is missing. */
  lemma UnknownBadgeIff(r: VoteRanking)
    ensures UnknownTheme in RowThemeBadges(r) <==> r.project.None? || r.project.value.theme.None?
  {
    if r.project.Some? && r.project.value.theme.Some? {
      var theme := r.project.value.theme.value;
      if UnknownTheme in RowThemeBadges(r) {
        var i :| 0 <= i < |theme| && RowThemeBadges(r)[i] == UnknownTheme;
        ThemeNameNotUnknown(theme[i]);
        assert false;
      }
    }
  }

  /** The "first place" link target: the leader's id, or project 1 when there is none (or it is 0). */
  function FirstPlaceId(rankings: seq<VoteRanking>): (id: ProjectId)
    ensures rankings != [] && rankings[0].projectId != 0 ==> id == rankings[0].projectId
    ensures rankings == [] || rankings[0].projectId == 0 ==> id == 1
  {
    if rankings == [] || rankings[0].projectId == 0 then 1 else rankings[0].projectId
  }
}
