/**
 * The project card of the listing page (components/project-card.tsx): the card
 * record it is given, the theme badges, the member avatars with their overflow
 * badge, the thumbnail fallback and the external links it shows.
 */
module ProjectCard {
  import opened Wrappers

  datatype Member = Member(name: Option<string>, role: Option<string>, school: Option<string>)

  /** The record a card is rendered from; an empty URL counts as absent, as `&&` in the card treats it. */
  datatype Project = Project(
    id: string,
    title: string,
    description: string,
    theme: seq<int>,
    teamName: string,
    members: seq<Member>,
    thumbnail: string,
    demoUrl: Option<string>,
    sourceUrl: Option<string>,
    videoUrl: Option<string>)

  const CyberAi: string := "赛博 AI 20X5"
  const RediscoverSociety: string := "重新发现社会"
  const TechChangesLife: string := "科技改变生活"
  const UnknownTheme: string := "未知主题"
  const Placeholder: string := "/placeholder.svg"
  const MaxAvatars: nat := 4

  /** Theme numbers 1, 2 and 3 have names; the card shows every other number as the unknown theme. */
  function ThemeDisplayName(themeNumber: int): (name: string)
    ensures themeNumber == 1 ==> name == CyberAi
    ensures themeNumber == 2 ==> name == RediscoverSociety
    ensures themeNumber == 3 ==> name == TechChangesLife
    ensures name == UnknownTheme <==> !(1 <= themeNumber <= 3)
  {
    if themeNumber == 1 then CyberAi
    else if themeNumber == 2 then RediscoverSociety
    else if themeNumber == 3 then TechChangesLife
    else UnknownTheme
  }

  datatype ThemeIcon = Sparkles | Users | Lightbulb

  /** A badge: its label, its icon (Sparkles when the name has none) and whether a colour style exists for it. */
  datatype Badge = Badge(caption: string, icon: ThemeIcon, styled: bool)

  function BadgeFor(themeNumber: int): (b: Badge)
    ensures b.caption == ThemeDisplayName(themeNumber)
    ensures b.styled <==> 1 <= themeNumber <= 3
    ensures b.icon == Users <==> themeNumber == 2
    ensures b.icon == Lightbulb <==> themeNumber == 3
  {
    var name := ThemeDisplayName(themeNumber);
    Badge(name,
          if name == RediscoverSociety then Users
          else if name == TechChangesLife then Lightbulb
          else Sparkles,
          name != UnknownTheme)
  }

  /** One badge per entry of the theme list, in the list's order. */
  function ThemeBadges(theme: seq<int>): (badges: seq<Badge>)
    ensures |badges| == |theme|
    ensures forall i :: 0 <= i < |theme| ==> badges[i] == BadgeFor(theme[i])
  {
    if theme == [] then [] else [BadgeFor(theme[0])] + ThemeBadges(theme[1..])
  }

  /** The first character of the member's name, or nothing when the name is missing or empty. */
  function AvatarLabel(m: Member): (initial: string)
    ensures |initial| <= 1
    ensures initial == [] <==> m.name.None? || m.name.value == ""
    ensures initial != [] ==> initial[0] == m.name.value[0]
  {
    var name := m.name.GetOr("");
    if name == "" then "" else name[..1]
  }

  /** Avatars for the first four members, in order. */
  function Avatars(members: seq<Member>): (labels: seq<string>)
    ensures |labels| == if |members| < MaxAvatars then |members| else MaxAvatars
    ensures forall i :: 0 <= i < |labels| ==> labels[i] == AvatarLabel(members[i])
  {
    var shown := if |members| < MaxAvatars then members else members[..MaxAvatars];
    seq(|shown|, i requires 0 <= i < |shown| => AvatarLabel(shown[i]))
  }

  /** The "+k" badge after the avatars: present exactly when there are more than four members. */
  function OverflowCount(members: seq<Member>): (extra: Option<nat>)
    ensures extra.Some? <==> |members| > MaxAvatars
    ensures extra.Some? ==> extra.value > 0
  {
    if |members| > MaxAvatars then Some(|members| - MaxAvatars) else None
  }

  /** Every member is either drawn as an avatar or counted in the overflow badge. */
  lemma AvatarsAccountForEveryMember(members: seq<Member>)
    ensures |Avatars(members)| + OverflowCount(members).GetOr(0) == |members|
  {
  }

  /** `project.thumbnail || "/placeholder.svg"`: never an empty image source. */
  function ThumbnailSource(p: Project): (src: string)
    ensures src != ""
    ensures p.thumbnail != "" ==> src == p.thumbnail
    ensures p.thumbnail == "" ==> src == Placeholder
  {
    if p.thumbnail != "" then p.thumbnail else Placeholder
  }

  datatype LinkKind = DemoLink | SourceLink | VideoLink

  predicate Present(url: Option<string>) {
    url.Some? && url.value != ""
  }

  /** The external link buttons, in the card's order: demo, source, video. */
  function ExternalLinks(p: Project): (links: seq<LinkKind>)
    ensures DemoLink in links <==> Present(p.demoUrl)
    ensures SourceLink in links <==> Present(p.sourceUrl)
    ensures VideoLink in links <==> Present(p.videoUrl)
    ensures forall i, j :: 0 <= i < j < |links| ==> Rank(links[i]) < Rank(links[j])
  {
    (if Present(p.demoUrl) then [DemoLink] else [])
    + (if Present(p.sourceUrl) then [SourceLink] else [])
    + (if Present(p.videoUrl) then [VideoLink] else [])
  }

  /** Position of a link kind in the card's footer. */
  function Rank(k: LinkKind): nat {
    match k
    case DemoLink => 0
    case SourceLink => 1
    case VideoLink => 2
  }
}
