# Hackathon showcase site: listing, leaderboard and voting rules in Dafny

This project models the rules underneath a small hackathon showcase site: the
paginated project listing of the home page, the project card, the leaderboard
statistics, the `project_votes` vote table with its read / increment / ranking
functions (server-side and browser-side variants), the vote button's state
machine with its local-storage memory and IP-lookup fallback, and the
`/api/votes` endpoint.

Modules, one per source file:

- `Numerals` (numerals.dfy): `String(n)` for integer ids, JavaScript `BigInt(text)`, and the
  database's text-to-bigint cast; `BigInt` and the cast read back what `String(n)` writes.
- `Wrappers` (wrappers.dfy): `Option` and map lookup.
- `ProjectCard` (project_card.dfy): components/project-card.tsx.
- `HomePage` (home_page.dfy): app/page.tsx. `getPageNumbers` is a method with its two loops,
  proved equal to the function `PageNumbers`; everything else there is pure.
- `Leaderboard` (leaderboard.dfy): app/leaderboard/page.tsx.
- `VoteStore` (vote_store.dfy): lib/supabase.ts. The remote `project_votes` table is the class
  `VoteTable`: a map from project id to count, plus the order the store keeps its rows in.
- `ClientVotes` (client_votes.dfy): lib/supabase-client.ts, over the same `VoteTable`.
- `VoteButtonWidget` (vote_button.dfy): components/vote-button.tsx. The class `VoteButton`
  holds the component state, and the class `LocalStore` holds the `voted_projects` list.
- `VotesRoute` (votes_route.dfy): app/api/votes/route.ts.

How the outside world is represented:

- Whether a request to the store fails is a boolean parameter of each operation:
  `readFails`, `writeFails` or `queryFails`.
- A "no row" answer is an id missing from the map.
- The three IP services' answers are a list of `IpReply` values, in service order.
- `checkIPVoted` and `incrementVoteWithIP` are function-valued parameters. They are called by
  the button, but the source does not define them.
- The joined `project` table is a map passed to `GetVoteRankings`.

Modelling choices the code leaves open:

- `project_id` is taken to be a bigint column with one record per project.
- An insert for an id that already has a record is therefore refused by the store.
- The browser-side functions pass the id as text, so the store's cast decides which record it
  names. Text the cast rejects fails like any other store error.
- `incrementVote` ignores the error of its first read. A failed read therefore leads to the
  insert branch, and that insert fails when a record already exists.

Two behaviours of the code that a reader might not expect:

- `GET /api/votes` never answers 500 for a store failure. `getProjectVotes` swallows every
  store error and returns 0, so the handler answers 200 with 0 votes. Only an id that `BigInt`
  rejects gives 500.
- Near the last page, `getPageNumbers` shows fewer than five buttons. For example, on page 10
  of 10 it shows [8, 9, 10], because the window is not shifted back. `WindowNearTheEnd` states this.

## Model

| member | source | states |
|---|---|---|
| Numerals.IntToString | app/page.tsx:92 | the decimal text of an id: non-empty, a leading minus exactly for negatives, digits otherwise |
| Numerals.ParseIntToString | components/vote-button.tsx:15-17 | `BigInt` and the store's cast both read the text `String(n)` produces back as n |
| Numerals.IntToStringInjective | app/page.tsx:92 | distinct ids give distinct id strings |
| Numerals.CastBigInt | lib/supabase-client.ts:19 | the store's cast agrees with `BigInt` wherever it succeeds and on all non-blank text |
| ProjectCard.ThemeDisplayName | components/project-card.tsx:49-56 | 1, 2, 3 map to the three theme names; exactly the other numbers give the unknown theme |
| ProjectCard.BadgeFor | components/project-card.tsx:36-46 | a badge carries the theme's name, the Users/Lightbulb icon exactly for themes 2/3 (Sparkles otherwise) and a colour style exactly for known themes |
| ProjectCard.ThemeBadges | components/project-card.tsx:84-97 | one badge per theme entry, in the same order |
| ProjectCard.AvatarLabel | components/project-card.tsx:121 | at most one character; empty exactly when the name is missing or empty, else the name's first character |
| ProjectCard.Avatars | components/project-card.tsx:119-123 | min(4, member count) avatars, for the first members in order |
| ProjectCard.OverflowCount | components/project-card.tsx:124-128 | the "+k" badge exists exactly when there are more than four members, and then k > 0 |
| ProjectCard.AvatarsAccountForEveryMember | components/project-card.tsx:119-128 | shown avatars plus the overflow number equal the member count |
| ProjectCard.ThumbnailSource | components/project-card.tsx:77 | never empty; the thumbnail when non-empty, else the placeholder |
| ProjectCard.ExternalLinks | components/project-card.tsx:148-170 | demo, source and video links appear exactly when their URL is present, in that order |
| HomePage.ToCard | app/page.tsx:91-102 | the id is `String(p.id)` and parses back to the row's id; the description falls back to ""; an array theme is kept, anything else becomes a one-element list (null gives [0]); missing members become []; a missing thumbnail becomes the placeholder; URLs are kept |
| HomePage.ToCards | app/page.tsx:91-102 | one card per row, in row order |
| HomePage.AfterFetch | app/page.tsx:78-110 | an error leaves the list unchanged; null data gives []; otherwise the mapped rows |
| HomePage.CardIdsDistinct | app/page.tsx:91-92 | rows with distinct ids give cards with distinct ids |
| HomePage.TotalPages | app/page.tsx:165 | the least page count whose pages of 9 hold every project (the ceiling of n/9) |
| HomePage.PageNumbers | app/page.tsx:178-196 | with at most 5 pages, exactly 1..total; otherwise at most 5 consecutive ascending pages from max(1, page-2) to min(total, start+4); always within 1..total; contains the current page when it is in range |
| HomePage.GetPageNumbers | app/page.tsx:178-196 | the two loops build exactly `PageNumbers` |
| HomePage.WindowNearTheEnd | app/page.tsx:186-193 | with more than 5 pages the window has at least 3 buttons, and exactly 3 on the last page |
| HomePage.PageItemsIsPageSlice | app/page.tsx:113-117 | the prefix slice followed by the page slice is the page's own slice: at most 9 items, non-empty on every existing page |
| HomePage.PagesCoverAllProjects | app/page.tsx:828 | the pages 1..total, concatenated, are exactly the project list |
| HomePage.Press | app/page.tsx:834-873 | previous goes to page-1 and next to page+1, each exactly when it is enabled (not page 1, not the last page); a shown page button goes to its page; without controls nothing changes; any control keeps the page within 1..total |
| HomePage.PagesStayInRange | app/page.tsx:836-868 | any sequence of clicks keeps the current page within 1..total |
| HomePage.ToggleSection | app/page.tsx:62-68 | at most one section is open; the toggled section is open exactly when it was closed; no other section is open |
| HomePage.ToggleTwiceClosesAll | app/page.tsx:62-68 | toggling a closed section twice leaves every section closed |
| Leaderboard.ThemeName | app/leaderboard/page.tsx:13-23 | 1, 2, 3 map to the three fixed names; any other n gives "主题" followed by n |
| Leaderboard.ThemeNameInjective | app/leaderboard/page.tsx:23 | different theme numbers never get the same name |
| Leaderboard.ThemeDisplayName | app/leaderboard/page.tsx:20-27 | unknown theme for an empty list or a non-array; one name for one theme; otherwise the first name, ", ", then the rest, in input order |
| Leaderboard.FormatRanking | app/leaderboard/page.tsx:66-73 | id and votes are kept; the project is absent exactly when the source row has none, and otherwise its fields are copied |
| Leaderboard.FormatRankings | app/leaderboard/page.tsx:65-74 | one reshaped row per fetched row, same order |
| Leaderboard.TotalIsTableTotal | app/leaderboard/page.tsx:163 | the total-votes figure equals the sum of counts over every record of the table |
| Leaderboard.TopVotes | app/leaderboard/page.tsx:169 | 0 for no rankings, else the first row's votes |
| Leaderboard.TopVotesIsHighest | app/leaderboard/page.tsx:169 | on rankings in vote order, the top-votes figure is at least every row's votes and is the first row's |
| Leaderboard.RankTiers | app/leaderboard/page.tsx:94-106 | places 0, 1, 2 get three distinct icons and highlights; every later place gets the same default; the default icon goes with the default highlight |
| Leaderboard.DisplayTitle | app/leaderboard/page.tsx:208 | never empty; the project title, or "项目 <id>" when the project or its title is missing |
| Leaderboard.DisplayTeam | app/leaderboard/page.tsx:211 | never empty; the team name, or the unknown team |
| Leaderboard.RowThemeBadges | app/leaderboard/page.tsx:214-231 | one badge per entry of an array theme (none for an empty array); one unknown-theme badge otherwise |
| Leaderboard.DisplayNameUnknownIff | app/leaderboard/page.tsx:20-27 | the display name reads as the unknown theme exactly when the theme is not an array or is empty: no theme number is ever named like it |
| Leaderboard.UnknownBadgeIff | app/leaderboard/page.tsx:214-231 | the unknown-theme badge appears exactly when the row's project or its theme array is missing |
| Leaderboard.FirstPlaceId | app/leaderboard/page.tsx:259 | the first-place link goes to the leader's id, or to project 1 when there is no leader or its id is 0 |
| VoteStore.AfterIncrement | lib/supabase.ts:35-56 | an increment adds the id if absent, raises its count by one and leaves every other record as it was |
| VoteStore.IncrementTimesCounts | lib/supabase.ts:27-59 | n increments raise the id's count by n and change no other count |
| VoteStore.SortByVotes | lib/supabase.ts:75 | the rows ordered by votes, highest first, as a permutation of the input |
| VoteStore.InsertByVotes | lib/supabase.ts:75 | inserting a row into an ordered list keeps it ordered and adds exactly that row |
| VoteStore.VoteTable.GetProjectVotes | lib/supabase.ts:11-24 | the stored count when the record exists and the read succeeds; 0 without a record or on error |
| VoteStore.VoteTable.IncrementVote | lib/supabase.ts:27-59 | success exactly when the write succeeds (and the ignored read error does not force an insert over an existing record); on success old+1 or a new record of 1, other records untouched; on failure the table is unchanged |
| VoteStore.VoteTable.GetVoteRankings | lib/supabase.ts:62-83 | [] on error; otherwise every record exactly once, highest votes first, each with its joined project when one exists |
| VoteStore.SequentialIncrements | scripts/test-vote.js:29-58 | from no record, n successful increments make the count read back n |
| ClientVotes.GetProjectVotes | lib/supabase-client.ts:15-28 | the count of the record the id text names; 0 when the text is not an id, the read fails or there is no record |
| ClientVotes.IncrementVote | lib/supabase-client.ts:31-65 | as the server-side increment on the record the text names, with a new record appended to the row order; false with the table unchanged when the text is not an id or a write fails |
| ClientVotes.GetVoteRankings | lib/supabase-client.ts:68-81 | [] on error; otherwise every (project_id, votes) pair once, highest votes first |
| VoteButtonWidget.FirstIp | components/vote-button.tsx:90-103 | the address from the first service in list order that yields one; "unknown" when none does |
| VoteButtonWidget.GetUserIP | components/vote-button.tsx:81-108 | the loop with early return computes exactly `FirstIp` |
| VoteButtonWidget.Mount | components/vote-button.tsx:15-29 | no state at all exactly when `BigInt` rejects the id; otherwise a fresh button, loading, not voted, with 0 votes |
| VoteButtonWidget.MountedView | components/vote-button.tsx:20-24 | the invalid-project view appears exactly when there is no button state; otherwise the button's own view |
| VoteButtonWidget.VoteButton.View | components/vote-button.tsx:176-202 | loading while loading; afterwards shows the votes and the voted flag, and is disabled exactly when voting or voted |
| VoteButtonWidget.VoteButton.LoadVotes | components/vote-button.tsx:37-44 | the count shown is what the server-side read returns; flags untouched |
| VoteButtonWidget.VoteButton.CheckVoteStatus | components/vote-button.tsx:46-78 | a remembered id means voted, with the list unchanged; otherwise a positive IP check appends the id and marks voted, and a negative or failed check leaves it unvoted; loading ends; afterwards voted exactly when the list holds the id |
| VoteButtonWidget.VoteButton.HandleVote | components/vote-button.tsx:110-174 | nothing changes once voted; an IP that already voted marks voted and adds the id only if absent; a successful increment appends the id, adds one vote and marks voted; a failure changes nothing; voting ends; keeps voted-iff-remembered and a duplicate-free list |
| VoteButtonWidget.VoteWithoutIpHelpers | components/vote-button.tsx:46-174 | with the IP helpers missing from the store module, both helper calls throw: a fresh button checking and voting ends with 0 votes, not voted and nothing remembered |
| VoteButtonWidget.VoteOnce | components/vote-button.tsx:147-155 | a fresh browser voting twice for project 7 records one vote, remembers "7" once, and ends disabled |
| VotesRoute.BigIntOf | app/api/votes/route.ts:29 | integral numbers convert to themselves, text as `BigInt` parses it; missing, null and fractional values throw |
| VotesRoute.Get | app/api/votes/route.ts:4-19 | 400 without a non-empty id; 500 when `BigInt` rejects it; otherwise 200 with the value `getProjectVotes` reads; 200 exactly in that case |
| VotesRoute.Post | app/api/votes/route.ts:21-40 | 500 for an unreadable body; 400 for a falsy id; 500 when `BigInt` rejects it or the increment fails, with the table unchanged; otherwise exactly one increment (a new record joins the row order) and 200 with the count read back |
| VotesRoute.Project42Read | app/api/votes/route.ts:12-15 | GET for project 42 without a record answers 200 with 0 votes |
| VotesRoute.Project42TwoPosts | app/api/votes/route.ts:29-33 | two POSTs for project 42 answer 1 and then 2 votes, because there is no duplicate check |

## Left out

- Rendering, CSS classes, icons as components, animations, the section observer, scrolling, the
  timeline hover state and toasts: presentation only.
- The store's SDK, the network and PostgREST error codes. Each request's success is a parameter;
  "no row" is an id missing from the map.
- Lost updates between concurrent read-then-write increments: every operation is modelled as
  one sequential step.
- `checkIPVoted` and `incrementVoteWithIP`: `voteFunctions` in lib/supabase.ts does not define
  them (see "## Findings"). They are parameters, so the button can be modelled both as written
  (every call throws) and with working helpers. Their effect on the table and on a set of IPs is
  not modelled, so `HandleVote` does not touch the `VoteTable`.
- Real requests to the IP services: each service's answer is an `IpReply` argument.
- `BigInt` details beyond signed decimal text. Not modelled: `0x`/`0o`/`0b` prefixes, white space
  other than space, tab, CR and LF, and `projectId` values that are arrays or objects.
- The 64-bit range of the `project_id` column: ids are unbounded integers.
- A malformed `voted_projects` entry in local storage (`JSON.parse` throwing): the list is
  always a list of strings.
- Vote counts other than integers (null or NaN read through `|| 0`): counts are integers.
- `Math.ceil` on floating point: `TotalPages` is the exact integer ceiling.
- A `theme` column holding text: `Number(text)` and NaN are not modelled. A non-array theme is a
  number or null.
- ProjectCard.AvatarLabel: takes the first Unicode character of the name, while `charAt(0)`
  takes the first UTF-16 code unit; the two differ for a name that starts outside the Basic
  Multilingual Plane, since strings here are sequences of Unicode scalar values.
- The stale `votes` captured by `handleVote`'s closure: the model adds one to the current count.
- The project card's own `loadVotes` (`getProjectVotes(Number(project.id))`). It is the same read
  as `VoteTable.GetProjectVotes` and is not repeated.
- The leaderboard's loading and refreshing flags, and its try/catch around loading: the
  ranking functions never throw.
- app/layout.tsx, app/api/leaderboard/route.ts, app/project/[id]/page.tsx and scripts/test-vote.js
  are not part of this model; the last is only cited for the repeated-increment pattern.

## Findings

| source | as written | input that shows it | evidently intended | confidence | as-written member | corrected member |
|---|---|---|---|---|---|---|
| components/vote-button.tsx:60 | `voteFunctions.checkIPVoted(...)` and `voteFunctions.incrementVoteWithIP(...)` (lines 60, 126, 145) call members that `voteFunctions` (lib/supabase.ts:9-83) does not have, so each call throws a TypeError that the surrounding `catch` absorbs | a fresh browser pressing the vote button for project 7 | the IP check answers and a successful increment records the vote | not executed; medium (the helpers may exist in a version of lib/supabase.ts outside this model) | VoteButtonWidget.VoteWithoutIpHelpers | VoteButtonWidget.VoteOnce |
