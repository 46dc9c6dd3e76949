# Boomer — a Dafny model of the app's state and content logic

Boomer ("Plain-English Internet Trends") is a single-screen React Native app
(`App.tsx`). It shows a list of explained internet trends. The list starts as a
bundled set of three records and is replaced by live posts fetched from the
r/OutOfTheLoop listing. Users can search the list, mark favorites, read a detail
screen, and turn a daily 9:00 digest notification on or off. Three small values
survive a restart in the device's key-value store: the onboarding flag, the
favorite ids, and the notification toggle.

This project models the logic behind those screens:

- `Seqs` (`seqs.dfy`) holds the order-preserving `filter` shared by the search
  box, the Favorites tab and favorite removal. Its laws are proved as lemmas:
  which elements are kept and how often, order, concatenation, and agreement.
- `Text` (`text.dfy`) holds the string primitives the app uses: `trim` with the
  ECMAScript whitespace set, `toLowerCase` on ASCII letters, `includes`,
  `slice(0, n)` and `split(/\n+/)`.
- `Trends` (`trends.dfy`) holds the `Trend` record and the bundled list.
- `SearchFilter` (`search.dfy`) is the Search tab's filter.
- `FavoriteList` (`favorites.dfy`) is `toggleFav` and the Favorites tab's
  projection.
- `RedditFeed` (`reddit.dfy`) maps a fetched listing to `Trend` records. The
  fetch itself is an input: either `Failed`, or the listing's children.
- `AppState` (`app.dfy`) models the `App` component as a class. Each `useState`
  cell is a field. The key-value store is a `map` field. Each handler is a
  method that updates the fields it changes. The class invariant `Valid()`
  says three things: the snapshot is never empty, the store holds the kinds of
  value the app writes, and the Detail overlay always has a trend. `Synced()`
  says the in-memory user state is what a restart would read back. Every
  persisting handler preserves it.

Two behaviours of the code are easy to misread:

- Search looks at four fields: title, short summary, long explanation and tags.
  The example sentence, the category and the id are never searched.
- The short summary is bounded by 220 characters only when the trimmed body is
  non-empty. With an empty body it is the title, which has no bound.

## Model

| member | source | states |
|---|---|---|
| Seqs.Filter | App.tsx:414 | `Array.prototype.filter`, as the search list, the favorites tab, `toggleFav` and the feed mapping use it, never lengthens its input and keeps nothing when no element passes the test |
| Seqs.FilterMembers | App.tsx:414 | `filter` keeps exactly the elements that pass the test, each as often as in the input, and every kept element passes |
| Seqs.FilterIsSubsequence | App.tsx:414 | the filtered list keeps the input's relative order |
| Seqs.FilterAppend | App.tsx:210 | filtering `a + b` is filtering `a` then `b` |
| Seqs.FilterKeepsAll | App.tsx:210 | a filter that every element passes returns its input unchanged |
| Seqs.FilterAgree | App.tsx:287 | two tests that agree on every element select the same list |
| Text.LeadingSpace | App.tsx:411 | the length of the longest whitespace prefix: all before it is whitespace, the next character is not |
| Text.TrailingSpaceStart | App.tsx:411 | where the longest whitespace suffix starts: all from it on is whitespace, the character before is not |
| Text.Trim | App.tsx:411 | `trim` leaves no whitespace at either end, and leaves nothing exactly when the input is blank |
| Text.TrimIsInfix | App.tsx:105-106 | `trim` returns a contiguous piece of its input with only whitespace before and after it |
| Text.TrimIdempotent | App.tsx:105 | trimming a trimmed string changes nothing |
| Text.TrimPadded | App.tsx:411 | whitespace padding on either side does not change `trim` |
| Text.TrimLowerCommute | App.tsx:411 | lower-casing then trimming equals trimming then lower-casing |
| Text.TrimStartLower | App.tsx:411 | `trimStart` commutes with lower-casing |
| Text.TrimEndLower | App.tsx:411 | `trimEnd` commutes with lower-casing |
| Text.LowerChar | App.tsx:411 | ASCII capitals map to the small letter 32 code points up, every other character is kept |
| Text.Lower | App.tsx:411 | `toLowerCase` keeps the length and folds each character by `LowerChar` |
| Text.LowerCharKeepsSpace | App.tsx:411 | lower-casing neither creates nor removes whitespace |
| Text.Contains | App.tsx:413 | `includes` finds the empty needle in every string, and finds a needle only in a haystack at least as long |
| Text.ContainsIffOccurs | App.tsx:413 | the left-to-right `includes` scan holds exactly when the needle occurs at some position |
| Text.Take | App.tsx:108 | `slice(0, n)` returns a prefix of length `min(len, n)` |
| Text.LineLength | App.tsx:108 | the length of the first line: no line feed before it, a line feed (or the end) at it |
| Text.SkipNewlines | App.tsx:108 | dropping the run of line feeds never lengthens the text, and shortens it when it starts with one |
| Text.SplitLines | App.tsx:108 | `split(/\n+/)` yields at least one piece, the first is the first line, and no piece contains a line feed |
| Text.SplitLinesRoundTrip | App.tsx:108 | joining the pieces with single line feeds gives the text with each run of line feeds collapsed to one |
| Text.JoinLinesInjective | App.tsx:108 | pieces without line feeds are determined by their join |
| Text.SplitLinesUnique | App.tsx:108 | the split is the only list of line-feed-free pieces whose join is the collapsed text |
| Text.FirstLineNotBlank | App.tsx:108 | a text that starts with a non-space character has a non-blank, non-empty first piece |
| Trends.FallbackWellFormed | App.tsx:53-89 | the bundled list has three trends with distinct ids |
| SearchFilter.Term | App.tsx:411 | the normalised query is empty exactly when the query is blank, and has no whitespace at its ends |
| SearchFilter.Has | App.tsx:412 | the `has` helper: with an empty term it matches exactly the non-empty fields; a match means the term is no longer than the field |
| SearchFilter.Matches | App.tsx:414 | the filter test over title, short summary, long explanation and tags: with an empty term a trend matches exactly when one of those fields is non-empty |
| SearchFilter.Search | App.tsx:410-415 | a blank query shows all data. Otherwise it shows exactly the matching trends, as often as they occur, in data order. Either way the result is a subsequence of the data |
| SearchFilter.SearchIgnoresQueryCase | App.tsx:411 | queries equal after lower-casing give the same results |
| SearchFilter.SearchIgnoresSurroundingSpace | App.tsx:411 | whitespace around the query does not change the results |
| SearchFilter.EmptyFieldNeverMatches | App.tsx:413 | an empty field never matches |
| SearchFilter.UnsearchedFieldsIgnored | App.tsx:414 | the id, example sentence, category and sources never affect a match |
| SearchFilter.HasIffOccurs | App.tsx:413 | a field matches exactly when it is non-empty and the term occurs at some position of its lower-cased text |
| FavoriteList.Toggled | App.tsx:208-210 | toggling an id that is not a favorite appends it. Toggling a favorite removes every copy of it, keeps the order of the rest, and keeps every other id's count. Either way only the toggled id's membership flips |
| FavoriteList.IsFav | App.tsx:208 | `isFav` holds exactly when the id stands at some position of the favorites list |
| FavoriteList.ToggleTwiceRestores | App.tsx:210 | toggling a non-favorite twice restores the exact list |
| FavoriteList.ToggleTwiceSameMembers | App.tsx:210 | toggling any id twice restores which ids are favorites |
| FavoriteList.FavoriteTrends | App.tsx:287 | the Favorites tab shows exactly the snapshot's trends whose id is a favorite, each as often as in the snapshot, in snapshot order |
| FavoriteList.FavoriteTrendsByMembership | App.tsx:287 | the Favorites tab depends only on which ids are favorites, not on their order or repetition |
| FavoriteList.StaleFavoriteShowsNothing | App.tsx:287 | a favorite id that no trend carries adds nothing to the Favorites tab |
| FavoriteList.SingleFavoriteShowsItsTrend | App.tsx:287 | with distinct ids, a single favorite shows exactly its trend, or nothing when no trend carries it |
| RedditFeed.Or | App.tsx:104-106 | JavaScript's "or" on a field is the value when it is present and non-empty, otherwise the fallback |
| RedditFeed.Interpolate | App.tsx:104 | a template literal renders a given string unchanged, and a missing field (`undefined` or `null`) as a non-blank word; the fallback id and the source URL are built this way |
| RedditFeed.FirstNonBlank | App.tsx:108 | `find` of a non-blank piece: none exactly when all are blank, otherwise a non-blank piece with only blank pieces before it |
| RedditFeed.Summary | App.tsx:107-109 | an empty body gives the title as summary |
| RedditFeed.ToTrend | App.tsx:103-120 | id is the first non-empty of id, name and `subreddit_created`, and is never empty. A missing field renders there as "undefined", a `null` one as "null". Title and body are trimmed with "Untitled" and "" as defaults. The long explanation is the body, or the title when the body is empty. Example sentence is empty and category is `Trend`. There is one r/OutOfTheLoop source link, and the flair is the only tag when present |
| RedditFeed.PresentRecords | App.tsx:101-102 | keeps the records of the children that carry a `data` object, in the children's order and one per such child. It is empty exactly when no child carries one |
| RedditFeed.FetchTrends | App.tsx:92-125 | a failed fetch gives `[]`, otherwise one mapped trend per present record, in the children's order |
| RedditFeed.FirstLineFound | App.tsx:108 | for a body starting with a non-space character, the first non-blank piece is its first line |
| RedditFeed.SummaryIsFirstLine | App.tsx:107-109 | a non-empty trimmed body gives as summary its first line cut to 220 characters. It is non-empty, a prefix of the body, and has no line feed |
| RedditFeed.MappedSummary | App.tsx:106-114 | a blank body gives the title as summary and explanation. Otherwise the summary has 1 to 220 characters and is a prefix of the body without a line feed, and the explanation is the body |
| RedditFeed.MappedShape | App.tsx:110-119 | every mapped record has an empty example, category `Trend`, one r/OutOfTheLoop source, at most one tag, a non-empty id and a trimmed title |
| RedditFeed.FetchedTrendShape | App.tsx:100-120 | every fetched trend has those constant fields |
| RedditFeed.FetchNonEmptyIff | App.tsx:99-123 | a fetch gives a non-empty list exactly when it succeeded and some child carried data |
| AppState.ReadText | App.tsx:150-152 | a missing key reads as the empty string |
| AppState.ReadIds | App.tsx:158 | a missing favorites key reads as no favorites |
| AppState.NextSnapshot | App.tsx:163 | an empty live result keeps the current snapshot, a non-empty one replaces it, and a non-empty snapshot stays non-empty |
| AppState.FailedFetchKeepsSnapshot | App.tsx:122-124 | a failed fetch, or one with no data children, leaves the snapshot unchanged |
| AppState.BodyView | App.tsx:247-302 | the tab screen is shown exactly when there is no overlay. The Detail screen is shown exactly when that overlay has a trend, and it shows that trend. The Onboarding and About screens are shown exactly when their overlay is open |
| AppState.App.Screen | App.tsx:247-308 | in a valid state the body is never blank, and the tab bar is shown exactly when the body is a tab screen |
| AppState.App.constructor | App.tsx:137-144 | the initial cells: Home, no overlay, onboarded, no favorites, digest off, the bundled trends |
| AppState.App.Load | App.tsx:147-166 | the mount effect. A missing onboarding flag opens onboarding. A stored favorites list and a stored toggle are restored. The fetch then replaces the snapshot only by a non-empty result. Starting from the initial user state, it ends in sync with the store. Its modifies frame leaves the store, tab, selection and scheduled digests alone |
| AppState.App.RestoreUserState | App.tsx:149-159 | reads the three keys into the cells, changing only those cells |
| AppState.App.BeginFetch | App.tsx:161 | raises the loading indicator |
| AppState.App.ApplyFetch | App.tsx:162-164 | replaces the snapshot by a non-empty fetch result and clears the indicator |
| AppState.App.RefreshTrends | App.tsx:168-173 | the Refresh button: an empty fetch keeps the snapshot, and the indicator ends cleared |
| AppState.App.ToggleNotifications | App.tsx:195-205 | enabling without permission changes nothing. Otherwise exactly one digest is scheduled, or none remain, and "1"/"0" is stored. Store sync is preserved |
| AppState.App.ToggleFav | App.tsx:209-214 | the favorites become `Toggled` of the old list and the new list is stored. Store sync is preserved |
| AppState.App.OpenDetail | App.tsx:217-220 | the Detail screen shows the chosen trend and the tab bar is hidden |
| AppState.App.OpenAbout | App.tsx:297 | the About screen is shown |
| AppState.App.Back | App.tsx:254-262 | offered only on the Detail and About screens; closes the overlay and shows the current tab again with its tab bar |
| AppState.App.PressTab | App.tsx:306-327 | a tab press switches the tab only when the tab bar is shown |
| AppState.App.CompleteOnboarding | App.tsx:222-229 | stores the onboarding flag, closes the overlay and enables the digest when chosen and permitted. Nothing else changes, and store sync is preserved |
| AppState.Mount | App.tsx:136-166 | a mounted app is in sync with the store, shows onboarding exactly when the flag is missing, restores favorites and toggle, and holds the fetched trends or the bundled ones |
| AppState.FreshInstallWithDigest | App.tsx:222-229 | after a fresh install and onboarding with the digest, both keys are stored, one digest is scheduled, and Home is shown |
| AppState.DeniedDigestStaysOff | App.tsx:195-198 | enabling the digest without permission leaves it off and unstored |
| AppState.FavoriteSurvivesRestart | App.tsx:209-212 | a favorite set before a restart is restored and is the only trend on the Favorites tab |

## Left out

- Rendering: JSX, styles, icons, list layout and the Home list. The Home list shows the snapshot as it is.
- The HTTP request, its status check, JSON decoding and the `limit` parameter. A fetch is given as its outcome. Every path into the `catch` is `Failed`.
- `String(...)` and template literals applied to numbers or booleans. A record field is missing, `null` or a string. The numeric `created` is given as the text its number renders to. A numeric or boolean id, name, title, body, permalink or flair is not modelled.
- Storage I/O is a map updated in place. Read failures are not modelled: a rejected `getItem` rejects the `Promise.all` of the mount effect, which then stops before the fetch (App.tsx:149-162). Write failures and the asynchronous ordering of `getItem`/`setItem` are not modelled either.
- The JSON encoding of the favorites array is abstracted as an `IdList` value. Malformed stored text, which would make `JSON.parse` throw, cannot be expressed.
- Notifications: the permission dialog is a boolean input (granted or iOS-provisional). The notification content and the daily 9:00 trigger are not modelled. Scheduling is tracked only as the number of pending digests.
- `Alert`, haptic feedback, the web browser opened by source links and the About links. These are side effects with no effect on app state.
- Concurrency: every handler runs to completion before the next starts. Overlapping refreshes, user actions during the mount effect and stale closures over `favorites` are not modelled.
- Text.Lower: folds ASCII letters only, whereas `toLowerCase` folds all of Unicode.
- Text.Take: counts characters where `slice` counts UTF-16 code units.
- The onboarding screen's local switch (default on) is the `enableDaily` argument of `CompleteOnboarding`.
- The Search tab's local query text is the argument `q` of `Search`.
