# ArgenNews dashboard: a Dafny model

ArgenNews is a single-page React dashboard. It asks a generative-AI search
service for the day's news from five Argentine outlets and shows the items
as cards. A row of six buttons filters the cards by outlet.

This project models the page's logic:

- the source filter over the fetched items, with its `'all'` sentinel and
  case-insensitive matching (`App.FilteredNews`);
- the six filter ids (`App.SourcesList`);
- the refresh cycle, as a class `App.Dashboard` that holds the page's five
  state hooks (`news`, `loading`, `error`, `lastUpdated`, `filter`). It has
  one method per step of `loadNews` and a click handler that does nothing
  while loading, because the button is disabled then;
- what the page shows (`App.Render`, `App.SelectGrid`): nine placeholder
  cards while loading, else the visible cards, else the empty-state panel;
  the error banner; the "Actualizado" stamp;
- the badge colour on each card (`NewsCard.SourceBadgeColor`), a
  case-insensitive lookup on the outlet name with a grey default.

Files:

- `types.dfy` (module `Types`): the news item record, the `Newspaper` enum,
  the fetch outcome and the timestamp.
- `text.dfy` (module `Text`): lower-casing of strings.
- `news_card.dfy` (module `NewsCard`): the badge colour lookup.
- `app.dfy` (module `App`): the filter, the page and the `Dashboard` class.
- `scenarios.dfy` (module `Scenarios`): client methods. Each one follows a
  session step by step and checks, from the contracts alone, what the page
  shows.

`loadNews` awaits the fetch, so a refresh is split at the `await`.
`Dashboard.Begin` is the part before the call. `Dashboard.Settle` is the
try, catch and finally arms that run when the call's outcome arrives.
Between the two, other handlers (a filter click) may run. `Dashboard.LoadNews`
is the whole refresh with nothing in between. The mount effect calls
`loadNews` directly (App.tsx:30-33), not through the disabled button; the
initial state is already `loading` (App.tsx:10).

The fetch itself is a parameter: a `FetchOutcome` is either the items the
service returned, in its order, or the error it threw. The time `new Date()`
reads on success is a `Timestamp` parameter too.

Two details of the code that the model keeps as written:

- A failed refresh does not clear the items: `setNews` runs only on the
  success path (App.tsx:20). Once loading ends, the previous items show again
  under the error banner, together with the previous stamp.
  `Scenarios.FailureKeepsPreviousItems` walks through this.
- `publishedAt` is a required string of the item record (types.ts:9); only
  `imageUrl` is optional (types.ts:10).

`toLowerCase` is `Text.Lower`. It maps ASCII `A`-`Z` and the Latin-1
capitals U+00C0..U+00DE (except U+00D7) to their lower-case letters and
keeps every other character. Its contract says it keeps the length, keeps
every non-capital and leaves no capital; `Text.LowerIdempotent` follows.
The filter and state properties use only that `Lower` is a function.
Three things use more:

- `NewsCard.LowerCasedSourceSameColour` relies on idempotence.
- `Scenarios.InfobaeFilter` relies on length preservation to tell
  "Clarín" from "Infobae".
- The badge lemmas about the five outlet names compute `Lower` on those
  names.

## Model

| member | source | states |
|---|---|---|
| `NewsCard.SourceBadgeColor` | components/NewsCard.tsx:10-19 | the lookup is total and always gives a non-empty class string: the default or one of the five outlet colours |
| `NewsCard.OutletKeyColour` | components/NewsCard.tsx:11-16 | a source whose lower-cased form is the k-th case key gets the k-th outlet colour |
| `NewsCard.DefaultIffUnknown` | components/NewsCard.tsx:11-17 | the grey default is given exactly to the sources whose lower-cased form is none of the five keys (both directions) |
| `NewsCard.CaseInsensitive` | components/NewsCard.tsx:11 | two sources that lower-case alike get the same colour |
| `NewsCard.LowerCasedSourceSameColour` | components/NewsCard.tsx:11 | lower-casing a source before the lookup does not change its colour |
| `NewsCard.BadgesDistinct` | components/NewsCard.tsx:12-17 | the five outlet colours are pairwise distinct and all differ from the default |
| `NewsCard.OutletNamesLower` | types.ts:14-18 | each enum outlet name lower-cases to the matching case key of the switch |
| `NewsCard.EnumOutletColours` | components/NewsCard.tsx:12-16 | 'Clarín', 'La Nación', 'Infobae', 'Página/12' and 'Ámbito Financiero' each get their own class string |
| `NewsCard.EnumOutletsDistinct` | types.ts:13-19 | no enum outlet gets the default colour, and two different enum outlets get different colours |
| `Text.Lower` | App.tsx:37 | lower-casing keeps the length, keeps every character that is not a capital, and leaves no capital in the result |
| `Text.LowerIdempotent` | components/NewsCard.tsx:11 | lower-casing an already lower-cased string changes nothing |
| `App.SourceIds` | App.tsx:39-46 | there are six filter ids, `'all'` first, pairwise distinct; every button's id is one of them, and so is every enum outlet name |
| `App.KeepMatching` | App.tsx:37 | every kept item lower-cases alike with the filter, every matching item of the input is kept, nothing else appears, and the result is no longer than the input |
| `App.FilteredNews` | App.tsx:35-37 | under `'all'` the visible list is the item list itself; under any other id every visible item matches and every matching item is visible |
| `App.KeepMatchingSubsequence` | App.tsx:37 | the kept items are a subsequence of the input |
| `App.FilterPreservesOrder` | App.tsx:35-37 | for every filter id, the visible list is a subsequence of the items (order kept) |
| `App.KeepMatchingCounts` | App.tsx:37 | each matching item occurs in the result as often as in the input; any other item does not occur |
| `App.FilterCounts` | App.tsx:37 | under an outlet id, the visible list holds every copy of each matching item and no copy of any other |
| `App.KeepMatchingIdempotent` | App.tsx:37 | keeping the matches of the kept items changes nothing |
| `App.FilterIdempotent` | App.tsx:35-37 | filtering the visible list again with the same id gives the same list |
| `App.KeepMatchingCaseInsensitive` | App.tsx:37 | two filter strings that lower-case alike keep the same items |
| `App.FilterCaseInsensitive` | App.tsx:37 | two outlet ids that lower-case alike show the same items |
| `App.SelectGrid` | App.tsx:126-142 | the grid is 9 placeholders exactly when loading, the visible cards exactly when not loading with visible items, and the empty panel exactly when not loading with none |
| `App.Render` | App.tsx:67-142 | the stamp shows exactly when set and not loading, refresh is enabled exactly when not loading, the banner is the error, the active filter is highlighted, and the grid follows the three-way choice over the filtered items |
| `App.Dashboard.ValidPage` | App.tsx:114-142 | in every valid state the banner is absent or the fixed message, the highlighted filter is one of the six ids, and before the first successful refresh the grid shows only placeholders or the empty panel |
| `App.Dashboard.constructor` | App.tsx:9-13 | the page starts with no items, loading, no error, no stamp and the `'all'` filter, and its invariant holds |
| `App.Dashboard.Begin` | App.tsx:16-17 | starting a refresh sets loading and clears the error; items, stamp and filter are unchanged |
| `App.Dashboard.Succeed` | App.tsx:19-21 | a successful call sets the items to exactly the returned sequence and stamps the time; nothing else changes |
| `App.Dashboard.Fail` | App.tsx:22-24 | a failed call sets the fixed Spanish error message and leaves items and stamp untouched |
| `App.Dashboard.Finish` | App.tsx:25-27 | loading ends, nothing else changes |
| `App.Dashboard.Settle` | App.tsx:18-27 | the pending call settles: on success items and stamp are the call's and there is no error; on failure items and stamp are kept and the error is the fixed message; either way loading ends and the filter is kept |
| `App.Dashboard.LoadNews` | App.tsx:15-28 | a whole refresh ends with loading off and the refresh button enabled; success gives the returned items, the stamp and no banner; failure gives the fixed message and keeps the previous items and stamp |
| `App.Dashboard.ClickRefresh` | App.tsx:72-74 | a click starts a refresh exactly when not loading; while loading it changes nothing |
| `App.Dashboard.SelectFilter` | App.tsx:98-101 | a filter click sets the filter to that button's id, which keeps the filter among the six ids; nothing else changes |
| `Scenarios.InfobaeFilter` | App.tsx:37 | with items from Infobae, Clarín and Infobae, the Infobae filter shows exactly the two Infobae items in their original order |

Every `Dashboard` method also keeps the class invariant `Valid()`. The
filter is one of the six ids. The only error ever set is the fixed message.
Items are present only after a refresh has succeeded and stamped the time.

## Left out

- services/geminiService.ts: the prompt, the response schema, the SDK call,
  `JSON.parse` and the grounding metadata are not modelled. The fetch is a
  `FetchOutcome` parameter. The empty-key check (services/geminiService.ts:8-9)
  is only represented by its outcome, `Threw(MissingApiKey)`.
- A response whose JSON has no `news` field: the service returns `undefined`
  as the items unchecked (services/geminiService.ts:61-65). The model's
  `FetchResult` always holds a sequence, so that case is not represented.
- components/Skeleton.tsx and all markup (header, footer legend, icons,
  Tailwind classes other than the badge colours): static, no logic. A card is
  represented only by its item; its title, summary and link are not.
- `new Date()` and `toLocaleTimeString`: the stamp is an opaque `Timestamp`.
- React's scheduling of state updates, and `console.error`. Only the one
  `await` of a refresh is a point where other handlers can run
  (`Begin`/`Settle`).
- `Text.Lower`: Unicode case mapping outside ASCII and Latin-1 is not
  modelled; such characters are kept as they are.
