# AnimeHub search, list and detail logic in Dafny

This project models the logic of the AnimeHub catalogue front end. That logic
is the part of the React application that is not markup or styling:

- **Navigation-bar search box** (`Navbar`). It mirrors the URL's `search`
  parameter. On every keystroke or clear it edits the query parameters with
  URLSearchParams `set`/`delete`, forces `page=1`, and replaces the current
  history entry with the rebuilt URL. The parameter list, the search text and
  the history stack are fields of a class whose methods update them in place.
- **Query parameters** (`UrlParams`). The WHATWG URL Standard, section 6.2,
  defines URLSearchParams `get`, `set`, `delete` and `toString`. They are
  modelled over an ordered list of name/value pairs. `set` replaces the first
  pair of that name and removes the others, or appends when there is none.
- **Integer text** (`Decimal`). `parseInt(s, 10)` follows section 19.2.5 of
  ECMA-262: leading white space, an optional sign, then the longest run of
  digits, or NaN. `${n}` for an integer is its shortest decimal digits.
- **List page** (`AnimeList`, `Debounce`, `Query`). This covers:
  - page and search state read from the URL, where a NaN page leaves the page
    as it was;
  - the query key `["animeList", page, search]` and the request it fetches;
  - the next-page prefetch decision;
  - the four-way choice of what the content area shows;
  - the page-change and reset handlers;
  - the trailing-edge debounce of the search text, on a discrete millisecond
    clock.
- **Detail page** (`AnimeDetail`). This covers:
  - the spinner / error / content choice;
  - the 300-character synopsis with its Read-more toggle;
  - the English-title, episode and type fallbacks;
  - the relation chips, of which only `anime` entries link to `/anime/<mal_id>`.
- **Route table** (`Routes`). `getRoutes` maps a tree of route records to
  Route elements, nested arrays and nulls. The model flattens that result the
  way the router reads it and appends the two fixed routes `/` and `*`.
- **Rotating card** (`RotatingCard`). A string title longer than 50 characters
  is cut and ends in `...`.

The list page's state follows the code exactly:

- The page read from the URL is not clamped to 1 or more. `?page=0` and
  `?page=-3` give pages 0 and -3. A non-numeric page leaves the page state
  unchanged rather than resetting it to 1.
- The list page's own "Clear Search" (`handleResetSearch`) sets the search to
  "" and the page to 1 but does not rewrite the URL. The URL loses its
  `search` key and gets `page=1` only through the navigation bar: its clear
  button, or typing an empty value into it.
- A page change does not rewrite the URL.
- Both pages compare the query status with `"loading"`. The model's status
  enumeration includes `Loading` besides `Pending`, `Error` and `Success` so
  that those comparisons can be stated. This is a modelling choice: TanStack
  Query v5, whose `keepPreviousData` the list page imports, never reports
  `"loading"`, so under that library only `isLoading` selects the spinner.

## Model

| member | source | states |
|---|---|---|
| Wrappers.TextOr | src/pages/Anime/index.js:120 | `x \|\| fallback` on optional text: a present non-empty text is kept, an absent or empty one gives the fallback |
| Decimal.NatToDecimal | src/pages/Presentation/detail/index.js:266 | the decimal text of a natural number is non-empty and all digits, its digit value is the number, and it starts with "0" only when it is "0" itself |
| Decimal.IntToDecimal | src/pages/Presentation/detail/index.js:266 | `${n}` for an integer is its shortest decimal text: a non-negative one is non-empty digits whose value is n and that start with "0" only when they are "0"; a negative one is "-" followed by digits whose value is -n and that do not start with "0" |
| Decimal.TrimStart | src/pages/Anime/index.js:160 | parseInt's white-space skip: the result is a suffix of the input, every character dropped is StrWhiteSpace and the result does not start with one |
| Decimal.DigitPrefix | src/pages/Anime/index.js:160 | parseInt's digit run: a prefix of the input, all digits, and maximal (the next character is not a digit) |
| Decimal.ParseInt | src/pages/Anime/index.js:160 | parseInt gives a number exactly when the text after its leading white space starts with a digit, or with a sign and then a digit; otherwise NaN; a negative result comes only from a "-" there. ParseIntStopsAtNonDigit (unsigned) and ParseIntSigned (signed) give its value for every text that is not NaN |
| Decimal.ParseSigned | src/pages/Anime/index.js:160 | the same characterisation of NaN for text whose white space is already skipped |
| Decimal.ParseIntStopsAtNonDigit | src/pages/Anime/index.js:160 | white space, digits, then anything that does not start with a digit parses as the digits' value ("  42px" gives 42) |
| Decimal.ParseIntNaN | src/pages/Anime/index.js:160-161 | text whose first non-space character is neither a digit nor a sign, the empty text included, is NaN |
| Decimal.ParseIntBareSign | src/pages/Anime/index.js:160-161 | a sign not followed by a digit is NaN |
| Decimal.ParseIntSigned | src/pages/Anime/index.js:160 | after any leading white space an explicit sign is honoured, for any digit run, leading zeros included, and whatever non-digit text follows: "  -42px" gives -42, "+7 episodes" gives 7, "-007x" gives -7 |
| Decimal.ParseIntRoundTrip | src/pages/Anime/index.js:160 | parseInt reads back the decimal text of every integer, zero and negatives included, whatever non-digit text follows |
| UrlParams.FirstIndex | src/examples/Navbars/DefaultNavbar/index.js:21 | the position of the first pair with the name: it has the name and no earlier pair has |
| UrlParams.Lookup | src/examples/Navbars/DefaultNavbar/index.js:21 | `get`: present exactly when some pair has the name, and then the value of the first such pair |
| UrlParams.DeleteAll | src/examples/Navbars/DefaultNavbar/index.js:49 | `delete`: no pair of the name is left, every other pair is kept, and nothing is added; DeleteAllConcat and DeleteAllAbsent state that order and repeated pairs are kept |
| UrlParams.DeleteAllConcat | src/examples/Navbars/DefaultNavbar/index.js:49 | `delete` works pair by pair: on a concatenation it is `delete` on each part, concatenated, so the kept pairs stay in their order with their repetitions |
| UrlParams.DeleteAllAbsent | src/examples/Navbars/DefaultNavbar/index.js:49 | deleting a name that no pair has leaves the list exactly as it was |
| UrlParams.SetPair | src/examples/Navbars/DefaultNavbar/index.js:45-47 | `set`: afterwards `get` answers the new value; SetPairAppends, SetPairReplacesFirst and SetPairKeepsOthers state the rest of the standard's definition |
| UrlParams.SetPairAppends | src/examples/Navbars/DefaultNavbar/index.js:45-47 | `set` on an absent name appends one pair at the end and keeps the rest as it was |
| UrlParams.SetPairReplacesFirst | src/examples/Navbars/DefaultNavbar/index.js:45-47 | `set` on a present name puts the new value at the first pair's position and removes every later pair of that name |
| UrlParams.SetPairKeepsOthers | src/examples/Navbars/DefaultNavbar/index.js:41-47 | `set` leaves the pairs of every other name, in order, and adds exactly one pair of its own name |
| UrlParams.DeleteAllIdempotent | src/examples/Navbars/DefaultNavbar/index.js:49 | deleting a name twice is deleting it once |
| UrlParams.DeleteAllCommutes | src/examples/Navbars/DefaultNavbar/index.js:49-51 | deleting two names gives the same list in either order |
| UrlParams.LookupIgnoresOtherDeletes | src/examples/Navbars/DefaultNavbar/index.js:49 | deleting one name does not change what `get` returns for another |
| UrlParams.LookupIgnoresOtherSets | src/examples/Navbars/DefaultNavbar/index.js:45-51 | setting one name does not change what `get` returns for another |
| UrlParams.Serialize | src/examples/Navbars/DefaultNavbar/index.js:55-57 | `toString` is empty exactly when there are no pairs |
| UrlParams.SearchParams.constructor | src/examples/Navbars/DefaultNavbar/index.js:42 | `new URLSearchParams(location.search)` holds the location's pairs |
| UrlParams.SearchParams.Get | src/examples/Navbars/DefaultNavbar/index.js:21 | `get` on the object: present exactly when some pair has the name, with the first such pair's value |
| UrlParams.SearchParams.Set | src/examples/Navbars/DefaultNavbar/index.js:45-47 | the object's list becomes the `set` result: `get` gives the new value and every other name's pairs are unchanged |
| UrlParams.SearchParams.Delete | src/examples/Navbars/DefaultNavbar/index.js:49 | the object's list becomes the `delete` result and `get` gives nothing |
| UrlParams.SearchParams.ToString | src/examples/Navbars/DefaultNavbar/index.js:55-56 | `toString` on the object is empty exactly when it holds no pairs |
| Navbar.SearchFromQuery | src/examples/Navbars/DefaultNavbar/index.js:21 | the search value is the first `search` pair's value, or "" when there is none |
| Navbar.Url | src/examples/Navbars/DefaultNavbar/index.js:55-57 | the new URL is the pathname alone when there are no parameters, otherwise the pathname, "?" and the serialized parameters |
| Navbar.SearchEdit | src/examples/Navbars/DefaultNavbar/index.js:44-52 | the parameter edit of any keystroke leaves `page` reading "1" and the list non-empty; SearchEditSetsSearch and SearchEditKeepsOthers state what happens to `search` and to everything else |
| Navbar.SearchEditSetsSearch | src/examples/Navbars/DefaultNavbar/index.js:44-52 | typing a non-empty value makes `search` read as that value; typing "" removes `search` entirely instead of setting it to "" |
| Navbar.SearchEditKeepsOthers | src/examples/Navbars/DefaultNavbar/index.js:41-52 | every pair whose name is neither `search` nor `page` survives a keystroke, with its value and in its order |
| Navbar.EditedUrlHasQuery | src/examples/Navbars/DefaultNavbar/index.js:55-57 | since `page` is always set, the rebuilt URL is always the pathname, "?" and the serialized pairs |
| Navbar.SearchReadsBack | src/examples/Navbars/DefaultNavbar/index.js:19-21 | reading the search back from the edited URL gives exactly the typed value |
| Navbar.DefaultNavbar.ClearButtonShown | src/examples/Navbars/DefaultNavbar/index.js:150-164 | the clear button is offered if and only if the search box is non-empty |
| Navbar.DefaultNavbar.constructor | src/examples/Navbars/DefaultNavbar/index.js:16 | the box starts empty on a non-empty history and nothing has been handed to the parent |
| Navbar.DefaultNavbar.NotifyParent | src/examples/Navbars/DefaultNavbar/index.js:25-29 | the parent's `onChange` receives the value when there is one; the box and the history are untouched |
| Navbar.DefaultNavbar.NavigateReplace | src/examples/Navbars/DefaultNavbar/index.js:58 | `navigate(url, { replace: true })`: the history keeps its length, only its top entry changes, and it becomes the target |
| Navbar.DefaultNavbar.SyncFromLocation | src/examples/Navbars/DefaultNavbar/index.js:19-30 | the box takes the current URL's search value (or "") and the parent receives that same value; the history is unchanged |
| Navbar.DefaultNavbar.HandleSearchChange | src/examples/Navbars/DefaultNavbar/index.js:32-59 | a keystroke puts the value in the box, hands it to the parent, replaces the top history entry with the same path and the edited parameters, and returns pathname + "?" + the serialized parameters |
| Navbar.DefaultNavbar.ClearSearch | src/examples/Navbars/DefaultNavbar/index.js:61-79 | clearing empties the box, hands "" to the parent, and leaves the same history and URL as typing "" |
| Debounce.Mount | src/pages/Anime/index.js:200-206 | on mount the input and the debounced value are the value, nothing has been committed, and a first timer for the value is armed a full delay ahead |
| Debounce.Step | src/pages/Anime/index.js:203-211 | every render or millisecond keeps the invariant: an armed timer carries the latest value and is due within the delay; with none armed, the debounced value has caught up |
| Debounce.QuietTicks | src/pages/Anime/index.js:204-206 | milliseconds that pass before the armed timer is due change nothing but the clock |
| Debounce.SettlesAfterDelay | src/pages/Anime/index.js:203-211 | a full delay without a new value leaves the debounced value equal to the latest value, nothing armed, and exactly one commit if a timer was armed |
| Debounce.BurstHoldsBack | src/pages/Anime/index.js:203-210 | during a burst of changes spaced less than the delay apart nothing is committed, and one timer for the last value is armed a full delay ahead |
| Debounce.OnlyLastValueCommitted | src/pages/Anime/index.js:200-214 | a burst followed by a quiet delay commits exactly one value, the last of the burst |
| Debounce.Debouncer.constructor | src/pages/Anime/index.js:201-206 | the hook's state is the mount state |
| Debounce.Debouncer.Render | src/pages/Anime/index.js:203-211 | a render moves the state by one render step: a changed value cancels the timer and arms a new one, an unchanged value does nothing |
| Debounce.Debouncer.Tick | src/pages/Anime/index.js:204-206 | one millisecond moves the state by one tick step: a timer that comes due commits its value |
| Debounce.Debouncer.Unmount | src/pages/Anime/index.js:208-210 | the cleanup clears the armed timer and changes nothing else |
| AnimeList.PageFromQuery | src/pages/Anime/index.js:160 | a missing or empty `page` parameter reads as page 1; any other value is its text as parseInt reads it |
| AnimeList.PageNotClamped | src/pages/Anime/index.js:160-163 | every integer the URL carries is the page read, zero and negatives included |
| AnimeList.PageNaN | src/pages/Anime/index.js:160-161 | a non-empty `page` value with no digit after its white space and optional sign reads as NaN ("abc", "  abc", "-abc", "+", "   ") |
| AnimeList.KeystrokeStartsAtPageOne | src/pages/Anime/index.js:150-164 | after a URL edit made the way `Navbar` makes it on a keystroke, the list page reads page 1 and the typed search back from the URL |
| AnimeList.ListQueryFor | src/pages/Anime/index.js:169-173 | the cache key names the very page and search that the request fetches, with 24 items per page and a stale time of 5000 ms |
| AnimeList.ListKeysDistinguish | src/pages/Anime/index.js:170 | two list keys are equal exactly when their pages and searches are |
| AnimeList.PrefetchFor | src/pages/Anime/index.js:177-183 | a prefetch happens if and only if the response has a next page; it asks for the next page under the same search, never for the key being shown, and sets no stale time of its own |
| AnimeList.TotalPages | src/pages/Anime/index.js:239 | the page count is `last_visible_page` when it is present and non-zero, otherwise 1; it is never 0 |
| AnimeList.RenderContent | src/pages/Anime/index.js:217-244 | loading, then error, then empty, then populated, each if and only if the earlier ones do not apply; the error retries the current key, the empty view offers "Clear Search" only for a non-empty search, the populated view shows the items and the page |
| AnimeList.AnimeListPage.constructor | src/pages/Anime/index.js:146-147 | the page starts at 1 with no search |
| AnimeList.AnimeListPage.SyncFromUrl | src/pages/Anime/index.js:150-164 | the search follows the URL's search value; the page follows the URL's parsed page, or stays as it was when that is NaN |
| AnimeList.AnimeListPage.HandlePageChange | src/pages/Anime/index.js:186-188 | only the page changes |
| AnimeList.AnimeListPage.HandleSearchChange | src/pages/Anime/index.js:190-192 | only the search text changes |
| AnimeList.AnimeListPage.HandleResetSearch | src/pages/Anime/index.js:194-197 | the search becomes "" and the page 1 |
| AnimeDetail.DetailQueryFor | src/pages/Presentation/detail/index.js:33-37 | the detail key is the detail resource followed by the id, the same id is fetched, and the result stays fresh for 600000 ms |
| AnimeDetail.DetailKeysDistinguish | src/pages/Presentation/detail/index.js:34 | two detail keys are equal exactly when their ids are |
| AnimeDetail.ChooseView | src/pages/Presentation/detail/index.js:49-78 | the spinner if and only if loading (it wins over an error), the error page if and only if errored and not loading, with the message or the fixed fallback, otherwise the content |
| AnimeDetail.SynopsisText | src/pages/Presentation/detail/index.js:309-315 | expanded: the whole synopsis; collapsed: its first 300 characters and "..." when longer, unchanged otherwise, never over 303 characters; no synopsis: the fixed sentence |
| AnimeDetail.ReadMoreButton | src/pages/Presentation/detail/index.js:318-326 | the button exists if and only if the synopsis is longer than 300 characters, labelled by the toggle state |
| AnimeDetail.ToggleInvisibleWithoutButton | src/pages/Presentation/detail/index.js:309-326 | when there is no button, the collapsed and expanded synopsis read the same |
| AnimeDetail.EnglishTitle | src/pages/Presentation/detail/index.js:212-222 | the English title is shown if and only if it is present, non-empty and differs from the title |
| AnimeDetail.EpisodesLabel | src/pages/Presentation/detail/index.js:266 | a non-zero count gives "<n> episodes", a zero or missing one "? episodes" |
| AnimeDetail.EpisodesLabelReadsBack | src/pages/Presentation/detail/index.js:266 | the episode label's leading number parses back to the count it was made from |
| AnimeDetail.TypeLabel | src/pages/Presentation/detail/index.js:265 | the type when present and non-empty, otherwise "Unknown" |
| AnimeDetail.RelationChip | src/pages/Presentation/detail/index.js:800-806 | a chip shows the entry's name, is clickable if and only if the entry is of type "anime", and only then links to "/anime/" and the id |
| AnimeDetail.ChipLinksToEntry | src/pages/Presentation/detail/index.js:805 | the id after "/anime/" in a chip's link parses back to the entry's `mal_id` |
| AnimeDetail.RelationChips | src/pages/Presentation/detail/index.js:794-806 | one row of chips per relation and one chip per entry, in order |
| AnimeDetail.SynopsisToggle.constructor | src/pages/Presentation/detail/index.js:31 | the synopsis starts collapsed |
| AnimeDetail.SynopsisToggle.Press | src/pages/Presentation/detail/index.js:323 | a press negates the state, so two presses restore it |
| Routes.GetRoutes | src/App.js:31-42 | one result per record, in the same order |
| Routes.GetRoute | src/App.js:32-41 | a record with `collapse` becomes an array with one entry per child, even when it has a path; otherwise a path gives its Route and no path gives null |
| Routes.FlattenGetRoutes | src/App.js:31-42 | what the router reads from `getRoutes` is, in tree order, exactly the Routes of the records with a path and no `collapse` |
| Routes.LeavesComeFromPathRecords | src/App.js:33-39 | every registered route comes from a record of the tree that has a path and no `collapse`; a collapsed record is never registered itself |
| Routes.PathRecordsAreRegistered | src/App.js:37-39 | every record of the tree that has a path and no `collapse` is registered |
| Routes.RouteTable | src/App.js:48-51 | the generated routes in tree order, then "/" for the presentation page, then "*" redirecting to "/" |
| RotatingCard.DisplayTitle | src/components/Cards/RotatingCard/RotatingCardFront.js:98-100 | a string title over 50 characters becomes its first 50 characters and "..."; a shorter string and a non-string title are shown as given; a shown string is at most 53 characters |
| RotatingCard.DisplayTitleIdempotent | src/components/Cards/RotatingCard/RotatingCardFront.js:98-100 | displaying an already displayed title changes nothing |

## Left out

- Query strings are neither parsed nor percent-encoded. A location's query is
  given as its list of name/value pairs. `toString` joins `name=value` with
  `&`, without the `application/x-www-form-urlencoded` escaping.
- JavaScript strings are sequences of UTF-16 code units. The model counts
  characters. `substring(0, 300)`, `substring(0, 50)` and `length` therefore
  agree only where no character outside the Basic Multilingual Plane occurs.
- Decimal.ParseIntRoundTrip: integers are unbounded. JavaScript Numbers lose
  precision past 2^53, and "-0" parses to negative zero, which is not
  distinguished from 0 here.
- Decimal.NatToDecimal: JavaScript writes Numbers of 10^21 and above in
  exponent notation. The model always writes plain digits.
- TanStack Query internals are not modelled:
  - request de-duplication and `keepPreviousData`;
  - what the cache does with a query's stale time (the model only records
    the stale time each query sets);
  - actually running the prefetch and `refetch`.
  The model states which key is asked for, which query is prefetched and
  which key the retry button refetches.
- The HTTP service (`src/services/main.service.js`) is not part of this
  model. A list fetch is the abstract request (page, query, limit 24).
- React effect scheduling, `setTimeout` and `clearTimeout` become the
  discrete clock of `Debounce`. A render is an event that carries the hook's
  value, and a tick is one millisecond.
- AnimeList.KeystrokeStartsAtPageOne: the list page renders
  `components/Navbars/DefaultNavbar` (src/pages/Anime/index.js:26, 249),
  which is not part of this model. `Navbar` models
  `examples/Navbars/DefaultNavbar`, the bar of the detail page. The lemma
  therefore assumes that the list page's bar edits the URL the same way.
  That bar's `value` prop is not modelled either.
- Debounce.SettlesAfterDelay: stated for a delay above 0 only. With a zero
  delay the timer still needs one tick to fire.
- Debounce.OnlyLastValueCommitted: stated for a delay above 0 only, for the
  same reason.
- Navbar.DefaultNavbar: the `onChange` prop is reduced to whether one was
  supplied, plus the list of values it received. Its default is a no-op
  function, which counts as supplied. The Enter-key handler only prevents
  the default action and changes no state.
- Floating-point and locale formatting on the detail page is not modelled:
  - the blur amount;
  - the score halved;
  - the member counts with `toFixed`;
  - `toLocaleDateString`.
- Detail-page fallbacks other than the title, type and episode labels in the
  header are not modelled, for example year, status and the sidebar's
  `episodes || "Unknown"`.
- The contents of `src/routes.js` are not part of this model. The route
  tree is a parameter.
- The `exact` prop on generated routes carries no meaning in the router
  version used and is dropped.
- The scroll reset on a path change (`src/App.js:26-29`) is a DOM side
  effect and is left out.
- Presentational components are left out:
  - the list items and the pagination widget (`Information`, `Pagination`);
  - styling objects;
  - the card's icon and description.
- RotatingCard: a title that is not a string (a React node) is represented
  only by an identifier, because it is passed through untouched.
