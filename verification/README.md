# Physician Contracts Hub — dashboard core in Dafny

This project models the logic of the single React component of the
Physician Contracts Hub dashboard (`src/App.tsx`). The dashboard shows a
feed of physician-compensation news articles. The user narrows the feed by
a free-text query and by one tag from a fixed taxonomy. Two buttons
(Ingest, Send Weekly) run slow administrative actions, and a toast
notification reports their results.

The model has six modules:

- `Strings` (`strings.dfy`) covers the JavaScript string operations the
  component uses:
  - `toLowerCase`, for ASCII letters;
  - `includes`;
  - `trim`, with the exact ECMAScript whitespace set;
  - `split` on one character;
  - the decimal text of a number in a template literal.
- `Seqs` (`seqs.dfy`) is `Array.prototype.filter` on sequences, together
  with what it means for a result to be an order-preserving selection of
  its input.
- `Taxonomy` (`taxonomy.dfy`) holds the nine filter chips and the chip
  toggle.
- `Feed` (`feed.dfy`) holds the `Article` record, the query and tag filter
  run by `fetchArticles`, and the five built-in articles.
- `Chips` (`chips.dfy`) covers the tag chips rendered under each article:
  the raw tags text split at commas, each piece trimmed.
- `Dashboard` (`dashboard.dfy`) has the class `App`, which holds the
  component's state: `query`, `selectedTag`, `loading`, `articles`,
  `stats`, `showNotification` and `notificationMessage`. It also holds two
  explicit queues:
  - the pending 4000 ms hide timers (`hides`, identified by the number of
    the toast that scheduled them);
  - the Ingest and Send Weekly presses whose 1500 ms delay has not settled
    (`awaiting`, each with the values its closure captured).

  Every handler is a method whose `ensures` states the whole new state.
  `App.Valid` is the invariant every handler keeps:
  - the spinner never runs without an unsettled press;
  - the selected tag is empty or a chip;
  - the pending hides are ordered, the newest belongs to the newest toast,
    and a visible toast has a hide pending.

  `App.Serial` is the stronger invariant the press handlers keep when every
  control that fetches is disabled while busy: the spinner runs exactly
  while one press is unsettled, and never more than one is.

The module ends with runs of the dashboard, each starting from the state
the mount effect leaves (`MountedApp`: the whole feed listed, the stats
snapshot, nothing pending) and returning the observable result.

## Model

| member | source | states |
|---|---|---|
| Strings.LowerChar | src/App.tsx:115-117 | an ASCII capital maps to its small letter (code point + 32); every other character is unchanged; no result is a capital |
| Strings.Lower | src/App.tsx:115-117 | `toLowerCase` keeps the length and lower-cases position by position |
| Strings.LowerIdempotent | src/App.tsx:115-117 | lower-casing twice equals lower-casing once |
| Strings.NotContainsByChar | src/App.tsx:121 | `includes` is false when the text lacks a character of the searched text |
| Strings.ContainsTransitive | src/App.tsx:121 | an occurrence inside an occurrence is an occurrence |
| Strings.Trim | src/App.tsx:359 | `trim` leaves no whitespace at either end, keeps only characters of its input, and is empty exactly when the input is all whitespace |
| Strings.TrimSlice | src/App.tsx:359 | what `trim` keeps is one contiguous slice of the input, and everything dropped on either side is whitespace |
| Strings.TrimOccurs | src/App.tsx:359 | the trimmed text occurs in the untrimmed text |
| Strings.TrimIdempotent | src/App.tsx:359 | trimming twice equals trimming once |
| Strings.Split | src/App.tsx:354 | `split(',')` gives one piece per comma plus one, no piece holds a comma, and joining the pieces with commas gives the text back |
| Strings.SplitJoin | src/App.tsx:354 | splitting the comma-join of comma-free pieces gives the pieces back |
| Strings.JoinHasParts | src/App.tsx:354 | every piece of a split occurs in the text it came from |
| Strings.Decimal | src/App.tsx:147 | the `${n}` text of a count is non-empty, all digits, with no leading zero unless the count is 0 |
| Strings.DecimalRoundTrip | src/App.tsx:147 | reading the decimal text back gives the count |
| Seqs.Filter | src/App.tsx:114 | `filter` never lengthens its input |
| Seqs.FilterMembers | src/App.tsx:114-121 | `filter` keeps exactly the elements that satisfy the predicate |
| Seqs.FilterSelects | src/App.tsx:114-121 | the kept elements are exactly the positions whose element satisfies the predicate, listed in increasing order |
| Seqs.FilterIsSubsequence | src/App.tsx:114-121 | every filter result is an order-preserving subsequence of its input |
| Seqs.FilterFuse | src/App.tsx:112-122 | two filters in a row equal one filter by the conjunction |
| Seqs.FilterCommute | src/App.tsx:112-122 | the order of two filters does not matter |
| Seqs.FilterAppend | src/App.tsx:114-121 | filter distributes over concatenation |
| Taxonomy.AvailableTagsDistinct | src/App.tsx:40 | the taxonomy has nine distinct, non-empty labels |
| Taxonomy.Toggle | src/App.tsx:165 | the new selection is empty or the clicked tag; for a non-empty tag, it is the clicked tag exactly when that tag was not already selected |
| Taxonomy.ToggleTwice | src/App.tsx:165 | clicking the same chip twice, from no selection or from that chip, returns to the start |
| Taxonomy.ToggleKeepsTaxonomy | src/App.tsx:165 | clicking chips keeps the selection empty or inside the taxonomy |
| Feed.ByQuery | src/App.tsx:113-119 | with a non-empty query, an article is kept exactly when the lower-cased query occurs in its lower-cased title, summary or tags; the empty query keeps all |
| Feed.ByTag | src/App.tsx:120-122 | with a selected tag, an article is kept exactly when its raw tags text contains the tag (case-sensitive substring); no tag keeps all |
| Feed.Visible | src/App.tsx:112-122 | an article is shown exactly when it passes both active tests (soundness and completeness), and no more articles are shown than given |
| Feed.VisibleIdentity | src/App.tsx:112-122 | with an empty query and no tag, the shown list is the input list |
| Feed.VisibleSelects | src/App.tsx:112-122 | the shown list consists of exactly the input positions whose article passes both tests, in their original order |
| Feed.VisiblePreservesOrder | src/App.tsx:112-122 | the shown list is a subsequence of the input |
| Feed.VisibleTagFirst | src/App.tsx:112-122 | applying the tag test before the query test shows the same list |
| Feed.VisibleIgnoresQueryCase | src/App.tsx:113-118 | the shown list does not change when the query is lower-cased first |
| Feed.MockTagLegal | src/App.tsx:59-122 | on the built-in feed, tag `Legal` shows only article 2 |
| Feed.MockTagCompensation | src/App.tsx:59-122 | on the built-in feed, tag `Compensation` shows articles 1, 3, 4 and 5, in that order |
| Feed.MockTagCaseSensitive | src/App.tsx:59-122 | on the built-in feed, tag `LEGAL` shows nothing: the tag test is case-sensitive |
| Chips.TagChips | src/App.tsx:352-361 | empty tags give no chips; otherwise there is one chip per comma plus one, and every chip is trimmed and comma-free |
| Chips.ChipsOfJoin | src/App.tsx:354-359 | the chips of a comma-joined list are its trimmed pieces |
| Chips.ChipsRoundTrip | src/App.tsx:354-359 | trimmed, comma-free chips written out with commas come back unchanged |
| Chips.ChipMatchesTag | src/App.tsx:121 | every chip shown on an article, selected as the tag, keeps that article |
| Chips.SubstringIsNotChip | src/App.tsx:121 | the converse fails: the chip `Contract`, which is in the taxonomy, keeps an article tagged `Contractor Pay` whose only chip is `Contractor Pay` |
| Dashboard.ReportSentNames | src/App.tsx:147 | the report toast carries the decimal subscriber count between its fixed prefix and suffix |
| Dashboard.ReportSentInjective | src/App.tsx:147 | different subscriber counts give different report toasts |
| Dashboard.MessageTellsOutcome | src/App.tsx:131-152 | every toast differs between success and failure |
| Dashboard.App.constructor | src/App.tsx:27-38 | the initial state: empty query and tag, no spinner, no articles, stats 0/0/0/`Contract`, no toast, no timers, no pending press |
| Dashboard.App.Fetch | src/App.tsx:56-128 | spinner off on both exit paths; on success the list is the filter of the built list by the query and tag its closure sees; on failure the list is unchanged; nothing else changes |
| Dashboard.App.Mount | src/App.tsx:42-54 | a fetch, then the stats snapshot 247/18/156/`Compensation` |
| Dashboard.App.SetQuery | src/App.tsx:263 | typing changes only the query |
| Dashboard.App.Search | src/App.tsx:160-162 | a fetch with the current query and tag; the spinner is off afterwards even when a press is pending |
| Dashboard.App.SearchGuarded | src/App.tsx:269-274 | Search disabled while busy: a press while the spinner runs changes nothing; otherwise it fetches with the current query and tag; `Serial` is kept |
| Dashboard.App.HandleTagFilterAsWritten | src/App.tsx:164-167 | the selection toggles, but the list is filtered with the previous selection |
| Dashboard.App.HandleTagFilter | src/App.tsx:164-167 | the selection toggles and the list is filtered with the new selection |
| Dashboard.App.ClearAsWritten | src/App.tsx:295 | the selection is emptied, but the list is filtered with the old tag |
| Dashboard.App.Clear | src/App.tsx:295 | the selection is emptied and only the query filters the list |
| Dashboard.App.ShowNotif | src/App.tsx:154-158 | the toast shows the message and is visible; one more hide is queued; earlier hides stay queued |
| Dashboard.App.ShowNotifCancelling | src/App.tsx:154-158 | the toast shows the message and is visible, and the only pending hide is the new toast's own |
| Dashboard.App.Expire | src/App.tsx:157 | the oldest hide makes the toast invisible and keeps its text; when another hide is pending, the one that fired belonged to an older toast; when it was the only one, it was the shown toast's own |
| Dashboard.App.RunIngest | src/App.tsx:131-134 | while busy, a press does nothing; otherwise the spinner goes on and the press waits, remembering the query and tag; `Serial` is kept |
| Dashboard.App.SendReport | src/App.tsx:143-146 | while busy, a press does nothing; otherwise the spinner goes on and the press waits, remembering the subscriber count; `Serial` is kept |
| Dashboard.App.Resume | src/App.tsx:131-152 | the oldest press settles: its success or failure toast is posted, a successful ingest re-fetches with what it remembered, and the spinner is off on every path; `Serial` is kept |
| Dashboard.MountShowsFeed | src/App.tsx:42-45 | mounting shows the whole feed and the stats snapshot, with the spinner off |
| Dashboard.PressWhileBusy | src/App.tsx:194-204 | Send Weekly pressed during a pending ingest changes nothing |
| Dashboard.IngestSucceeds | src/App.tsx:131-141 | a successful ingest shows its toast, refreshes the list and stops the spinner |
| Dashboard.IngestFails | src/App.tsx:137-140 | after mounting, a failed ingest shows the failure toast, keeps the mounted feed and stops the spinner |
| Dashboard.ReportNamesSubscribers | src/App.tsx:143-152 | after mounting, the report toast names 156 subscribers, or reports failure; the spinner stops either way |
| Dashboard.SearchReenablesIngest | src/App.tsx:160-162 | a search during a pending ingest turns the spinner off, and a second ingest can start |
| Dashboard.SearchKeepsIngestBusy | src/App.tsx:269-274 | with Search disabled while busy, a search during a pending ingest leaves the spinner on and a second ingest press is refused |
| Dashboard.EarlyHide | src/App.tsx:154-158 | two toasts, then the first hide: the second toast is hidden, its text kept, its own hide still pending |
| Dashboard.NoEarlyHide | src/App.tsx:154-158 | with a cancelling `showNotif`, two toasts leave the second visible with only its own hide pending |
| Dashboard.ChipTwiceAsWritten | src/App.tsx:164-167 | as written, clicking `RVU` twice ends with no selection, but the list is still filtered by `RVU`, so whenever some article lacks that tag the whole feed is not shown |
| Dashboard.ChipTwice | src/App.tsx:164-167 | with the corrected handler, clicking `RVU` twice ends with no selection and the whole feed |
| Dashboard.LegalClickAsWritten | src/App.tsx:164-167 | as written, clicking `Legal` highlights the chip but still lists all five built-in articles |
| Dashboard.LegalClick | src/App.tsx:164-167 | clicking `Legal` lists only the non-compete article |
| Dashboard.ClearAfterLegalAsWritten | src/App.tsx:295 | as written, clicking `Legal` and then Clear empties the selection but lists only the `Legal` article |
| Dashboard.ClearAfterChip | src/App.tsx:295 | Clear after any chip restores the whole feed |

## Findings

| source | as written | input that shows it | evidently intended | confidence | as-written member | corrected member |
|---|---|---|---|---|---|---|
| src/App.tsx:164-167 | `setTimeout(fetchArticles, 0)` runs the `fetchArticles` of the render in which the chip was clicked, so it filters with the previous `selectedTag` | fresh dashboard, click `Legal`: the chip is highlighted and all five articles are listed | the list is filtered by the newly selected tag (only article 2) | high; not executed | Dashboard.LegalClickAsWritten | Dashboard.LegalClick |
| src/App.tsx:164-167 | the same stale `fetchArticles` runs when the selected chip is clicked again to clear it, so it still filters by that chip | click `RVU` twice: no chip is selected, yet every article without `RVU` stays hidden | the whole feed is listed again | high; not executed | Dashboard.ChipTwiceAsWritten | Dashboard.ChipTwice |
| src/App.tsx:295 | Clear calls `setSelectedTag('')` and then the `fetchArticles` of the same render, which still filters by the old tag | select `Legal`, then Clear: no chip is selected and only article 2 is listed | the whole feed is listed again | high; not executed | Dashboard.ClearAfterLegalAsWritten | Dashboard.ClearAfterChip |
| src/App.tsx:154-158 | `showNotif` schedules a 4000 ms hide but never cancels the hide an earlier toast scheduled | two toasts in a row: when the first toast's hide fires, the second toast disappears before its own 4000 ms are up | each toast stays visible for its full 4000 ms | medium; not executed | Dashboard.EarlyHide | Dashboard.NoEarlyHide |
| src/App.tsx:269-274 | the Search button and the Enter key are not disabled while `loading`, unlike Ingest and Send Weekly, and their `fetchArticles` turns the spinner off | press Ingest, then Search before the 1500 ms delay ends: the spinner stops and Ingest can be pressed a second time | the spinner stays on and Ingest stays disabled until the pending press settles | medium; not executed | Dashboard.SearchReenablesIngest | Dashboard.SearchKeepsIngestBusy |

## Left out

- Rendering is not modelled: JSX, Tailwind classes, icons, the stat cards and the `toLocaleDateString` dates. They are presentation and depend on libraries and the locale.
- `publishedAt` is the millisecond timestamp. The ISO text that `toISOString` produces from it is not modelled, and the filter never reads it.
- Real time is not modelled. The 1500 ms delays and the 4000 ms hide timers are explicit queues. Equal durations make them fire in the order they were started, so that is the only order modelled.
- React's batching of state updates and re-rendering are left out. A setter is an immediate field update. `fetchArticles` has no `await`, so it is one atomic step.
- Dashboard.App.Fetch: the list the try block builds is a parameter (`feed`), not built inside the method. The source always builds the five built-in articles at the current clock reading; the model's runs that need them pass `MockArticles(now)`. This keeps the long article texts out of the state-machine proofs.
- Failure is a parameter. Each try block's failure is the `Outcome` parameter. With the built-in data, the source's try blocks and delays cannot actually throw. The parameter stands for the catch branches and a failing back end.
- `console.error` in the catch branch of `fetchArticles` is not modelled. It is logging only.
- Strings.Lower: only ASCII letters are lower-cased. Full Unicode case mapping is not modelled.
- `generateMockStats` is the constant `MockStats` applied by `App.Mount`. It has nothing further to prove.
- Dashboard.App.RunIngest and Dashboard.App.SendReport capture the query, tag and subscriber count when pressed. Any other value a stale closure could read is not modelled.
- Dashboard.App.HandleTagFilter: the click and the 0 ms deferred fetch are one step. No other event can run between them.
- Strings.Decimal: JavaScript numbers are modelled as `nat`. From 10^21 upward `${n}` switches to exponent notation, which the model does not follow; the counts the dashboard prints (0 and 156) are far below that.
- Strings: a Dafny `char` is a Unicode scalar value, while JavaScript strings are sequences of UTF-16 code units. Lone surrogates cannot be represented, and `includes`, `split` and `trim` agree with JavaScript only on well-formed text.
- Dashboard.App.SearchGuarded: only Search and Enter get a guarded twin. The tag chips and Clear are not disabled while busy either, and their fetches turn the spinner off in the same way; their guarded twins would add the same `if !loading` test.
