# SpendTrail ledger core in Dafny

SpendTrail is a single-page personal finance app. It keeps income and expense entries in the
browser's `localStorage`, in up to five isolated profiles. This project models the layer of
`app.js` under its DOM code. It has four parts.

- **Profile registry** (`profiles.dfy`, over `storage.dfy`):
  - `localStorage` is a class `Storage.LocalStorage` holding a `map<string, Value>`.
  - The global functions of app.js that read and write it are methods that modify it.
  - This covers the first-run bootstrap with migration of the single-profile keys, and
    `createProfile`, `renameProfile` and `deleteProfile` with their name rules and limits.
  - It also covers `switchProfile`, `getActiveProfile` and its fallback, and `pk`-scoped keys.
- **Ledger mutation** (`entries.dfy`): the add form, `saveEdit`, `deleteEntry` (with
  `Array.prototype.splice` semantics), `deleteAllData`, the backup object and `restoreData`'s
  checks. Each is a load-change-save on the active profile's `{income, expenses}` ledger.
- **Views** (`queries.dfy`, `sorting.dfy`): the merged view tagged with kind and index, and
  `sortTransactions`. The sort is a stable sort under the date-then-timestamp comparator. It is
  proved to give a permutation, to be ordered, and to keep tied entries in input order. Also
  here: the kind filter, the statement date range, the recent list and the home totals.
- **Analytics and formatting** (`analytics.dfy`, `format.dfy`):
  - `showAnalytics`' category table, its sort, the top five and the "Others" bucket;
  - `renderTrendChart`'s per-day buckets;
  - `escapeHtml`, `toPdfCurrency` and the column clipping of PDF rows.

Amounts are whole numbers (the smallest currency unit). Dates are the `YYYY-MM-DD` strings the
app stores. The clock (`Date.now()`, `new Date().toISOString()`, the analytics cutoff and the
days of the trend window) is passed in as a parameter. The answers to `prompt` and `confirm`
are parameters too.

Behaviour of note, which the model follows:

- `deleteEntry` with an index past the end removes nothing and still saves the ledger. A
  negative index removes counting from the end, as `splice` does.
- `renameProfileFlow` with an unknown id writes nothing but reports success. `switchProfile`
  accepts any id.
- `deleteProfile` writes the key removals and the new list before it moves the active
  id. When no profile is left after the filter (possible only if every profile carries
  the deleted id), `updated[0].id` throws after those writes. The model returns
  `ThrewAfterWrites` for that case.
- `saveEdit` with no entry at the index throws before writing. The model returns
  `IndexOutOfRange`.
- `initProfiles` migrates a legacy key only when its value is truthy, so an empty string stays
  where it was.
- Amounts are not checked to be positive anywhere in the code, so the model allows any integer.

## Model

| member | source | states |
|---|---|---|
| `Storage.AllProfiles` | app.js:25 | `getAllProfiles`: the stored profile list, or none when nothing is stored |
| `Storage.ActiveId` | app.js:26 | `getActiveProfileId`: the stored active id, or none |
| `Storage.Pk` | app.js:35 | `pk`: the active profile's key for a base name, with "null" when no active id is stored |
| `Storage.Data` | app.js:187 | `getData`: the ledger under the active data key, or the empty ledger |
| `Storage.CurrencySymbol` | app.js:180 | `getCurrencySymbol`: the stored symbol, or the rupee sign when it is missing or empty |
| `Profiles.ProfileId` | app.js:40 | a new id is "profile_" followed by the decimal digits of the clock reading |
| `Profiles.IndexOfId` | app.js:48 | `find` by id: the first profile with that id, or none |
| `Profiles.GetActiveProfile` | app.js:27-31 | None exactly when there are no profiles; otherwise the first profile with the active id, or the first profile when it names none |
| `Profiles.ActiveProfileResolves` | app.js:27-31 | on a valid registry the active profile is the one the active id names, never the fallback |
| `Profiles.GetProfileColor` | app.js:32 | the color is one of the five palette colors |
| `Profiles.ProfileColorsDistinct` | app.js:32 | the five profile slots get five different colors |
| `Profiles.CheckName` | app.js:130-133 | empty after trimming, longer than 20 UTF-16 units, or equal ignoring case to another profile's name (the excluded id aside) are each rejected; accepted exactly when none of these holds |
| `Profiles.WellFormedName` | app.js:130-131 | a name is trimmed, non-empty and at most 20 UTF-16 units |
| `Profiles.KeySpacesDisjoint` | app.js:58-59 | no key of one profile starts with another profile's prefix |
| `Profiles.ControlKeysOutsideProfiles` | app.js:58-59 | the registry's and the legacy keys are under no profile's prefix |
| `Profiles.DropPrefixed` | app.js:58-59 | removes exactly the keys with the prefix and keeps every other value |
| `Profiles.WithoutId` | app.js:60 | the filter keeps exactly the profiles with another id, and is the identity when none has the id |
| `Profiles.WithoutIdKeepsIds` | app.js:60 | with distinct ids the filter keeps them distinct and removes at most one profile |
| `Profiles.WithoutIdKeepsNames` | app.js:60 | the filter keeps the names distinct |
| `Profiles.WithoutIdValid` | app.js:54-60 | filtering a valid list of more than one profile gives a valid list |
| `Profiles.AppendKeepsValidProfiles` | app.js:40-42 | appending a profile with a fresh id and a new valid name keeps the list valid and within the limit |
| `Profiles.RenameKeepsValidProfiles` | app.js:50 | renaming one profile to a name no other profile has keeps the list valid |
| `Profiles.RenamedList` | app.js:47-50 | a rename that passed the name rules keeps the list valid and every id at its position |
| `Profiles.StoreListValid` | app.js:51 | storing a valid list that still holds the active profile keeps the registry valid and the active id |
| `Profiles.InitProfiles` | app.js:9-23 | with any truthy stored profile list (even `[]`) nothing changes; otherwise the store becomes the bootstrapped one |
| `Profiles.BootstrapKeysDistinct` | app.js:13-21 | the six keys the bootstrap touches are distinct |
| `Profiles.Bootstrapped` | app.js:11-21 | the store after the first run: one "Personal" profile, made active, with the legacy keys moved |
| `Profiles.MovedFrom` | app.js:20-21 | a migration leaves the legacy key absent or empty and puts a truthy legacy value under the profile's key |
| `Profiles.MovedKeeps` | app.js:20-21 | a migration changes no other key |
| `Profiles.BootstrapValid` | app.js:11-15 | the first run leaves a valid registry of one active "Personal" profile |
| `Profiles.BootstrapMigrates` | app.js:17-21 | the legacy keys are gone (or held ""), and the legacy ledger and currency become the new profile's |
| `Profiles.CreateProfile` | app.js:37-44 | with five profiles: None and nothing written; otherwise the list gains exactly one profile at the end, with the trimmed name, and its id is returned |
| `Profiles.CreateKeepsValid` | app.js:37-44 | a create that passed the name rules with a fresh id keeps the registry valid and the active profile |
| `Profiles.CreateProfileFlow` | app.js:125-136 | limit, then a cancelled prompt, then name rules, then create, each outcome exactly when its condition holds; nothing written unless created; validity preserved |
| `Profiles.RenameProfile` | app.js:46-52 | only the first profile with the id gets the trimmed name; an unknown id writes nothing |
| `Profiles.RenameKeepsValid` | app.js:46-52 | a rename that passed the name rules keeps the registry valid and the active profile |
| `Profiles.RenameProfileFlow` | app.js:138-150 | a cancelled prompt writes nothing and reports nothing; the name check leaves the profile itself out of the duplicate test; only an accepted name on a known id writes; validity preserved |
| `Profiles.DeleteProfile` | app.js:54-65 | at most one profile: refused, nothing written; otherwise the profile's keys and list entry are removed and the active id moves to the first remaining profile only if it named the deleted one |
| `Profiles.AfterDeleteShape` | app.js:58-61 | after the writes the list is filtered, the active id is untouched, and exactly the profile's keys are gone |
| `Profiles.AfterDelete` | app.js:58-60 | the store after the deletion's writes: the profile's keys removed and the list filtered |
| `Profiles.DeleteKeepsValid` | app.js:54-65 | deleting an existing profile of a valid registry with more than one profile leaves a valid, non-empty registry |
| `Profiles.SwitchProfile` | app.js:67-70 | sets only the active id; switching to a listed profile keeps the registry valid and makes it the active profile |
| `Storage.ScopedKey` | app.js:35 | every scoped key starts with its profile's prefix |
| `Storage.ScopedKeyIsNotControlKey` | app.js:35 | a profile's data and currency keys are never the registry's keys |
| `Storage.ControlKeysDiffer` | app.js:4-19 | the registry's two keys and the two legacy keys are four different keys |
| `Storage.SetData` | app.js:188 | writes only the active data key, and `getData` then gives the ledger back |
| `Storage.DataRoundTrip` | app.js:187-188 | `getData` after `setData` returns the saved ledger and leaves profiles and active id alone |
| `Storage.SetCurrencySymbol` | app.js:180-181 | writes only the active currency key; the symbol read back is it, or the rupee sign when empty |
| `Strings.Trim` | app.js:337 | the result has no white space at either end |
| `Strings.TrimInfix` | app.js:337 | the trimmed text is the input with only white space removed before and after it |
| `Model.Total` | app.js:265-266 | the `reduce` sum of the amounts |
| `Model.TotalAppend` | app.js:265-266 | the `reduce` total of two sequences in a row is the sum of their totals |
| `Sorting.Sort` | app.js:190-196 | the sort gives a permutation of its input |
| `Sorting.SortSorted` | app.js:190-196 | under a total preorder the result is ordered |
| `Sorting.SortStable` | app.js:190-196 | entries that tie keep their input order |
| `Queries.Tag` | app.js:278-279 | each record is tagged with its kind and its own index |
| `Queries.Merged` | app.js:277-280 | the tagged income entries followed by the tagged expenses, as many as both together |
| `Queries.MergedIndexesBack` | app.js:277-280 | every merged entry points back at its record, and every record appears with its kind and index |
| `Queries.Ts` | app.js:195 | the timestamp used by the sort, a missing one counting as 0 |
| `Queries.NewerFirst` | app.js:191-196 | the comparator: later date first, then larger timestamp |
| `Queries.SortTransactions` | app.js:190-196 | `sortTransactions`: a stable sort under the comparator |
| `Queries.NewerFirstIsTotalPreorder` | app.js:190-196 | the date-then-timestamp comparator is total and transitive |
| `Queries.SortTransactionsSpec` | app.js:190-196 | a permutation, newest date first, then newest timestamp, ties in input order |
| `Queries.TiedMeansSameKey` | app.js:190-196 | two entries tie exactly when date and timestamp (missing as 0) are equal |
| `Queries.WhereMembers` | app.js:449-450 | `filter` keeps exactly the elements that pass |
| `Queries.Admits` | app.js:449-450 | the kind filter: "all" admits every entry, otherwise only that kind |
| `Queries.SortedWhereSpec` | app.js:449-451 | sorting a filtered view gives a permutation of the filtered entries, exactly those of the input that pass, ordered, ties in input order |
| `Queries.AllEntries` | app.js:439-451 | the list is a permutation of the ledger's entries the kind filter admits, in sort order, with tied entries in merged order |
| `Queries.InPeriod` | app.js:596 | an entry is in the statement when its date is in the closed range |
| `Queries.Statement` | app.js:588-597 | refused exactly when a date is empty; otherwise a permutation of the entries dated in the closed range, in sort order, with tied entries in merged order |
| `Queries.EmptyPeriod` | app.js:596 | a range ending before it starts selects nothing |
| `Queries.Recent` | app.js:281 | at most ten entries, fewer only when the ledger has fewer |
| `Queries.RecentAreNewest` | app.js:275-281 | the recent list is the head of the sorted view and comes before everything it leaves out |
| `Queries.Summary` | app.js:263-266 | the home totals: income, expenses and their difference |
| `Queries.SignedTotalTag` | app.js:277-280 | a tagged sequence sums to its total, negated for expenses |
| `Queries.BalanceIsSignedTotal` | app.js:263-266 | the balance equals the merged view summed with expenses negative |
| `Entries.AddEntry` | app.js:334-345 | added exactly when amount, trimmed category and date are all present; then only the entry is appended to its kind, stamped with the clock |
| `Entries.AddConservesTotals` | app.js:343 | adding raises that kind's total by the amount and leaves the other kind alone |
| `Entries.KeptTimestamp` | app.js:403 | an edited entry keeps its timestamp unless it is missing or 0 |
| `Entries.SaveEdit` | app.js:396-405 | empty field or bad index: nothing written; otherwise only entry `index` of its kind is replaced, with its old timestamp |
| `Entries.TotalReplace` | app.js:404 | replacing an entry changes the total by the difference of amounts |
| `Entries.SpliceStart` | app.js:420 | splice's start: clamped to the length, negative counted from the end |
| `Entries.SpliceOne` | app.js:420 | exactly one element is removed at the start position and the later ones shift down; past the end nothing changes |
| `Entries.TotalSplice` | app.js:420 | deleting lowers the total by the removed amount |
| `Entries.DeleteEntry` | app.js:416-421 | declined: nothing written; confirmed: the kind's sequence becomes the spliced one and the other kind is untouched |
| `Entries.DeleteAllData` | app.js:909-917 | unless both confirmations are given nothing changes; with both, removes only the active data key and the profile then reads as empty |
| `Entries.MakeBackup` | app.js:768-770 | the backup carries the active ledger, version "3.9" and the profile name or "Personal" |
| `Entries.CheckBackupPassword` | app.js:779-785 | cancelled or empty stops; "Too short" exactly when non-empty and under 8 UTF-16 units; accepted exactly when at least 8 units and confirmed; "No match" otherwise |
| `Entries.Payload` | app.js:806-812 | the parsed payload once a password, if needed, was given and decrypted something |
| `Entries.Validate` | app.js:812-813 | a parse failure is unreadable, a payload lacking either sequence is invalid, otherwise its ledger |
| `Entries.ReadBackup` | app.js:797-813 | no password, wrong password, unreadable and invalid are each reported exactly in their case; otherwise the ledger of the payload's two sequences |
| `Entries.RestoreData` | app.js:813-817 | a rejected or declined restore writes nothing; a confirmed one replaces the active ledger with exactly the payload's two sequences |
| `Entries.RestoreOwnBackup` | app.js:768-817 | restoring the profile's own backup leaves the store reading the same ledger, profiles and active id |
| `Analytics.SumWhereSnoc` | app.js:667 | a further record adds its amount to a filtered sum exactly when it passes the filter |
| `Analytics.IndexOfCategory` | app.js:667 | the first table position with that category, or none |
| `Analytics.Tally` | app.js:666-667 | the category table the `forEach` builds, categories in order of first appearance |
| `Analytics.CategoryTotals` | app.js:666-667 | the `forEach` loop builds the category table of the records |
| `Analytics.BumpCategories` | app.js:667 | one step keeps every category in place and appends the record's category only if new |
| `Analytics.TallyCategories` | app.js:666-667 | the table lists each category once, exactly the categories of the records |
| `Analytics.AbsentCategorySum` | app.js:667 | a category no record has sums to 0 |
| `Analytics.TallySums` | app.js:667 | each table entry's total is the sum of its category's records |
| `Analytics.BumpEntrySum` | app.js:667 | one step of the `forEach` keeps every table entry equal to its category's sum |
| `Analytics.AmountsBump` | app.js:667 | one step of the `forEach` raises the table's grand total by the record's amount |
| `Analytics.TallyAmounts` | app.js:666-669 | the table's totals add up to the total of the records |
| `Analytics.LargerFirstIsTotalPreorder` | app.js:668 | the descending-total comparator is a total preorder |
| `Analytics.AmountsSort` | app.js:668-669 | sorting the table keeps what its totals add up to |
| `Analytics.InWindow` | app.js:665 | the records dated on or after the cutoff |
| `Analytics.BreakdownOf` | app.js:668-673 | the table sorted largest first, its total amount, the top five, the others and their total, and the pie slices |
| `Analytics.ShowAnalytics` | app.js:660-673 | the breakdown of the records of one kind on or after the cutoff |
| `Analytics.SortedTableSpec` | app.js:666-668 | the sorted table is a permutation of the category table, largest first, each total its category's sum, exactly the records' categories |
| `Analytics.BreakdownSums` | app.js:669-672 | top five and others make up the sorted table; their totals add up to the total amount, which is the records' total |
| `Analytics.BreakdownPie` | app.js:673 | at most six slices; "Others" is present exactly when its total is above 0; no slice exactly when there is no record |
| `Analytics.DayBuckets` | app.js:726-731 | `days` labels oldest first, each with a 0 bucket in both tables |
| `Analytics.DayTotal` | app.js:732-733 | the sum of the records of one day |
| `Analytics.AddByDate` | app.js:732-733 | each existing day gains the sum of its records; no day is added |
| `Analytics.BucketStep` | app.js:732-733 | one step of the `forEach` adds the record to its day's bucket, if the day has one, and to no other |
| `Analytics.FilledBuckets` | app.js:726-733 | each day of the window ends up holding the total of that day's records |
| `Analytics.Series` | app.js:739-740 | the series lists each label's bucket in label order |
| `Analytics.RenderTrend` | app.js:723-740 | `days` dates oldest first; each series value is the total of that kind's records on that date |
| `Analytics.DayTotalSnoc` | app.js:732-733 | a record changes only its own day's bucket, so records outside the window change none |
| `Format.EscapeHtml` | app.js:72-74 | the escaped text is at least as long as the input and at most six times as long |
| `Format.EscapeHtmlIsInert` | app.js:72-74 | the output has no `<`, `>`, `"` or `'`, and every `&` starts an entity, so it is inert as HTML text and inside a double-quoted attribute |
| `Format.EscapeHtmlRoundTrip` | app.js:72-74 | the browser's entity decoding of the output gives the input back |
| `Format.UnescapeNamedEntity` | app.js:73 | decoding reads each of the five entities back as its character |
| `Format.QuotedNameBreaksHandler` | app.js:102 | the name "O'Brien" passes the name rules, yet once the attribute is decoded it ends the handler's string literal early |
| `Format.JsEscape` | app.js:102 | escaping for a JavaScript literal at most doubles the length |
| `Format.JsEscapeSpec` | app.js:102 | the JavaScript escape gives one well-formed literal body that reads back as the text |
| `Format.SafeHandlerArgumentSpec` | app.js:91-104 | with the JavaScript escape applied before `escapeHtml`, every name stays one literal and reaches the handler unchanged |
| `Format.EscapeHtmlPlain` | app.js:72-74 | text without the five characters is unchanged |
| `Format.ToPdfCurrency` | app.js:862-865 | a symbol in the table becomes non-empty ASCII; any other text is unchanged |
| `Format.PdfNamesNotAscii` | app.js:863 | every symbol the table replaces has a non-ASCII character |
| `Format.PickerSymbolsPrintable` | app.js:171-177 | every symbol the currency picker offers reaches the PDF as ASCII |
| `Format.ToPdfCurrencyIdempotent` | app.js:862-865 | converting twice is converting once |
| `Format.ClipCategory` | app.js:895 | at most 15 characters; unchanged exactly when it fits; otherwise the first 13 and ".." |
| `Format.ClipNote` | app.js:896 | "-" for no note; a note that fits is unchanged; a longer one keeps its first 18 and ends in ".." |

## Left out

- `db.js` (an IndexedDB wrapper that app.js never calls) is not part of this model.
- DOM rendering, overlays, toasts, long-press timers, vibration and page reloads are left out.
  This includes `showLedger`, `showCategoryDetails`, `showOthersBreakdown`, `showPrivacy` and the
  search boxes (`filterAllEntries`, `filterLedgerCategories`). They only display views.
- Chart.js (`renderPieChart`, `renderCategoryBars`) and jsPDF layout (`exportPDF`,
  `exportStatementPDF`, `renderSummaryBoxes`, `addNewPage`) are left out: they are foreign
  libraries.
- CryptoJS AES is a foreign primitive. A decryption is given as its outcome (nothing, or a
  parsed payload). The "Encryption unavailable" branch (no CryptoJS loaded) is not modelled.
- `JSON.stringify`/`JSON.parse` are abstracted by typed stored values. A stored value of the
  wrong shape reads as absent. Corrupted JSON (where `JSON.parse` would throw) is not modelled.
  Neither is a backup whose `income` or `expenses` is truthy but not an array.
- `Number()` coercion, floating-point sums and `toFixed` are left out: amounts are integers.
- `Date`, `toISOString` and time zones are left out. The clock reading, the creation date, the
  analytics cutoff and the function from "days ago" to a date string are parameters.
- `prompt` and `confirm` answers are parameters. A cancelled add-form field is an empty field.
- `Strings.Lower`: lowercases ASCII letters only. JavaScript's `toLowerCase` also folds other
  scripts, so two non-ASCII names differing only in case count as distinct here.
- `Strings.StrLe`: the string `<=` and `>=` on dates (app.js:596, 665) compare UTF-16 code
  units, and the sort's `localeCompare` uses the locale's collation; the model compares code
  points. For `YYYY-MM-DD` dates all three orders agree.
- `Format.ClipCategory`: counts characters, not UTF-16 code units. It differs from `substring`
  only for characters outside the Basic Multilingual Plane.
- `Format.ClipNote`: counts characters, not UTF-16 code units, for the same reason.
- `Format.ToPdfCurrency`: the table is a Dafny map. A lookup of an `Object.prototype` member name
  such as "constructor" is not modelled.
- `Analytics.CategoryTotals`: the category table is an ordered list of (category, total) in
  which every category is an ordinary key. In app.js it is a plain object literal, so a category
  named after an `Object.prototype` member differs: `__proto__` is lost by the setter, and
  `constructor` or `toString` start from the inherited function and concatenate as strings.
  JavaScript also lists integer-like keys (such as "2024") first in numeric order, where the
  model keeps first appearance; that changes only the order among equal totals after the sort.
  `Analytics.ShowAnalytics` inherits both differences.
- `Entries.AddEntry`: a successful add is modelled without the form reset and home refresh
  that follow it.
- Concurrent writers (two tabs) are not modelled: each operation is one step on the store.

## Findings

| source | as written | input that shows it | evidently intended | confidence | as-written member | corrected member |
|---|---|---|---|---|---|---|
| app.js:91, app.js:102, app.js:104 | the profile name goes through `escapeHtml` only and is placed in a single-quoted string inside an `onclick` attribute; the browser decodes `&#39;` back to `'` before compiling the handler | the profile name `O'Brien`, which the name rules accept | the handler receives the name as one string argument | not executed | `Format.QuotedNameBreaksHandler` | `Format.SafeHandlerArgumentSpec` |
