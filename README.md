# PG Finder moderation and listing form, modelled in Dafny

PG Finder is a student-housing front end over a hosted backend. Two pieces of it
hold local state logic, and this project models both:

- **Admin moderation** (`AdminDashboard`, class `Dashboard`). Pending student
  and owner profiles are merged into one review queue, each entry tagged
  `student` or `owner`. The dashboard counters are loaded once. Each
  approve/reject decision issues one status write keyed by id. Unless the
  awaited call throws, the decision then drops every entry with that id from
  its list and decrements the pending counter by one.
- **The "list your property" form** (`ListProperty`, class `ListPropertyForm`).
  It has three pages. Image files and their preview URLs are kept in parallel
  lists. Amenity checkboxes add or remove an amenity. A house-rules textarea is
  parsed line by line. Submission inserts a pending listing and then resets the
  form.

The backend is reduced to what these two pieces see of it. Query results,
counts, the signed-in user and the success or failure of each call are method
parameters. The writes and inserts the code issues are recorded in log fields
(`Dashboard.writes`, `ListPropertyForm.listings`).

Two helper modules give JavaScript's meaning to the operations the code relies
on. `Seqs` covers `Array.prototype.filter`, both by value and by index. `Text`
covers `String.prototype.trim`, `split('\n')` and `join('\n')`. `Wrappers`
holds `Option`, which stands for a result the store may leave `null`.

Two details of the moderation code shape the model:
- A decision's removal and decrement sit inside the `try`, after the awaited
  write (project/src/pages/AdminDashboard.tsx:103-123). A call that throws
  skips them. An error the call returns is never inspected, so the entry is
  removed all the same.
- A `null` pending-properties result keeps the previous list, because the list
  is only set when the result is non-null
  (project/src/pages/AdminDashboard.tsx:71-73). The counter counts such a result
  as 0 (project/src/pages/AdminDashboard.tsx:92).

The main proved facts:
- The pending counter agrees with the two lists right after loading.
- A decision keeps the counter in agreement exactly when the decided id
  occurred once in its list. With no match the counter drops below the lists.
  With several matches it stays above them.
- Parsing the rules text gives back the rules it was rendered from.
- A newline typed at the end of the rules text is dropped at once, so Enter
  cannot start a new rule.
- The image and preview lists keep equal lengths through upload, removal and
  submission.

## Model

| member | source | states |
|---|---|---|
| `Seqs.Filter` | project/src/pages/AdminDashboard.tsx:117 | `filter` keeps exactly the elements that pass the predicate and never grows the list |
| `Seqs.FilterConcat` | project/src/components/ListProperty.tsx:332 | filtering a concatenation filters each part, so the kept elements stay in their original order |
| `Seqs.DropIndex` | project/src/components/ListProperty.tsx:66 | filtering by `i !== index` equals removing exactly position `index` (`s[..k] + s[k+1..]`); an index outside the list removes nothing |
| `Text.Trim` | project/src/components/ListProperty.tsx:404 | `trim()` is empty exactly when the line is all ECMAScript white space; otherwise it starts and ends on a visible character |
| `Text.Join` | project/src/components/ListProperty.tsx:401 | `join('\n')` of no lines is empty; otherwise the text starts with the first line, followed by a newline when more lines come |
| `Text.Split` | project/src/components/ListProperty.tsx:404 | `split('\n')` returns at least one line, no line contains a newline, and joining the lines with '\n' gives the text back |
| `Text.JoinInjective` | project/src/components/ListProperty.tsx:401 | two non-empty lists of newline-free lines with the same '\n'-join are equal |
| `Text.SplitJoin` | project/src/components/ListProperty.tsx:401-404 | splitting the '\n'-join of non-empty newline-free lines gives those lines back |
| `AdminDashboard.Tagged` | project/src/pages/AdminDashboard.tsx:53-60 | the `.map` tags every row, in order, and keeps the length |
| `AdminDashboard.MergePending` | project/src/pages/AdminDashboard.tsx:52-61 | the queue is every pending student tagged `student`, then every pending owner tagged `owner`, in store order; its length is the sum; a `null` result counts as empty |
| `AdminDashboard.MergeSeparates` | project/src/pages/AdminDashboard.tsx:52-61 | selecting the `student` entries of the queue gives back the student rows in order, and likewise for owners |
| `AdminDashboard.LoadedStats` | project/src/pages/AdminDashboard.tsx:88-93 | the loaded counter agrees with the queue and the non-null property list; each missing total reads as 0 |
| `AdminDashboard.LoadedStatsAgree` | project/src/pages/AdminDashboard.tsx:88-93 | after loading, the pending counter equals queue length plus pending properties, a `null` property result counting 0; missing totals read as 0 |
| `AdminDashboard.UserStatus` | project/src/pages/AdminDashboard.tsx:107 | an account decision writes `verified` exactly on approval and `rejected` otherwise, never `pending` |
| `AdminDashboard.PropertyStatus` | project/src/pages/AdminDashboard.tsx:133 | a listing decision writes `published` exactly on approval and `rejected` otherwise, never `pending` |
| `AdminDashboard.UserWrite` | project/src/pages/AdminDashboard.tsx:104-114 | the one write targets `student_profiles.status` exactly for type `student` and `owner_profiles.verification_status` for any other type, keyed by the user id |
| `AdminDashboard.PropertyWrite` | project/src/pages/AdminDashboard.tsx:131-134 | the one write targets `properties.status`, keyed by the listing id, with value `PropertyStatus(approve)`: `published` on approval, `rejected` otherwise |
| `AdminDashboard.DecisionTargetsSourceTable` | project/src/pages/AdminDashboard.tsx:102-114 | deciding a queue entry writes to the table that entry was read from, keyed by its id |
| `AdminDashboard.RemoveUser` | project/src/pages/AdminDashboard.tsx:117 | no entry with the id remains, every other entry remains, and the length drops by the number of entries with that id |
| `AdminDashboard.RemoveUserKeepsOrder` | project/src/pages/AdminDashboard.tsx:117 | the remaining queue entries keep their relative order |
| `AdminDashboard.RemoveProperty` | project/src/pages/AdminDashboard.tsx:137 | no listing with the id remains, every other listing remains, and the length drops by the number of listings with that id |
| `AdminDashboard.RemovePropertyKeepsOrder` | project/src/pages/AdminDashboard.tsx:137 | the remaining listings keep their relative order |
| `AdminDashboard.Decremented` | project/src/pages/AdminDashboard.tsx:120-123 | a decision lowers the pending counter by exactly one and leaves the three totals unchanged |
| `AdminDashboard.UserDecisionAgrees` | project/src/pages/AdminDashboard.tsx:116-123 | with the counter agreeing before, it agrees after an account decision if and only if the id occurred exactly once; with no match it ends one below the lists, with several above them |
| `AdminDashboard.PropertyDecisionAgrees` | project/src/pages/AdminDashboard.tsx:136-143 | with the counter agreeing before, it agrees after a listing decision if and only if the id occurred exactly once; with no match it ends one below the lists, with several above them |
| `AdminDashboard.Dashboard.constructor` | project/src/pages/AdminDashboard.tsx:11-18 | the dashboard starts with empty lists, zero counters and no writes |
| `AdminDashboard.Dashboard.FetchData` | project/src/pages/AdminDashboard.tsx:21-97 | signed out: nothing changes; signed in: the queue is the merge, the listings are replaced only by a non-null result, the counters are reloaded; the counter then agrees with the lists whenever the listings were replaced or were empty before |
| `AdminDashboard.Dashboard.VerifyUser` | project/src/pages/AdminDashboard.tsx:102-127 | exactly one write is logged; unless the call threw, every entry with the id is dropped and the counter drops by exactly one; the listings and other totals are unchanged |
| `AdminDashboard.Dashboard.VerifyProperty` | project/src/pages/AdminDashboard.tsx:129-147 | exactly one write is logged; unless the call threw, every listing with the id is dropped and the counter drops by exactly one; the queue and other totals are unchanged |
| `ListProperty.WithText` | project/src/components/ListProperty.tsx:189-301 | a text input's `onChange` sets that input to the value typed and keeps every other input |
| `ListProperty.WithTextSets` | project/src/components/ListProperty.tsx:189-301 | editing any text input leaves the amenity, rule and image lists alone, and typing the old value back restores the form |
| `ListProperty.IsRule` | project/src/components/ListProperty.tsx:404 | a line is kept, `rule.trim() !== ''`, exactly when it is not all white space |
| `ListProperty.ParseRules` | project/src/components/ListProperty.tsx:404 | every stored rule is a non-blank, newline-free line of the text, and every non-blank line is stored |
| `ListProperty.RulesRoundTrip` | project/src/components/ListProperty.tsx:401-405 | parsing the textarea value shown for well-formed rules gives back the same rules |
| `ListProperty.TrailingNewlineDropped` | project/src/components/ListProperty.tsx:401-405 | parsing the shown rules with a newline typed at the end gives the same rules, so the textarea shows the old text again |
| `ListProperty.JoinParsedRules` | project/src/components/ListProperty.tsx:401-405 | a text with no blank line is the '\n'-join of the rules parsed from it |
| `ListProperty.ParseRulesStable` | project/src/components/ListProperty.tsx:401-405 | re-rendering parsed rules and parsing again changes nothing |
| `ListProperty.UncheckUndoesCheck` | project/src/components/ListProperty.tsx:323-334 | checking an unchecked amenity and then unchecking it restores the list |
| `ListProperty.UncheckKeepsOrder` | project/src/components/ListProperty.tsx:330-333 | unchecking removes every occurrence and keeps the other amenities in order |
| `ListProperty.StoredPaths` | project/src/components/ListProperty.tsx:81-91 | the uploads succeed as a whole exactly when every upload stored its file; the result is one path per file, in file order |
| `ListProperty.SubmitResult` | project/src/components/ListProperty.tsx:76-109 | a listing is inserted exactly when there is a user, every upload succeeded and the insert did not fail; it is `pending`, owned by the user, has one path per image in order, and copies every form field and list |
| `ListProperty.ListPropertyForm.constructor` | project/src/components/ListProperty.tsx:20-34 | the form starts on page 1 with empty data and no previews |
| `ListProperty.ListPropertyForm.EditText` | project/src/components/ListProperty.tsx:189 | a text input's change replaces that field and nothing else |
| `ListProperty.ListPropertyForm.HandleImageUpload` | project/src/components/ListProperty.tsx:49-61 | the files are appended to the images and one preview per file to the previews, keeping equal lengths; an empty selection changes nothing |
| `ListProperty.ListPropertyForm.RemoveImage` | project/src/components/ListProperty.tsx:63-70 | exactly position `index` is removed from both lists, the rest stay in order, and the lengths stay equal |
| `ListProperty.ListPropertyForm.ToggleAmenity` | project/src/components/ListProperty.tsx:323-334 | checking appends the amenity, unchecking filters every occurrence out; afterwards the list holds it exactly when checked |
| `ListProperty.ListPropertyForm.EditRules` | project/src/components/ListProperty.tsx:400-405 | the rules become the parsed non-blank lines; the text already shown, with or without a newline typed at its end, leaves them unchanged |
| `ListProperty.ListPropertyForm.NextStep` | project/src/components/ListProperty.tsx:134 | Next, offered below page 3, adds one and keeps the page within 1..3 |
| `ListProperty.ListPropertyForm.PrevStep` | project/src/components/ListProperty.tsx:135 | Previous, offered above page 1, subtracts one and keeps the page within 1..3 |
| `ListProperty.ListPropertyForm.HandleSubmit` | project/src/components/ListProperty.tsx:72-132 | on success the listing is logged and the form resets to page 1 with no data and no previews; on any failure the form, page, previews and log are unchanged |

## Left out

- Rendering, animation and styling in both files, and the whole of the other pages and components, which hold no state logic.
- The backend client: queries, updates, inserts and storage uploads are replaced by parameters (their results) and log fields (the writes issued).
- The admin's own profile and user lookups in `fetchData`: they are only displayed.
- The `loading` flags of both components. The form's flag is what prevents overlapping submissions: `disabled={loading}` (project/src/components/ListProperty.tsx:437) blocks a second submit while one is in flight. Overlapping submissions are an asynchronous interleaving, which the model leaves out (below).
- `parseFloat(price)` and `parseInt` of the bed and occupant counts: floating-point and integer parsing are not modelled, so a `Listing` keeps the text typed.
- The `Date.now()`-based upload file names: the stored path is a parameter.
- `URL.createObjectURL` and `URL.revokeObjectURL`: the preview URLs are parameters, and revoking them is browser I/O.
- Files uploaded before a failed insert stay in storage. Storage contents are not modelled.
- Asynchronous interleavings are not modelled: a double-clicked decision, the stale `pendingUsers` list read at AdminDashboard.tsx:117 next to the functional counter update, and overlapping submissions. Every handler runs to completion before the next one starts.
- `ListProperty.ListPropertyForm.NextStep`, `ListProperty.ListPropertyForm.PrevStep`: they require the page bounds under which the Next and Previous buttons are rendered. Called outside those bounds, `nextStep` and `prevStep` would move past pages 1..3.
- `ListProperty.ListPropertyForm.ToggleAmenity`: it requires an offered amenity, because only those have a checkbox.
