# Coal-industry dashboard: panel collection and panel editor

This project models the logic of a browser dashboard that shows "panels":
metric cards (a title, a free-form value and unit, a growth figure and its
colour, an icon) and line or bar charts over a series of named points. The
page keeps an ordered collection of panels and writes it to a storage slot
on every change. The user can add, edit, delete (after confirmation), import
from a JSON file and reset to a fixed set of eight default panels. The page
shows metric cards and charts in two separate grids. Panels are edited in a
modal editor. The editor keeps one draft per panel type. It lets the user
append, remove (never below two points) and change the points of a chart
series. On save, it hands back the draft of the active tab.

Files:

- `Types.dfy` (module `Types`): the data model. The closed string unions
  become enumerations, with their literals and a parser for each. A panel's
  payload is a sum type, and the panel keeps a separate tag, because the
  source never ties the two.
- `Seqs.dfy` (module `Seqs`): `filter` on values and on indices, and the
  subsequence relation that states "keeps the order".
- `PanelStore.dfy` (module `PanelStore`): the default collection, the pure
  collection updates and the `Dashboard` class with the page's state slots
  and handlers.
- `EditModal.dfy` (module `EditModal`): the default drafts, the series
  updates and the `EditSession` class.
- `Wrappers.dfy`: `Option`.

Inputs the code takes from the browser become parameters:

- Each `Date.now().toString()` read is a string parameter (`clock1`,
  `clock2`). The code reads the clock twice, so these are two values.
- The result of `JSON.parse` on an imported file is a `Parsed` value. It is
  `Malformed`, `NotAnArray` or an array of panels. No file chosen is `None`.
- `window.confirm` is a boolean parameter. `alert` is a boolean result.
- The storage slot is a field that holds the last collection written, or
  nothing.

What the code does and does not do with ids:

- A new panel's id and its payload's `data.id` come from two separate clock
  reads (`src/App.tsx:173`, `src/App.tsx:175`). An edit stores the payload
  as given and never re-stamps `data.id` (`src/App.tsx:168`).
  - `CreatedPanelSync` shows that the two ids agree only when the two clock
    reads agree.
  - The cards call edit and delete with `data.id`. `UnsyncedPanelMissed`
    shows that for a panel whose `data.id` differs from its id, edit never
    opens that panel and delete never removes it. If another panel has that
    id, edit and delete act on that other panel instead.
  - The editor alone can produce such a panel. Edit a chart, then edit a
    metric card, switch to the chart tab and save. The card's panel keeps
    its id but now carries the chart draft left over from the first edit,
    with that chart's `data.id` (`src/components/EditModal.tsx:84-89`).
- Edit and delete return nothing. An absent id is a silent no-op
  (`ReplaceAbsent`, `RemoveIdSpec`).
- Ids are not checked for uniqueness. Uniqueness is proved to survive edit
  and delete. It survives create only under an added freshness assumption
  (`AppendFreshKeepsUnique`). An import can bring duplicates in.

## Model

| member | source | states |
|---|---|---|
| Types.ParseGrowthType | src/types/index.ts:7 | a growth type is exactly one of "positive", "negative", "neutral"; each accepted literal reads back as itself |
| Types.GrowthTypeRoundTrip | src/types/index.ts:7 | every growth type survives writing it as its literal and reading it back |
| Types.ParseChartKind | src/types/index.ts:19 | a chart kind is exactly "line" or "bar" |
| Types.ChartKindRoundTrip | src/types/index.ts:19 | every chart kind survives its literal |
| Types.ParsePanelType | src/types/index.ts:23 | a panel type is exactly "metric" or "chart" |
| Types.PanelTypeRoundTrip | src/types/index.ts:23 | every panel type survives its literal |
| Types.TagNotTiedToShape | src/types/index.ts:25-29 | the types admit a panel whose tag disagrees with its payload's shape |
| Types.WithId | src/App.tsx:175 | `{ ...data, id }` gives the payload the new id and keeps its shape |
| Types.WithIdRestores | src/App.tsx:175 | stamping back the old id restores the payload, so nothing but `id` changed |
| Seqs.Filter | src/App.tsx:158 | `filter` keeps only elements that pass the test and never grows the sequence |
| Seqs.FilterIsSubsequence | src/App.tsx:219-220 | `filter` keeps the survivors in their original relative order |
| Seqs.FilterCount | src/App.tsx:158 | `filter` keeps each passing element as often as it occurred and drops every failing one |
| Seqs.FilterMembership | src/App.tsx:158 | an element survives exactly when it occurred and passes the test |
| Seqs.FilterMembershipAll | src/App.tsx:219-220 | every element of a filtered view occurs in the collection |
| Seqs.FilterKeepsAll | src/App.tsx:158 | filtering a sequence whose elements all pass gives it back unchanged |
| Seqs.FilterPartition | src/App.tsx:219-220 | two complementary filters together hold every element exactly as often as the input |
| Seqs.RemoveIndex | src/components/EditModal.tsx:121 | filtering on index `i` shortens the series by one exactly when `i` is in range |
| Seqs.RemoveIndexOutside | src/components/EditModal.tsx:121 | filtering on an index outside the series removes nothing |
| Seqs.RemoveIndexInside | src/components/EditModal.tsx:121 | filtering on an index inside the series splices out exactly that point and keeps the rest in order |
| Seqs.RemoveIndexIsSplice | src/components/EditModal.tsx:121 | filtering on index `i` removes exactly element `i` and keeps the rest in order; an out-of-range `i` removes nothing |
| PanelStore.FindById | src/App.tsx:144 | `find` yields nothing exactly when no panel has the id, and otherwise the first panel that has it |
| PanelStore.Load | src/App.tsx:126 | the storage hook yields the slot's contents, or the 8 default panels when the slot is empty |
| PanelStore.CreatedPanel | src/App.tsx:172-176 | a created panel takes its id from the first clock read and its tag from the save; its payload is the saved one with only `id` replaced by the second clock read (stamping the saved id back gives the saved payload) |
| PanelStore.MetricPanels | src/App.tsx:219 | the metric view is no longer than the collection and holds only metric panels of the collection |
| PanelStore.ChartPanels | src/App.tsx:220 | the chart view is no longer than the collection and holds only chart panels of the collection |
| PanelStore.ReplaceId | src/App.tsx:166-170 | the edit `map` keeps the length; each panel with the id keeps its id and position and gets the new type and data; every other panel is untouched |
| PanelStore.DefaultPanelsShape | src/App.tsx:12-123 | the default collection is 8 panels with ids "1" to "8", each payload carrying its panel's id, 6 metric cards then 2 charts, all well tagged and unique |
| PanelStore.ReplaceAbsent | src/App.tsx:166-170 | editing an id that no panel has leaves the collection unchanged |
| PanelStore.ReplaceKeepsIds | src/App.tsx:167-168 | editing keeps every id in place, so unique ids stay unique |
| PanelStore.EditUnchangedIsIdentity | src/App.tsx:143-148 | with unique ids, saving the found panel's own type and data back gives the collection back |
| PanelStore.ReplaceKeepsSync | src/App.tsx:168 | an edit whose saved payload carries the edited id keeps every payload's id equal to its panel's id |
| PanelStore.SaveKeepsWellTagged | src/App.tsx:164-178 | saving a payload under its matching tag, by edit or by create, keeps every panel well tagged |
| PanelStore.FilterKeepsUnique | src/App.tsx:158 | filtering the collection keeps ids unique |
| PanelStore.RemoveIdSpec | src/App.tsx:158 | deleting id `k` leaves no panel with id `k`, keeps every other panel as often as before and in order, keeps ids unique, and changes nothing when `k` is absent |
| PanelStore.AppendFreshKeepsUnique | src/App.tsx:171-177 | appending a panel with a fresh id keeps ids unique; freshness is an added assumption |
| PanelStore.CreatedPanelSync | src/App.tsx:172-176 | a created panel has the first clock read as id and the given type; its payload carries the panel id exactly when both clock reads agree |
| PanelStore.UnsyncedPanelMissed | src/components/panels/MetricCard.tsx:77-85 | for any panel whose payload id differs from its id, edit called with the payload id never opens that panel (it opens another panel or none) and delete called with it never removes that panel |
| PanelStore.UnsyncedPanelUnreachable | src/components/panels/MetricCard.tsx:77-85 | when, moreover, no panel has that payload id, edit finds nothing and delete leaves the collection unchanged |
| PanelStore.Partition | src/App.tsx:219-220 | the metric and chart views keep collection order, hold only their own type, and together hold every panel exactly once |
| PanelStore.Dashboard.constructor | src/App.tsx:126-130 | the page starts from the stored collection, or from the defaults when the slot is empty, with no dialog open |
| PanelStore.Dashboard.SetPanels | src/App.tsx:126 | every new collection is written through to the storage slot |
| PanelStore.Dashboard.AddPanel | src/App.tsx:138-141 | adding opens the editor with no panel under edit |
| PanelStore.Dashboard.EditPanel | src/App.tsx:143-149 | editing opens the editor on the first panel with the id, and does nothing when there is none |
| PanelStore.Dashboard.DeletePanel | src/App.tsx:151-154 | deleting records the pending id and opens the confirmation |
| PanelStore.Dashboard.ConfirmDelete | src/App.tsx:156-162 | with a non-empty id pending, removes every panel with it, clears the pending id, closes the dialog and writes the result to the slot; otherwise changes nothing |
| PanelStore.Dashboard.CloseDeleteDialog | src/App.tsx:359 | cancelling closes the confirmation and keeps the pending id |
| PanelStore.Dashboard.CloseModal | src/App.tsx:350 | closing the editor keeps the panel under edit |
| PanelStore.Dashboard.SavePanel | src/App.tsx:164-179 | under edit, every panel with the edited id gets the new type and data; otherwise exactly one created panel is appended after the unchanged collection; either way the result is written to the slot |
| PanelStore.Dashboard.SaveFromEditor | src/components/EditModal.tsx:97-104 | the active draft is saved under its own type, the editor closes, and well-tagged collections stay well tagged |
| PanelStore.Dashboard.Import | src/App.tsx:194-211 | a parsed array replaces the collection and is written to the slot; a non-array is ignored; a parse failure alerts and changes nothing |
| PanelStore.Dashboard.Reset | src/App.tsx:213-217 | a confirmed reset yields exactly the default collection and writes it to the slot; an unconfirmed one changes nothing |
| EditModal.UpdatePoint | src/components/EditModal.tsx:106-110 | only the chosen field of point `i` changes; the length and all other points stay |
| EditModal.AddPoint | src/components/EditModal.tsx:112-117 | one blank point `{name: "", value: 0}` is appended after the unchanged points |
| EditModal.RemovePoint | src/components/EditModal.tsx:119-124 | removal shortens the series by one exactly when it has more than 2 points and the index is in range, so a series of at least 2 points keeps at least 2 |
| EditModal.RemovePointGuard | src/components/EditModal.tsx:119-124 | with more than 2 points and `i` in range exactly point `i` goes and the rest keep their order; otherwise nothing changes; a series of at least 2 points never drops below 2 |
| EditModal.DefaultDrafts | src/components/EditModal.tsx:46-67 | the default metric draft has empty texts, neutral growth and icon BarChart3; the default chart is a line chart of 5 zero points named 2019 to 2023 |
| EditModal.Draft | src/components/EditModal.tsx:97-104 | the saved payload is the active tab's draft and its shape matches the tag |
| EditModal.EditSession.constructor | src/components/EditModal.tsx:77-79 | the editor starts on the given tab with both default drafts |
| EditModal.EditSession.Open | src/components/EditModal.tsx:81-95 | opening selects the given tab; with initial data, sets that type's draft to it and leaves the other; without, gives both drafts defaults with their own fresh ids; a closed editor changes nothing |
| EditModal.EditSession.SelectTab | src/components/EditModal.tsx:135 | switching tabs changes only the active tab |
| EditModal.EditSession.HandleSave | src/components/EditModal.tsx:97-104 | emits the metric draft tagged metric when that tab is active, the chart draft tagged chart otherwise |
| EditModal.EditSession.UpdateChartDataPoint | src/components/EditModal.tsx:106-110 | one field of one point changes; chart id, title, kind and the metric draft stay |
| EditModal.EditSession.AddChartDataPoint | src/components/EditModal.tsx:112-117 | a blank point is appended; everything else stays |
| EditModal.EditSession.RemoveChartDataPoint | src/components/EditModal.tsx:119-124 | the guarded removal applies to the series only, and a series of at least 2 points keeps at least 2 |

## Left out

- The storage hook's own code is not part of this model (`src/hooks/useLocalStorage`). The slot is modelled as "the last collection written, else nothing". Serialisation and write failures are left out.
- `JSON.parse` and `JSON.stringify` are left out, so there is no export/import round trip. Export's Blob, URL and download link are left out (`src/App.tsx:181-192`), and so are the asynchronous `FileReader` and the reset of the file input.
- An imported array is accepted unvalidated. Its elements are assumed to already be panels, so a malformed element inside a parsed array cannot be expressed here.
- Clock and locale formatting are left out: `Date.now`, the "last update" text (`src/App.tsx:131-136`) and the export file's ISO date.
- `EditModal.EditSession.Open`: when the initial payload's shape disagrees with `initialType`, the source casts it into the draft regardless. The model leaves both drafts unchanged instead, because a sum type cannot hold the mis-cast object.
- `EditModal.EditSession.UpdateChartDataPoint` requires the index to be in range. The page only passes indices of rendered points. An out-of-range write would make a sparse array, which is not modelled.
- `parseFloat(...) || 0` on the series value input is floating-point parsing and is left out. Series values are reals.
- The inline field setters of the metric draft and the chart title and kind are left out. They are JSX one-liners that copy the draft with one field replaced.
- Rendering is left out: the cards, charts, icon lookup with its fallback, growth colours, the dialogs' markup and the empty-state view.
- React's re-running of the opening effect when its dependencies change is left out. `Open` models one run.
