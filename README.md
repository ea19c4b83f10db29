# boring-table, modelled in Dafny

boring-table is a headless table engine. A plugin-extensible table object turns an array of data
items and a list of column definitions into head, body and footer rows of cells. Every change is
announced as an event, events are batched on a timer, and each flush rebuilds only the parts
that the queued events name. Plugins add fields to rows, cells and the table's `extensions`.
They filter, paginate, select, hide, swap and edit rows, or fetch the data remotely.

The repository holds three generations of the engine, and this model covers all three:

- **The prototype** (`src/index.ts`): a table whose queue is a `Map` that keeps only the latest
  payload of each event, with its filter, hidden, check and change plugins.
  Modules `PrototypeRows`, `PrototypeTable` and `PrototypePlugins`.
- **The older engine** (`src/core`, `src/plugins`):
  - the scheduler `LegacyEvents`;
  - the table `LegacyTable`, with its append-only event queue and the `compressEvents`
    decision table behind `process`;
  - the row builders `LegacyRows` and the plugin contract `LegacyPluginBase`;
  - the change, check, filter, hidden and pagination plugins (`LegacyChange`, `LegacyCheck`,
    `LegacyFilter`, `LegacyHidden`, `LegacyPagination`).
- **The package** (`packages/boring-table-core`):
  - the cancellation table and upsert (`Events`) and the scheduler `PackageEvents`;
  - the plugin base class `PluginBase`;
  - the plugins: pagination, filter, hidden, swap, fetch, and row selection with hidden rows
    (`PackagePagination`, `PackageFilter`, `PackageHidden`, `SwapRow`, `Fetch`, `RowFlags`).
  - The package plugins work against `PackageHost`, the table as its plugins see it: its fields,
    and a `dispatch` that records each event with its payload in order.

Shared modules:

- `Values`: JavaScript values, `NaN` and `Infinity` included, truthiness, and the object spreads
  that merge plugin contributions.
- `Seqs`: `Array.prototype.filter`, `slice` with negative and clamped indexes, `Math.ceil` of a
  quotient, and the exchange of two slots.
- `Strings`: `String(n)` for integers.
- `Toggles`: the per-id flag maps that the hidden and check plugins update.
- `Wrappers`: optional values.

How state is modelled:

- Objects whose fields the source updates in place are classes. Their methods state their
  whole new state.
- Timers are a `timerPending` flag, and a timer's callback is an explicit `Flush` method.
- An `await` splits a method in two: the part before it and the part after it.
- Pure specifications (`Upsert`, `Compress`, `ProcessSpec`, `CreateRow`, `Window`, `Normalize`,
  `Toggle`) carry the lemmas that state what the source promises.

## Model

| member | source | states |
|---|---|---|
| Events.CancelIrreflexiveAndOneWay | packages/boring-table-core/src/core/BoringEvents.ts:48-138 | no event cancels itself, and if `e` cancels `a` then `a` does not cancel `e` |
| Events.CancelTransitive | packages/boring-table-core/src/core/BoringEvents.ts:48-138 | the cancellation table is transitively closed |
| Events.UpdateChain | packages/boring-table-core/src/core/BoringEvents.ts:87-122 | what `update:body-rows` cancels `update:rows` cancels, and what that cancels `update:all` cancels; `update:all` cancels neither `update:rows` nor `update:custom-body` |
| Events.SectionRowsCancelTheirOwn | packages/boring-table-core/src/core/BoringEvents.ts:129-137 | each `update:<section>-rows` cancels exactly that section's row and cell events |
| Events.SectionCreatesCancelTheirOwn | packages/boring-table-core/src/core/BoringEvents.ts:75-85 | each `create:<section>-rows` cancels exactly that section's row and cell creation events |
| Events.Upsert | packages/boring-table-core/src/core/BoringEvents.ts:156-164 | after `upsetEvent(e, p)` every event `e` cancels is gone, `e` holds its old payloads plus `p` (or just `[p]`), and every other event is untouched |
| Events.ReplaySameEvent | packages/boring-table-core/src/core/BoringEvents.ts:156-164 | dispatching one event n times queues all n payloads in order |
| Events.UpsertIntoEmpty | packages/boring-table-core/src/core/BoringEvents.ts:163 | upserting into an empty queue gives the one-element queue |
| Events.CancellationIsOneWay | packages/boring-table-core/src/core/BoringEvents.ts:156-164 | for any queue, an event queued after one that cancels it leaves that one with its payloads, and an event queued after one it cancels removes it |
| PackageEvents.BoringEvents.constructor | packages/boring-table-core/src/core/BoringEvents.ts:151-154 | the initial events are queued in order through the upsert, and nothing is scheduled |
| PackageEvents.BoringEvents.UpsetEvent | packages/boring-table-core/src/core/BoringEvents.ts:156-164 | the queue becomes the upsert of the old queue; the flag and the timer are unchanged |
| PackageEvents.BoringEvents.Dispatch | packages/boring-table-core/src/core/BoringEvents.ts:166-181 | queues the event, so that `has(e)` holds and its payloads end with this one; the flag ends set, and a timer is started exactly when no batch was scheduled |
| PackageEvents.BoringEvents.Flush | packages/boring-table-core/src/core/BoringEvents.ts:175-180 | `process` sees the queue as it stood, and the events it dispatches schedule nothing; when it returns, the scheduler ends idle and empty; when it throws, the flag stays set and the queue keeps the batch plus what `process` dispatched, with no timer pending |
| PackageEvents.BoringEvents.CancelNextProcess | packages/boring-table-core/src/core/BoringEvents.ts:183-185 | clears the timer only: the flag and the queue stay as they were |
| PackageEvents.BoringEvents.Clear | packages/boring-table-core/src/core/BoringEvents.ts:195-197 | empties the queue and nothing else |
| PackageEvents.OneFlushPerBatch | packages/boring-table-core/src/core/BoringEvents.ts:166-181 | two dispatches start one timer, the flush delivers both, and afterwards nothing is queued or scheduled |
| PackageEvents.CancelledSchedulerStalls | packages/boring-table-core/src/core/BoringEvents.ts:172-185 | after `cancelNextProcess` the flag stays set, so a later dispatch starts no timer and the queue keeps growing |
| PackageEvents.ThrowingProcessStalls | packages/boring-table-core/src/core/BoringEvents.ts:172-180 | after a `process` that throws, the flag stays set with no timer, so a later dispatch only queues its payload behind the old one |
| PluginBase.MustOverrideNameAndConfigure | packages/boring-table-core/src/plugins/base.ts:79-116 | a plugin whose `name` and `configure` do not throw overrides both |
| PluginBase.InheritedHooksAreInert | packages/boring-table-core/src/plugins/base.ts:93-176 | every inherited hook besides `name` and `configure` does not throw and adds nothing to an accumulated object |
| LegacyPluginBase.Base | src/plugins/base.ts:20-61 | a plugin that overrides nothing configures to `{}`, extends with `{}` and adds no row or cell field |
| LegacyEvents.BoringEvents.constructor | src/core/BoringEvents.ts:141-148 | the queue starts empty and nothing is scheduled |
| LegacyEvents.BoringEvents.UpsetEvent | src/core/BoringEvents.ts:150-158 | the queue becomes the upsert of the old queue, which stays inside this scheduler's event names; the flag is unchanged |
| LegacyEvents.BoringEvents.Dispatch | src/core/BoringEvents.ts:160-171 | queues the event, so that `has(e)` holds and its payloads end with this one; the flag ends set, and a microtask is queued exactly when no batch was scheduled |
| LegacyEvents.BoringEvents.Flush | src/core/BoringEvents.ts:165-170 | `process` sees the queue as it stood, and what it dispatches queues no second microtask; when it returns, the scheduler ends idle and empty; when it throws, the flag stays set and the queue keeps the batch plus what `process` dispatched |
| LegacyEvents.BoringEvents.Clear | src/core/BoringEvents.ts:177-179 | empties the queue and leaves the flag alone |
| LegacyEvents.UpsertStaysInVocabulary | src/core/BoringEvents.ts:46-135 | upserting one of this scheduler's events keeps the queue inside its vocabulary |
| LegacyEvents.NoLeftoverAfterFlush | src/core/BoringEvents.ts:160-171 | after a flush, a new dispatch schedules a fresh flush and the queue holds only the new event |
| LegacyEvents.ThrowingProcessStalls | src/core/BoringEvents.ts:160-170 | after a `process` that throws, the flag stays set with no microtask, so a later dispatch only queues its payload behind the old one |
| Values.MergeKeys | src/core/BoringTable.ts:168-169 | a key is in a merge of plugin contributions exactly when some contribution has it, whichever side wins on a collision |
| Values.MergeLastWins | src/core/BoringTable.ts:168-169 | in `{ ...acc, ...b }` merges the last contribution that has a key decides its value |
| Values.MergeFirstWinsFirst | src/core/BoringTable.ts:230-232 | in `{ ...b, ...acc }` merges the first contribution that has a key decides its value |
| Values.MergeOfEmpties | src/core/BoringTable.ts:168-169 | contributions that are all `{}` merge to `{}` |
| Values.UnwrapConstantAndIdentity | src/index.ts:447-450 | a plain value ignores the previous one, and the identity function keeps it |
| Seqs.Filter | src/plugins/filter.ts:39 | `filter` keeps only elements of the input that pass, and never more of them than the input has |
| Seqs.FilterMembership | src/plugins/filter.ts:39 | an element is kept exactly when it is in the input and passes |
| Seqs.FilterIsSubsequence | src/plugins/filter.ts:39 | the kept elements keep their original order |
| Seqs.FilterAllPass | src/plugins/filter.ts:39 | when every element passes, the filter returns the input |
| Seqs.FilterIdempotent | src/plugins/filter.ts:39 | filtering twice with one predicate is filtering once |
| Seqs.SliceIndex | src/plugins/pagination.ts:41-42 | a `slice` argument becomes a position between 0 and the length, and an in-range one is kept |
| Seqs.JsSlice | src/plugins/pagination.ts:41-42 | `slice(start, end)` is the plain subsequence for in-range bounds, stops at the end of the input, and is never longer than `end - start` |
| Seqs.CeilDiv | src/plugins/pagination.ts:26 | `Math.ceil(a / b)` is the least count of `b`-sized pages holding `a` items |
| Seqs.WindowContents | src/plugins/pagination.ts:39-41 | a page holds at most a page size of items, consecutive from its offset, and is empty exactly past the last page |
| Seqs.PageInRange | src/plugins/pagination.ts:39-41 | a page starts inside the items exactly when it is one of the first `ceil(n / size)` |
| Seqs.Copy | src/plugins/filter.ts:23 | `[...a]` is a new array holding the same elements |
| Seqs.Swapped | packages/boring-table-core/src/plugins/swapRow.ts:20-24 | the two slots are exchanged and every other slot is kept |
| Seqs.SwappedTwice | packages/boring-table-core/src/plugins/swapRow.ts:20-24 | exchanging the same slots twice restores the sequence |
| Seqs.SwappedSelf | packages/boring-table-core/src/plugins/swapRow.ts:20-24 | exchanging a slot with itself changes nothing |
| Strings.NatToString | src/core/BoringTable.ts:176 | the decimal rendering of a number is a non-empty string of digits |
| Strings.IntToString | src/core/BoringTable.ts:176 | `String(n)` is never empty |
| Strings.NatToStringInjective | src/core/BoringTable.ts:176-216 | different numbers render differently |
| Strings.NoDashInDigits | src/core/BoringTable.ts:176-216 | a rendered number holds no `-` |
| Strings.DashSplit | src/core/BoringTable.ts:176-216 | joining a dash-free word and any string with `-` is unambiguous |
| Strings.PrefixedIdInjective | src/core/BoringTable.ts:176-216 | ids `cell-<index>-<rawId>` and `row-<index>-<rawId>` tell apart both the index and the id |
| Toggles.Toggle | src/plugins/hidden.ts:22-30 | with a value the flag becomes it; without one a stored flag is negated; a missing flag throws under `storedValue.hidden` and becomes `true` under `storedValue?.hidden` |
| Toggles.ToggleWithValue | src/plugins/hidden.ts:23-26 | toggling with a value stores exactly it, and repeating that changes nothing |
| Toggles.ToggleTwiceRestores | src/plugins/hidden.ts:28-29 | negating a stored flag twice restores the map |
| Toggles.ToggleMissing | packages/boring-table-core/src/plugins/hidden.ts:28-29 | a missing flag makes the unguarded read throw and the optional read store `true` |
| Toggles.ToggleOnlyChangesId | src/plugins/hidden.ts:22-30 | a toggle adds at most its own id and leaves every other flag alone |
| Toggles.Ensure | src/plugins/hidden.ts:48 | a creation hook stores `false` for a new id and never overwrites a stored flag |
| Toggles.EnsureIdempotent | src/plugins/hidden.ts:48 | running a creation hook twice is running it once |
| LegacyRows.CellExtraIsMerge | src/core/BoringTable.ts:178-195 | a cell's extras are the later-wins merge of what each plugin's cell hook returns |
| LegacyRows.CellExtraLaterWins | src/core/BoringTable.ts:189-191 | on a key several plugins set, a cell keeps the last plugin's value |
| LegacyRows.RowExtraIsMerge | src/core/BoringTable.ts:220-236 | a row's extras are the earlier-wins merge of what each plugin's row hook returns |
| LegacyRows.RowExtraEarlierWins | src/core/BoringTable.ts:230-232 | on a key several plugins set, a row keeps the first plugin's value |
| LegacyRows.InactiveSectionHasNoExtras | src/core/BoringTable.ts:180-225 | a section whose hooks `from` switches off gets no row or cell extras |
| LegacyRows.NewCell | src/core/BoringTable.ts:176-205 | a cell's id is `cell-<column>-<rawId>`, and it carries its raw id, column index and row index |
| LegacyRows.FooterColumns | src/core/BoringTable.ts:199-205 | exactly the columns that define a footer, in column order |
| LegacyRows.CellsUpTo | src/core/BoringTable.ts:174-209 | one head and one body cell per column in order, and a footer cell for each column with a footer, in order |
| LegacyRows.CreateCells | src/core/BoringTable.ts:172-211 | as many head and body cells as columns, and as many footer cells as columns with a footer |
| LegacyRows.NewRow | src/core/BoringTable.ts:215-219 | a row's id is `row-<index>-<rawId>`, with its raw id, index and cells |
| LegacyRows.CreateRow | src/core/BoringTable.ts:213-238 | the cells are built with every cell hook running, whatever `from` says; a footer row has cells exactly when some column defines a footer |
| LegacyRows.Collect | src/core/BoringTable.ts:241-255 | one head and one body row per item, in order |
| LegacyRows.CollectAllFooters | src/core/BoringTable.ts:250-251 | when every footer row has cells, all are kept in order |
| LegacyRows.CollectNoFooters | src/core/BoringTable.ts:250-251 | when no footer row has cells, the footer is empty |
| LegacyRows.CreateRows | src/core/BoringTable.ts:240-257 | the head and body rows are `createRow` of each item at its index |
| LegacyRows.CreateRowsFooter | src/core/BoringTable.ts:250-251 | the footer has one row per item when some column defines a footer, and none otherwise |
| LegacyRows.CreateRowsIndexed | src/core/BoringTable.ts:241-255 | every built row sits at the position its `index` names, in all three sections |
| LegacyRows.CreateRowIdsDistinct | src/core/BoringTable.ts:216 | rows at different positions have different ids |
| LegacyRows.CellIdsDistinct | src/core/BoringTable.ts:176 | cells of different columns have different ids |
| LegacyRows.SectionRebuildAgrees | src/core/BoringTable.ts:220-279 | rebuilding one section yields the same rows for it as a full rebuild, and the other sections get no extras |
| LegacyRows.BasePluginsAddNothing | src/core/BoringTable.ts:178-236 | plugins that override nothing add no row or cell extras |
| LegacyTable.CompressUpdateAll | src/core/BoringTable.ts:115-145 | with `update:all` queued, data and rows are updated and no section, row or cell flag is set |
| LegacyTable.CompressRowsIff | src/core/BoringTable.ts:118-134 | all rows are rebuilt exactly when `update:all` or `update:rows` is queued, or all three section events are |
| LegacyTable.CompressSectionIff | src/core/BoringTable.ts:120-130 | a section's rows or row flag is set exactly when its event is queued and neither `update:all` nor `update:rows` is |
| LegacyTable.Append | src/core/BoringTable.ts:147-153 | the payload is appended to the event's list, a new event gets a one-element list, and no other event changes |
| LegacyTable.AppendAllOneEvent | src/core/BoringTable.ts:147-153 | dispatching one event once per payload appends the payloads to its list in order and leaves the other events alone |
| LegacyTable.AppendAllConcat | src/core/BoringTable.ts:147-153 | two runs of dispatches queue what their concatenation queues |
| LegacyTable.Fresh | src/core/BoringTable.ts:288-310 | the row a row event rebuilds for a position carries that position as its index |
| LegacyTable.Locate | src/core/BoringTable.ts:285-287 | destructuring an `undefined` or `null` payload throws; only a `position` naming an existing row finds one |
| LegacyTable.RowUpdates | src/core/BoringTable.ts:281-313 | the loop keeps the section's length and indexing, and every row is either unchanged or rebuilt fresh for its position |
| LegacyTable.RowUpdatesKeepUnnamedRow | src/core/BoringTable.ts:284-290 | a row whose position no payload names is left as it was |
| LegacyTable.RowUpdatesThrowOnlyOnNullish | src/core/BoringTable.ts:285 | the loop throws only when some payload is `undefined` or `null` |
| LegacyTable.PositionlessPayloadsChangeNothing | src/core/BoringTable.ts:285-287 | payloads without a `position` key rebuild nothing and do not throw |
| LegacyTable.RowUpdatesOnFreshRows | src/core/BoringTable.ts:284-290 | a section whose rows are already the fresh ones is unchanged by row events |
| LegacyTable.RowUpdatesAfterFullRebuild | src/core/BoringTable.ts:262-313 | after a full rebuild on the same data, non-throwing row events change nothing |
| LegacyTable.ApplyRowUpdates | src/core/BoringTable.ts:284-290 | the imperative loop leaves the rows and the thrown flag that `RowUpdates` describes |
| LegacyTable.Rebuilt | src/core/BoringTable.ts:324-328 | a rebuilt section keeps every row at its index |
| LegacyTable.Patched | src/core/BoringTable.ts:330-332 | a patched section keeps every row at its index |
| LegacyTable.ProcessSpec | src/core/BoringTable.ts:319-339 | `process` keeps every section indexed |
| LegacyTable.ProcessNothingQueued | src/core/BoringTable.ts:341-345 | processing an empty queue leaves every section as it was and does not throw |
| LegacyTable.ProcessDataOnlyRebuildsNothing | src/core/BoringTable.ts:259-261 | `update:data` alone changes nothing, since `updateData` does nothing |
| LegacyTable.ProcessUpdateAll | src/core/BoringTable.ts:319-339 | with `update:all` queued, every section is rebuilt from the data whatever else is queued, and nothing throws |
| LegacyTable.ProcessRowIndexPayloads | src/core/BoringTable.ts:285-287 | a row event carrying `{ rowIndex }` leaves every section as it was |
| LegacyTable.Replaced | src/core/BoringTable.ts:289-311 | the chosen section gets the new rows and the others are kept |
| LegacyTable.ProcessOneRowEvent | src/core/BoringTable.ts:330-332 | with only one section's row event queued, only that section's row loop runs |
| LegacyTable.ProcessPositionPayload | src/core/BoringTable.ts:284-290 | a `{ position }` payload naming an existing row rebuilds exactly that row of its section |
| LegacyTable.RowUpdatesAtPosition | src/core/BoringTable.ts:285-289 | one `{ position }` payload inside the section replaces the row there with the fresh one |
| LegacyTable.ProcessUndefinedPayloadThrows | src/core/BoringTable.ts:285 | a row event without a payload makes `process` throw |
| LegacyTable.ConfigureLaterWins | src/core/BoringTable.ts:167-170 | on a key several plugins configure or extend, the last of them decides |
| LegacyTable.BoringTable.constructor | src/core/BoringTable.ts:96-113 | the table is configured, `update:all` is queued and the timer is set |
| LegacyTable.BoringTable.Configure | src/core/BoringTable.ts:167-170 | config and extensions are the later-wins merge of the plugins' results, and nothing else changes |
| LegacyTable.BoringTable.Dispatch | src/core/BoringTable.ts:155-165 | the payload is appended, and the timer is set only by the first dispatch of a batch |
| LegacyTable.BoringTable.UpdateSectionRow | src/core/BoringTable.ts:281-313 | one section's rows become what `RowUpdates` gives, and the other sections do not change |
| LegacyTable.BoringTable.Rebuild | src/core/BoringTable.ts:262-279 | each section becomes its `Rebuilt` value |
| LegacyTable.BoringTable.PatchSection | src/core/BoringTable.ts:330-332 | one section becomes its `Patched` value |
| LegacyTable.BoringTable.Process | src/core/BoringTable.ts:319-339 | the sections and the thrown flag are those `ProcessSpec` gives for the queued events |
| LegacyTable.BoringTable.Flush | src/core/BoringTable.ts:159-163 | the timer callback processes the queue, then clears the flag and the queue unless `process` threw |
| LegacyTable.BoringTable.Reset | src/core/BoringTable.ts:341-345 | the queue holds only what the plugins dispatch in `onReset`; the data is the array `onReset` leaves (the change plugin's stored data), and the sections are what processing the queue gives on it; those dispatches set the flag and start a timer only if no batch was scheduled; columns, plugins, config and extensions are untouched |
| LegacyTable.ThrowingFlushStalls | src/core/BoringTable.ts:155-165 | after a throwing `process`, the flag stays set with no timer pending, so a later dispatch schedules nothing |
| LegacyChange.ChangePlugin.constructor | src/plugins/change.ts:8-14 | a new plugin has no table and empty initial data |
| LegacyChange.ChangePlugin.Configure | src/plugins/change.ts:16-21 | the plugin keeps the table and the table's own data array, not a copy |
| LegacyChange.ChangePlugin.ConfigureCopying | src/plugins/change.ts:16-21 | corrected `configure`: the plugin keeps a fresh copy of the data |
| LegacyChange.ChangePlugin.ChangeData | src/plugins/change.ts:23-26 | one slot of the data array is written in place, and `update:body-row` with `{ rowIndex }` is queued; without a table nothing happens |
| LegacyChange.ChangePlugin.ChangeDataAt | src/plugins/change.ts:23-26 | corrected `changeData`: the same write, with the payload `{ position }` the table reads |
| LegacyChange.ChangePlugin.Change | src/plugins/change.ts:28-38 | the value written is the updater applied to the value stored at the row's index |
| LegacyChange.ChangePlugin.OnCreateBodyRow | src/plugins/change.ts:40-42 | the row gets exactly one extra, its `change` closure |
| LegacyChange.ChangePlugin.OnReset | src/plugins/change.ts:47-51 | the table's data becomes the stored array and `update:data` is queued |
| LegacyChange.OnUpdateBodyRow | src/plugins/change.ts:43-45 | the row gets a `change` closure again and keeps its id, index, cells and every other extra |
| LegacyChange.ResetKeepsChanges | src/plugins/change.ts:16-51 | as written, a reset after a change keeps the changed value |
| LegacyChange.CopyingResetRestores | src/plugins/change.ts:16-51 | with the copying `configure`, a reset restores the configured value |
| LegacyChange.BuiltTable | src/core/BoringTable.ts:96-163 | a table over one item, once its first batch is flushed, has its body built from the data and nothing queued |
| LegacyChange.ChangeLeavesRowStale | src/plugins/change.ts:23-26 | as written, the flush after `changeData` leaves the body as it was built from the old data, although the data changed |
| LegacyChange.PositionedChangeRebuildsRow | src/plugins/change.ts:23-26 | with a `{ position }` payload, the flush rebuilds the changed row from the new data |
| LegacyCheck.NegatedTwice | src/plugins/check.ts:26-59 | toggling twice restores the flag's truth value, and a created row exactly; a toggle touches no other field |
| LegacyCheck.ClearedAfterToggles | src/plugins/check.ts:85-98 | a reset clears the flag whatever toggles came before, clearing twice is clearing once, and the index is kept |
| LegacyCheck.HeadCellExtra | src/plugins/check.ts:61-66 | a head cell's `check` is true exactly when the flag it is handed is truthy |
| LegacyCheck.HeadCellKeepsRowFlag | src/plugins/check.ts:44-66 | a cell handed a normalised row flag reports that flag |
| LegacyCheck.Added | src/plugins/check.ts:32-40 | `Set.add`: the object is then tracked, and an object already tracked keeps its place |
| LegacyCheck.ClearAll | src/plugins/check.ts:86-97 | every tracked object of a section has its flag cleared and keeps its other fields |
| LegacyCheck.DispatchAll | src/plugins/check.ts:88-96 | the event is queued once per payload, in order, and the sections do not change |
| LegacyCheck.CheckPlugin.constructor | src/plugins/check.ts:9-18 | a new plugin has no table and tracks nothing |
| LegacyCheck.CheckPlugin.Configure | src/plugins/check.ts:20-24 | the plugin keeps the table, contributes nothing, and tracks what it tracked |
| LegacyCheck.CheckPlugin.ToggleCheck | src/plugins/check.ts:26-29 | the flag is negated and the event is queued with the object's `rowIndex`; without a table nothing is queued |
| LegacyCheck.CheckPlugin.ToggleSection | src/plugins/check.ts:31-42 | the object joins its section's tracked set only, is toggled, and the section's row event is queued |
| LegacyCheck.CheckPlugin.OnCreateRow | src/plugins/check.ts:44-59 | the handed object gets its flag read as a boolean and a toggle, and the row the table keeps gets nothing |
| LegacyCheck.CheckPlugin.ResetCheck | src/plugins/check.ts:85-98 | every tracked object ends with its flag false, and one row event per tracked object is queued: head, then body, then footer |
| LegacyCheck.CheckPlugin.ClearTracked | src/plugins/check.ts:86-97 | every object tracked in any section has its flag cleared, even one tracked twice |
| LegacyCheck.ResetQueues | src/plugins/check.ts:85-98 | after a reset each row event's queue gains the tracked objects' indices, in order |
| LegacyFilter.SelectedInOrder | src/plugins/filter.ts:33-41 | the selection keeps the initial order and holds an item exactly when the predicate accepts it; with no filter string it is the initial data |
| LegacyFilter.SelectedIdempotent | src/plugins/filter.ts:39 | selecting again from the selection gives it back |
| LegacyFilter.FilterPlugin.constructor | src/plugins/filter.ts:8-19 | priority 1, the user's predicate, and no table, filter string or data yet |
| LegacyFilter.FilterPlugin.Configure | src/plugins/filter.ts:21-26 | the plugin keeps the table and a fresh copy of its data |
| LegacyFilter.FilterPlugin.SetFilter | src/plugins/filter.ts:28-31 | the filter string is stored and `update:data` is queued |
| LegacyFilter.FilterPlugin.BeforeCreate | src/plugins/filter.ts:33-41 | the table gets the initial array itself when there is no filter string, and otherwise a new array of the accepted initial items; the initial data is kept |
| LegacyFilter.FilterPlugin.Extend | src/plugins/filter.ts:43-45 | the extension is the `filter` setter alone |
| LegacyFilter.BeforeCreateTwice | src/plugins/filter.ts:33-41 | with a fixed filter string, a second `beforeCreate` gives the table what the first did: the accepted items of the original data |
| LegacyHidden.HiddenRowPlugin.constructor | src/plugins/hidden.ts:8-14 | a new plugin has no table and no flags |
| LegacyHidden.HiddenRowPlugin.Configure | src/plugins/hidden.ts:16-20 | the plugin keeps the table and contributes nothing |
| LegacyHidden.HiddenRowPlugin.Toggle | src/plugins/hidden.ts:22-30 | a given value is stored; otherwise the flag is negated, and negating an unknown id throws and changes nothing |
| LegacyHidden.HiddenRowPlugin.ToggleSection | src/plugins/hidden.ts:32-45 | the toggle, then the section's row event with `{ position }`; a throwing toggle queues nothing |
| LegacyHidden.HiddenRowPlugin.OnCreateRow | src/plugins/hidden.ts:47-63 | an unseen id starts shown, a known one keeps its flag, and the row gets the flag and its toggle |
| LegacyHidden.SectionsShareOneFlag | src/plugins/hidden.ts:37-51 | hiding a body row hides the head row of the same item the next time it is built |
| LegacyPagination.PaginationPlugin.constructor | src/plugins/pagination.ts:8-20 | priority 100, any natural page size including 0, page 1, and zero counts |
| LegacyPagination.PaginationPlugin.Configure | src/plugins/pagination.ts:22-29 | a missing table throws; otherwise the items are counted and the page count is `Math.ceil` of items over page size, `Infinity` or `NaN` for size 0 |
| LegacyPagination.PaginationPlugin.UpdatePage | src/plugins/pagination.ts:38-43 | the page is the current window of the given rows, or of the body, and `update:extensions` is queued |
| LegacyPagination.PaginationPlugin.OnUpdateData | src/plugins/pagination.ts:31-36 | the counts come from the new data, a page past a finite count falls back to 1 (never against `Infinity` or `NaN`), and the body is sliced again |
| LegacyPagination.PaginationPlugin.AfterCreateBodyRows | src/plugins/pagination.ts:45-52 | the counts come from the body, not from the given rows, and the page is sliced from the given rows or the body |
| LegacyPagination.PaginationPlugin.OnUpdateBody | src/plugins/pagination.ts:54-64 | each body update only queues `update:extensions` |
| LegacyPagination.PaginationPlugin.SetPage | src/plugins/pagination.ts:66-70 | any number becomes the current page, with no bounds check, and `update:extensions` is queued twice |
| LegacyPagination.PaginationPlugin.SetPageChecked | src/plugins/pagination.ts:66-70 | corrected `setPage`: a page below 1 or past a finite count is ignored, so a page in range stays in range |
| LegacyPagination.PaginationPlugin.NextPage | src/plugins/pagination.ts:72-78 | moves on one page exactly when `currentPage < totalPages`, always against `Infinity` and never against `NaN`; a page in range stays in range; no move queues nothing |
| LegacyPagination.PaginationPlugin.PrevPage | src/plugins/pagination.ts:80-86 | moves back one page unless on the first; a page in range stays in range; no move queues nothing |
| LegacyPagination.PaginationPlugin.Extension | src/plugins/pagination.ts:101-112 | the eight keys, with the counters and the page as they are now; `totalPages` is a number, `Infinity` or `NaN` |
| LegacyPagination.PaginationPlugin.AssignedExtensions | src/plugins/pagination.ts:88-99 | the plugin's keys are written over the extensions and every other key is kept |
| LegacyPagination.PageFits | src/plugins/pagination.ts:38-43 | a page holds at most `pageSize` consecutive rows, and has rows exactly when it is one of the `totalPages` pages |
| LegacyPagination.EveryRowOnItsPage | src/plugins/pagination.ts:26-41 | every row lies on the page its position gives it, within the page count |
| LegacyPagination.NegativePageCountsFromEnd | src/plugins/pagination.ts:66-70 | as written, `setPage(-1)` over three rows of page size 1 shows the middle row instead of nothing |
| LegacyPagination.ZeroPageSize | src/plugins/pagination.ts:16-86 | with page size 0 every page is empty, the count is `Infinity` with items (so `nextPage` always moves) and `NaN` without (so it never does), and no page is past it |
| PrototypeRows.NewCell | src/index.ts:179-197 | a cell's id is `cell-<column>-<rawId>`, and its extras are the later-wins merge of the cell hooks, each handed the extras so far with the identity fields on top |
| PrototypeRows.CellsUpTo | src/index.ts:177-205 | one head and one body cell per column, in column order |
| PrototypeRows.FooterCellsUpTo | src/index.ts:195-201 | the footer cells are those of the columns with a footer accessor, in column order |
| PrototypeRows.CreateCells | src/index.ts:175-207 | as many head and body cells as columns |
| PrototypeRows.CellIdsDistinct | src/index.ts:179 | cells of different columns have different ids |
| PrototypeRows.NewRow | src/index.ts:211-228 | a row's id is `row-<index>-<rawId>`, and its extras are the earlier-wins merge of the row hooks |
| PrototypeRows.CreateRow | src/index.ts:209-230 | the three rows carry the head, body and footer cells of the item |
| PrototypeRows.FooterRowHasCells | src/index.ts:195-215 | a footer row has cells exactly when some column has a footer accessor |
| PrototypeRows.Collect | src/index.ts:233-243 | one head and one body row per item, in order |
| PrototypeRows.CollectFooters | src/index.ts:238-239 | the footer keeps every footer row when all have cells, and none when none has |
| PrototypeRows.CreateRows | src/index.ts:232-245 | the head and body rows are `createRow` of each item at its index |
| PrototypeRows.CreateRowsFooter | src/index.ts:238-239 | the footer has one row per item when some column defines a footer, and none otherwise |
| PrototypeRows.RowIdsDistinct | src/index.ts:212 | rows at different positions have different ids |
| PrototypeRows.CellExtraOverridesIdentity | src/index.ts:193-198 | an extra a hook returns for a cell wins over the cell's own fields in the cell object |
| PrototypeTable.Table.constructor | src/index.ts:152-168 | the table is configured and nothing is queued or scheduled: no rows exist yet |
| PrototypeTable.Table.Configure | src/index.ts:170-173 | config and extensions are the later-wins merge of the plugins' results |
| PrototypeTable.Table.Dispatch | src/index.ts:141-150 | the event's payload replaces any earlier one, and only the first dispatch of a batch sets the timer |
| PrototypeTable.Table.Process | src/index.ts:247-256 | every section is replaced by what `createRows` builds from the data; the dispatches of the creation hooks go through `dispatch`, so they are queued with the latest payload winning and start a timer exactly when no batch was scheduled |
| PrototypeTable.Table.SetSections | src/index.ts:252-254 | the three sections become the given rows and nothing else changes |
| PrototypeTable.Table.Flush | src/index.ts:145-148 | the timer callback rebuilds every section and clears the flag; the queue is never emptied: it keeps the batch and gains the creation hooks' dispatches, which start no second timer |
| PrototypeTable.Table.Reset | src/index.ts:258-262 | the queue holds the latest payload of each event the plugins dispatch in `onReset` and then the creation hooks in `process()`; the data is the array `onReset` leaves, every section is rebuilt from it; the flag and the timer follow those dispatches |
| PrototypeTable.ReplayedKeepsLast | src/index.ts:141-142 | after a run of dispatches, each event holds the payload of its last dispatch |
| PrototypeTable.LatestPayloadWins | src/index.ts:141-150 | two dispatches of one event leave only the second payload, and the flush keeps it queued |
| PrototypeTable.CreationDispatchSchedulesAfterReset | src/index.ts:141-150 | a creation hook's dispatch during an idle table's `reset()` schedules a second `process()`, whose own dispatch starts no further timer and leaves the table idle |
| PrototypePlugins.FilteredSelectsInOrder | src/index.ts:297-303 | the filtered data keeps the initial order and holds an item exactly when its name includes the filter string; with none it is the initial data |
| PrototypePlugins.FilteredIdempotent | src/index.ts:302 | filtering the filtered data again gives it back |
| PrototypePlugins.FilterPlugin.constructor | src/index.ts:276-282 | a new plugin has no table, no filter string and no data |
| PrototypePlugins.FilterPlugin.Configure | src/index.ts:284-288 | the plugin keeps the table and a fresh copy of its data |
| PrototypePlugins.FilterPlugin.SetFilter | src/index.ts:290-295 | the filter string is stored and the three row events are queued |
| PrototypePlugins.FilterPlugin.BeforeCreate | src/index.ts:297-303 | the table gets the initial array itself without a filter string, else a new array of the matching items; the initial data is kept |
| PrototypePlugins.HiddenPlugin.constructor | src/index.ts:310-313 | a new plugin has no table and no flags |
| PrototypePlugins.HiddenPlugin.Configure | src/index.ts:315-318 | the plugin keeps the table and contributes nothing |
| PrototypePlugins.HiddenPlugin.Toggle | src/index.ts:320-328 | a given value is stored; otherwise the flag is negated, and negating an unknown id throws and changes nothing |
| PrototypePlugins.HiddenPlugin.OnCreateRow | src/index.ts:330-349 | an unseen id starts shown, the stored flag is returned with a toggle, and the section's row event is queued |
| PrototypePlugins.CheckPlugin.constructor | src/index.ts:351-354 | a new plugin has no table and no flags |
| PrototypePlugins.CheckPlugin.Configure | src/index.ts:356-359 | the plugin keeps the table and contributes nothing |
| PrototypePlugins.CheckPlugin.Toggle | src/index.ts:361-372 | a given value is stored and nothing is queued; otherwise the flag is negated (an unknown id throws) and the three row events are queued |
| PrototypePlugins.CheckPlugin.OnCreateRow | src/index.ts:374-408 | an unseen id starts unchecked, the stored flag is returned with a toggle, and the section's row event is queued |
| PrototypePlugins.CheckPlugin.OnCreateCell | src/index.ts:381-414 | body cells keep their own `cell-<rawId>` flag, head and footer cells share their row's flag, and the section's cell event is queued |
| PrototypePlugins.CheckPlugin.OnReset | src/index.ts:416-422 | every flag is forgotten and the three row events are queued |
| PrototypePlugins.ChangePlugin.constructor | src/index.ts:429-432 | a new plugin has no table and no stored data |
| PrototypePlugins.ChangePlugin.Configure | src/index.ts:434-438 | the plugin keeps the table and a fresh copy of its data |
| PrototypePlugins.ChangePlugin.ChangeData | src/index.ts:440-445 | one slot of the data array is written in place and the three row events are queued |
| PrototypePlugins.ChangePlugin.Change | src/index.ts:447-457 | the value written is the updater applied to the value at the row's position |
| PrototypePlugins.ChangePlugin.OnCreateBodyRow | src/index.ts:458-460 | the row gets its `change` closure |
| PrototypePlugins.ChangePlugin.OnReset | src/index.ts:462-468 | the table's data becomes the stored array itself, and the three row events are queued |
| PrototypePlugins.ChangePlugin.OnResetCopying | src/index.ts:462-468 | corrected `onReset`: the table gets a fresh copy of the stored data |
| PrototypePlugins.ResetRestoresOnlyOnce | src/index.ts:434-468 | as written, the first reset restores the data, but a change after it survives the second reset |
| PrototypePlugins.CopyingResetAlwaysRestores | src/index.ts:434-468 | with the copying reset, every reset restores the configured data |
| PrototypePlugins.ResetAfterChangeRebuildsFromInitial | src/index.ts:258-262 | a `reset()` after `changeData` rebuilds every section from the configured data and schedules a flush, because the change plugin's `onReset` hands the table its stored array |
| RowFlags.NamesOf | packages/boring-table-core/src/plugins/RowSelection.ts:8-13 | the names a variant uses are pairwise distinct where the plugin's object literals need them to be |
| RowFlags.HeadRowsUpdatesCounted | packages/boring-table-core/src/plugins/RowSelection.ts:26-35 | `updateUtils` appends one `update:head-rows` per summary flag that changed |
| RowFlags.ToggleEventsCounted | packages/boring-table-core/src/plugins/RowSelection.ts:37-60 | a toggle appends the row event, one head-row update per changed flag, then the extensions event; a batch appends its three events |
| RowFlags.MarkEffectIs | packages/boring-table-core/src/plugins/RowSelection.ts:37-40 | the row ends marked with the value, or with the negation of its mark; the map holds its id exactly when it is marked; nothing else changes |
| RowFlags.ToggleTwiceRestores | packages/boring-table-core/src/plugins/RowSelection.ts:37-40 | two toggles without a value of a row that agrees with the map restore the row's mark and the map |
| RowFlags.SetField | packages/boring-table-core/src/plugins/RowSelection.ts:48 | every row gets the field set and keeps its other fields |
| RowFlags.FlagPlugin.constructor | packages/boring-table-core/src/plugins/RowSelection.ts:8-18 | names of the variant, default priority, no table, nothing marked, both flags false |
| RowFlags.FlagPlugin.Configure | packages/boring-table-core/src/plugins/RowSelection.ts:20-24 | the plugin keeps the table and contributes nothing |
| RowFlags.FlagPlugin.UpdateUtils | packages/boring-table-core/src/plugins/RowSelection.ts:26-35 | the flags become current (some: the map is not empty; every: the map has at least as many entries as the body has rows, and some), with one `update:head-rows` per flag that changed unless the event is ignored |
| RowFlags.FlagPlugin.RefreshFlags | packages/boring-table-core/src/plugins/RowSelection.ts:26-35 | the flags become current and nothing is dispatched |
| RowFlags.FlagPlugin.SetMark | packages/boring-table-core/src/plugins/RowSelection.ts:38-40 | the mark is set and the map gains or loses the id; a body with unique ids keeps agreeing with the map |
| RowFlags.FlagPlugin.ToggleBody | packages/boring-table-core/src/plugins/RowSelection.ts:37-44 | the mark and the map change as `MarkEffect` says, the flags become current, the row event, head-row updates and extensions are dispatched unless ignored, and agreement with a body of unique ids is kept |
| RowFlags.FlagPlugin.ToggleQuietly | packages/boring-table-core/src/plugins/RowSelection.ts:37-44 | a toggle with the event ignored: the mark and the map change and nothing is dispatched |
| RowFlags.FlagPlugin.Announce | packages/boring-table-core/src/plugins/RowSelection.ts:41-43 | the row event, the head-row updates of the flags that changed, then the extensions event |
| RowFlags.FlagPlugin.ToggleRows | packages/boring-table-core/src/plugins/RowSelection.ts:56-74 | each row's mark becomes what is wanted for its id, and the map's ids become `KeysAfter` of the rows |
| RowFlags.FlagPlugin.ToggleStep | packages/boring-table-core/src/plugins/RowSelection.ts:56-74 | one turn of the loop keeps the loop's progress predicate |
| RowFlags.FlagPlugin.MarkAll | packages/boring-table-core/src/plugins/RowSelection.ts:55-60 | every body row is marked, the map gains all their ids, the flags say some (and every, when ids are unique), and the three batch events follow |
| RowFlags.FlagPlugin.DispatchBatch | packages/boring-table-core/src/plugins/RowSelection.ts:57-59 | `update:body-rows`, `update:head-rows`, `update:extensions`, in that order |
| RowFlags.FlagPlugin.Settle | packages/boring-table-core/src/plugins/RowSelection.ts:75-78 | the flags become current and the three batch events follow |
| RowFlags.FlagPlugin.ResetMarks | packages/boring-table-core/src/plugins/RowSelection.ts:46-53 | the map is emptied, every body row loses its mark, both flags are false, and the three batch events follow |
| RowFlags.FlagPlugin.AfterCreateBodyRows | packages/boring-table-core/src/plugins/RowSelection.ts:71-79 | the map keeps exactly its ids that occur among the new rows, each new row is marked exactly when its id was in the map, and the three batch events follow |
| RowFlags.FlagPlugin.KeepMarks | packages/boring-table-core/src/plugins/RowSelection.ts:72-74 | the loop of `afterCreateBodyRows`: the map keeps its ids among the rows, and the rows agree with it |
| RowFlags.FlagPlugin.OnCreateBodyRow | packages/boring-table-core/src/plugins/RowSelection.ts:88-91 | the row is marked exactly when the map holds its id, and gets that mark and its toggle |
| RowFlags.FlagPlugin.HeadRowExtra | packages/boring-table-core/src/plugins/RowSelection.ts:62-69 | the two flags as they are now, and the two batch actions |
| RowFlags.FlagPlugin.OnUpdateHeadRows | packages/boring-table-core/src/plugins/RowSelection.ts:81-86 | every head row shows the two flags and keeps its other fields |
| RowFlags.FlagPlugin.MarkedRows | packages/boring-table-core/src/plugins/RowSelection.ts:98-99 | the body rows whose id is in the map, in body order; none without a table |
| RowFlags.FlagPlugin.Extension | packages/boring-table-core/src/plugins/RowSelection.ts:93-107 | the two batch actions, the marked rows as they are now, and the two flags |
| RowFlags.Snapshot | packages/boring-table-core/src/plugins/RowSelection.ts:99-103 | one object value per row, with the row's current fields |
| RowFlags.MarkedRowsAreMarked | packages/boring-table-core/src/plugins/RowSelection.ts:97-107 | when the map and the body agree, the listed rows are exactly the marked body rows |
| RowFlags.KeysAfterIs | packages/boring-table-core/src/plugins/RowSelection.ts:56-74 | after a loop of toggles the ids are those not among the rows, plus the wanted ids among them, whatever the order |
| RowFlags.AllMarked | packages/boring-table-core/src/plugins/RowSelection.ts:55-60 | marking every row adds all their ids; with rows the map is not empty, and with unique ids it is at least as large as the body |
| RowFlags.KeptMarks | packages/boring-table-core/src/plugins/RowSelection.ts:72-74 | from an empty map, marking the rows whose ids were marked before keeps exactly those ids among the rows |
| RowFlags.MarksAgree | packages/boring-table-core/src/plugins/RowSelection.ts:74-89 | rows each marked exactly when their id is in a set agree with that set's ids among them |
| Values.CountPages | packages/boring-table-core/src/plugins/pagination.ts:65-74 | `Math.ceil(items / size)`: a page count covering the items when the size is positive, `Infinity` for items over size 0, and `NaN` for `0 / 0` |
| PackagePagination.MovesStayInRange | packages/boring-table-core/src/plugins/pagination.ts:32-51 | with a finite count, none of the three moves leaves `1..totalPages` |
| PackagePagination.MovesAreBounded | packages/boring-table-core/src/plugins/pagination.ts:32-51 | each move goes one page, or to the page asked for, exactly when that stays in range, and stays put otherwise |
| PackagePagination.NextPrevRoundTrip | packages/boring-table-core/src/plugins/pagination.ts:32-44 | one page forward and back again, or back and forward again, returns to the page |
| PackagePagination.SetPageIdempotent | packages/boring-table-core/src/plugins/pagination.ts:46-51 | asking for the current page changes nothing, and asking twice is asking once |
| PackagePagination.PaginationPlugin.constructor | packages/boring-table-core/src/plugins/pagination.ts:12-24 | priority `SHOULD_BE_LAST`; the `page` and `pageSize` options replace the defaults 1 and 0 only when given and not 0 |
| PackagePagination.PaginationPlugin.Configure | packages/boring-table-core/src/plugins/pagination.ts:26-30 | the plugin keeps the table and contributes nothing |
| PackagePagination.PaginationPlugin.AnnounceMove | packages/boring-table-core/src/plugins/pagination.ts:35-36 | `update:custom-body`, then `update:extensions` |
| PackagePagination.PaginationPlugin.NextPage | packages/boring-table-core/src/plugins/pagination.ts:32-37 | the page moves on one, announced, unless it is at or past the last page |
| PackagePagination.PaginationPlugin.PrevPage | packages/boring-table-core/src/plugins/pagination.ts:39-44 | the page moves back one, announced, unless it is the first or before it |
| PackagePagination.PaginationPlugin.SetPage | packages/boring-table-core/src/plugins/pagination.ts:46-51 | the page becomes the one asked for, announced, unless that lies outside `1..totalPages` |
| PackagePagination.PaginationPlugin.FistPage | packages/boring-table-core/src/plugins/pagination.ts:53-55 | `setPage(1)`: page 1 whenever there is at least one page |
| PackagePagination.PaginationPlugin.LastPage | packages/boring-table-core/src/plugins/pagination.ts:57-59 | `setPage(totalPages)`: the last page whenever there is at least one |
| PackagePagination.PaginationPlugin.Recount | packages/boring-table-core/src/plugins/pagination.ts:63-74 | back to page 1 when the number of rows changed; the rows are counted and the pages derived |
| PackagePagination.PaginationPlugin.AfterCreateBodyRows | packages/boring-table-core/src/plugins/pagination.ts:61-69 | a page size of 0 becomes the number of rows, the rows are recounted, and `update:extensions` and `update:custom-body` follow |
| PackagePagination.PaginationPlugin.OnUpdateCustomBody | packages/boring-table-core/src/plugins/pagination.ts:71-77 | the rows are recounted and the custom body becomes the current page's window of itself |
| PackagePagination.PaginationPlugin.Extension | packages/boring-table-core/src/plugins/pagination.ts:83-95 | the counters as they are now, `totalPages` as a number, `Infinity` or `NaN`, and the five moves |
| PackagePagination.PaginationPlugin.AssignedExtensions | packages/boring-table-core/src/plugins/pagination.ts:79-81 | the plugin's keys are written over the extensions and every other key is kept |
| PackagePagination.PageFits | packages/boring-table-core/src/plugins/pagination.ts:75 | the page holds at most a page size of consecutive rows from its offset, and is empty exactly when it lies past the last page |
| PackagePagination.NoSizeNoRows | packages/boring-table-core/src/plugins/pagination.ts:75 | with page size 0 every page is empty |
| PackagePagination.NotANumberNeverStops | packages/boring-table-core/src/plugins/pagination.ts:33-65 | with no rows and no page size the count is `NaN` and `nextPage` moves from page 1 to page 2 |
| PackageFilter.KeptInOrder | packages/boring-table-core/src/plugins/filter.ts:67-71 | the kept rows keep their order, and a row is kept exactly when the predicate accepts it with its item and the criteria |
| PackageFilter.KeptIdempotent | packages/boring-table-core/src/plugins/filter.ts:67-71 | filtering the kept rows again keeps all of them |
| PackageFilter.FilterPlugin.constructor | packages/boring-table-core/src/plugins/filter.ts:13-34 | priority `HIGHEST`, the predicate and initial criteria from the options, and a debounce time defaulting to 0 |
| PackageFilter.FilterPlugin.Configure | packages/boring-table-core/src/plugins/filter.ts:36-39 | the plugin keeps the table and contributes nothing |
| PackageFilter.FilterPlugin.SetCriteria | packages/boring-table-core/src/plugins/filter.ts:41-56 | the criteria become the value or the function of the old criteria; `update:extensions` follows, and `update:custom-body` at once only without a debounce time |
| PackageFilter.FilterPlugin.AfterCreateBodyRows | packages/boring-table-core/src/plugins/filter.ts:58-61 | `update:custom-body` is dispatched |
| PackageFilter.FilterPlugin.OnUpdateBodyRows | packages/boring-table-core/src/plugins/filter.ts:63-65 | `update:custom-body` is dispatched |
| PackageFilter.FilterPlugin.OnUpdateCustomBody | packages/boring-table-core/src/plugins/filter.ts:67-71 | the custom body becomes its rows the predicate accepts, in order |
| PackageFilter.FilterPlugin.Extension | packages/boring-table-core/src/plugins/filter.ts:77-82 | the `filter` setter and the current criteria |
| PackageFilter.FilterPlugin.AssignedExtensions | packages/boring-table-core/src/plugins/filter.ts:73-75 | the plugin's keys are written over the extensions and every other key is kept |
| PackageFilter.FilterTwice | packages/boring-table-core/src/plugins/filter.ts:67-71 | with fixed criteria, a second rebuild of the custom body leaves what the first left |
| PackageHidden.HiddenRowPlugin.constructor | packages/boring-table-core/src/plugins/hidden.ts:8-14 | a new plugin has no flags and no table |
| PackageHidden.HiddenRowPlugin.Configure | packages/boring-table-core/src/plugins/hidden.ts:16-20 | the plugin keeps the table and contributes nothing |
| PackageHidden.HiddenRowPlugin.ToggleSection | packages/boring-table-core/src/plugins/hidden.ts:22-45 | the flag becomes the value, or its negation with a missing flag read as shown; with a table, the section's row event with `{ rowIndex }` follows |
| PackageHidden.HiddenRowPlugin.OnCreateRow | packages/boring-table-core/src/plugins/hidden.ts:47-63 | a new id starts shown, a known one keeps its flag, and the row gets the flag and its toggle |
| PackageHidden.ShownAfterToggle | packages/boring-table-core/src/plugins/hidden.ts:22-51 | a row created after a toggle shows the value given, or the negation of the flag before |
| PackageHidden.ToggleFlipsShownFlag | packages/boring-table-core/src/plugins/hidden.ts:22-51 | creating a row twice shows the same flag, one toggle shows the opposite, and a second toggle restores it |
| SwapRow.SwappedBodyIs | packages/boring-table-core/src/plugins/swapRow.ts:18-27 | both slots are exchanged and no other slot changes; swapping a row with itself changes nothing |
| SwapRow.SwapTwiceRestores | packages/boring-table-core/src/plugins/swapRow.ts:18-27 | swapping the same two slots again restores the body |
| SwapRow.SwapRowPlugin.constructor | packages/boring-table-core/src/plugins/swapRow.ts:4-9 | a new plugin has no table |
| SwapRow.SwapRowPlugin.Configure | packages/boring-table-core/src/plugins/swapRow.ts:11-14 | the plugin keeps the table and contributes nothing |
| SwapRow.SwapRowPlugin.OnCreateBodyRow | packages/boring-table-core/src/plugins/swapRow.ts:16-29 | the row gets exactly its `swap` closure |
| SwapRow.SwapRowPlugin.Swap | packages/boring-table-core/src/plugins/swapRow.ts:18-27 | the body's two slots are exchanged, `update:body-rows` is dispatched, and the rest of the table is unchanged; without a table nothing happens |
| PackageHost.RowUpdate | packages/boring-table-core/src/plugins/hidden.ts:32-45 | each section's row event is one of the three row-update events |
| PackageHost.Table.Dispatch | packages/boring-table-core/src/types/index.ts:41 | a dispatch is appended to the table's log after everything dispatched before, and changes nothing else |
| Fetch.AsMap | packages/boring-table-core/src/plugins/Fetch.ts:70 | an object read as a dictionary has exactly the keys of its entries |
| Fetch.AsMapAt | packages/boring-table-core/src/plugins/Fetch.ts:70 | every entry of an object with distinct keys is what the dictionary holds under its key |
| Fetch.IndexOf | packages/boring-table-core/src/plugins/Fetch.ts:64 | a key of the object is found at a position whose entry carries that key |
| Fetch.UpdateKeepsKeys | packages/boring-table-core/src/plugins/Fetch.ts:64 | writing a parameter's value in place keeps the keys distinct |
| Fetch.UpdateAt | packages/boring-table-core/src/plugins/Fetch.ts:64 | writing an entry's value in place writes that key of the dictionary and no other |
| Fetch.DroppedExactly | packages/boring-table-core/src/plugins/Fetch.ts:79 | a value is left out of the query exactly when it is `null`, `undefined` or the empty string; every number is kept |
| Fetch.ValuesOf | packages/boring-table-core/src/plugins/Fetch.ts:69-74 | `getQueryParams()` has one entry per parameter, in order, holding its key and its value field |
| Fetch.ValuesOfAsMap | packages/boring-table-core/src/plugins/Fetch.ts:69-74 | as dictionaries, `getQueryParams()` has the parameters' keys and reads each one's value field |
| Fetch.Normalize | packages/boring-table-core/src/plugins/Fetch.ts:76-81 | the normalized query uses only keys of the parameters and holds no empty string |
| Fetch.QueryMapAdd | packages/boring-table-core/src/plugins/Fetch.ts:78-80 | one more key adds to the query exactly when its value is not left out |
| Fetch.NormalizeIsQuery | packages/boring-table-core/src/plugins/Fetch.ts:76-81 | the query holds exactly the keys whose values are not left out, each with `String(value)` |
| Fetch.NormalizeKeepsStrings | packages/boring-table-core/src/plugins/Fetch.ts:76-81 | non-empty string values pass through normalization unchanged and in order |
| Fetch.NormalizeIdempotent | packages/boring-table-core/src/plugins/Fetch.ts:76-81 | normalizing a normalized query changes nothing |
| Fetch.WithValueIs | packages/boring-table-core/src/plugins/Fetch.ts:64 | `setQueryParam` keeps every key in place and every `requestOnChange`, and changes the value of its key only |
| Fetch.FetchPlugin.constructor | packages/boring-table-core/src/plugins/Fetch.ts:28-40 | `fetchOnMount` defaults to true, not loading, and the initial values are the extensions when given, else none |
| Fetch.FetchPlugin.Configure | packages/boring-table-core/src/plugins/Fetch.ts:42-45 | the table is kept and nothing is contributed |
| Fetch.FetchPlugin.SetQueryParams | packages/boring-table-core/src/plugins/Fetch.ts:51-53 | the parameters are replaced and nothing is dispatched |
| Fetch.FetchPlugin.Fetch | packages/boring-table-core/src/plugins/Fetch.ts:85-88 | the request's query is the normalized current values, the plugin is loading, and `update:extensions` is dispatched when there is a table |
| Fetch.FetchPlugin.Settle | packages/boring-table-core/src/plugins/Fetch.ts:90-91 | loading ends, and the returned extensions replace the plugin's exactly when the result has them |
| Fetch.FetchPlugin.OnMount | packages/boring-table-core/src/plugins/Fetch.ts:47-49 | a request goes out exactly when `fetchOnMount` is set, and otherwise nothing changes |
| Fetch.FetchPlugin.SetQueryParam | packages/boring-table-core/src/plugins/Fetch.ts:60-67 | the value becomes the given value or the updater's result, `update:extensions` is dispatched, and a request goes out exactly when the parameter has `requestOnChange` |
| Fetch.FetchPlugin.Extension | packages/boring-table-core/src/plugins/Fetch.ts:99-109 | `extend()` has the five keys and the fetched extensions, which win on a shared key; otherwise `loading` is the flag and `queryParams` holds every parameter's key with that parameter's value |
| Fetch.FetchPlugin.AssignedExtensions | packages/boring-table-core/src/plugins/Fetch.ts:95-97 | `Object.assign` adds the plugin's keys, lets its keys win, and keeps every other key of the table's extensions |

## Left out

- PrototypeTable.Table.Process, LegacyTable.ProcessSpec and LegacyTable.BoringTable.Process: `process` of both engines also runs every plugin's `beforeCreate` and `afterCreate` hook (`src/index.ts:249-251`, `src/core/BoringTable.ts`). These members leave that loop out and take the data and the plugin contributions as fixed. So the modelled prototype table never shows the data its filter plugin selects. The filter's `beforeCreate` in both engines is modelled on its own (`LegacyFilter.FilterPlugin.BeforeCreate`, `PrototypePlugins.FilterPlugin.BeforeCreate`).
- PrototypeTable.Table.Process, PrototypeTable.Table.Flush, PrototypeTable.Table.Reset and LegacyTable.BoringTable.Reset take what the plugins' hooks do to the table as parameters: the dispatches of the prototype's creation hooks, and the dispatches and the data array that `onReset` leaves. The tables hold the hooks as opaque closures, so these are not derived from the plugin objects; the plugin members model the hooks themselves.
- Timing and console output are not modelled: `console.time`, the `debug` logging of every plugin, and the polling of `waitForUpdates`. Where the source awaits `waitForUpdates`, the model returns after the synchronous part.
- `extend()` of the older check plugin (`src/plugins/check.ts:99-101`) only wraps `resetCheck` in a closure. Closures are opaque values throughout the model, so it has no member of its own.
- LegacyChange.ChangePlugin.ChangeData, LegacyChange.ChangePlugin.ChangeDataAt, LegacyChange.ChangePlugin.Change, PrototypePlugins.ChangePlugin.ChangeData and PrototypePlugins.ChangePlugin.Change: these require the row index to lie inside the data array. A JavaScript write past the end grows the array with holes, and the model's fixed-length `array` does not capture that.
- The older filter, hidden and pagination plugins and the prototype's plugins require a configured table. The source calls `this.table.dispatch` and reads `this.table.data` without a guard, and would throw on an unconfigured plugin.
- PrototypePlugins.ChangePlugin.OnReset, PrototypePlugins.ChangePlugin.OnResetCopying and PrototypePlugins.FilterPlugin.BeforeCreate require a configure first. Before it their arrays are still `undefined`, and the source would throw.
- The package plugin methods that call `this.table.` without `?.` (pagination, filter) require a table, since the source would throw without one. In row selection only the internal helpers RowFlags.FlagPlugin.Announce and RowFlags.FlagPlugin.DispatchBatch require one; their callers branch on a missing table as the source's `this.table?.` does.
- LegacyEvents.BoringEvents.UpsetEvent, LegacyEvents.BoringEvents.Dispatch and LegacyEvents.BoringEvents.Flush accept only the events of the older engine's table. Their TypeScript types allow no other.
- PrototypePlugins.NameIncludes and LegacyTable.Locate: names are strings and positions are numbers, as the TypeScript types declare (`src/index.ts:277`; `src/core/BoringEvents.ts:33-41`). An item with a missing or non-string `name`, which makes `item.name.includes` throw or test array membership, is modelled as not matching. A string position such as `"0"`, which JavaScript would read as row 0, is modelled as naming no row.
- The `selectedRows` / `hiddenRows` maps of `RowSelection.ts` and `RowHidden.ts` are modelled by their key sets. The row objects stored as their values are never read back.
- RowFlags.FlagPlugin.OnCreateBodyRow, RowFlags.FlagPlugin.HeadRowExtra and RowFlags.FlagPlugin.Extension require the variant's key names to be distinct. The two variants of the source have distinct names.
- `onUpdateExtensions` of the row-selection plugins is the `Object.assign` of `extend()`, and `RowFlags.FlagPlugin.Extension` states it; it has no member of its own.
- PackagePagination.PaginationPlugin.LastPage requires a finite page count. With an empty custom body and a page size of 0, `setPage(totalPages)` would store `Infinity` or `NaN` as the page.
- The page size of both pagination plugins is a natural number, 0 included. Fractional and negative sizes are not modelled.
- PackageFilter.FilterPlugin.SetCriteria: the debounce timer is not modelled. With a non-zero `debounceTime`, only the `update:extensions` that precedes the timer is stated.
- The user-supplied filter predicates are pure functions of their arguments. A predicate that mutates the row or the table is not modelled.
- Fetch.FetchPlugin.Fetch and Fetch.FetchPlugin.Settle: the network request, the promise, and the interleaving of other calls during the `await` are left out.
  - `Fetch` returns the query the request would send.
  - `Settle` takes the request's answer as a parameter.
  - The `table.setData(result.data)` that follows is not modelled: the package table class is not part of this model.
- `URLSearchParams(...).toString()`: the query is modelled as its ordered key/value entries. Percent-encoding and the joining with `&` are left out.
- Numbers in query values are integers. Fractional numbers and their `String` form are not modelled.
- Fetch.FetchPlugin.SetQueryParam requires the key to be one of the parameters, and the updated value to have the declared parameter type. The source would throw on a missing key.
- Fetch.FetchPlugin.SetQueryParams stores the object it is given. Later writes through another reference to that same object are not modelled.
- SwapRow.SwapRowPlugin.Swap requires both slots to hold rows or neither to. Writing one slot past the end of the body would grow the array with holes.
- Not part of this model:
  - the package's table class (`packages/boring-table-core/src/core/BoringTable.ts`) and `createOptions` / `createBoringTable`;
  - the React binding `useTable`;
  - the demo `run.ts`;
  - the logger;
  - the type-only modules;
  - the build configuration.
  - Consequence: the package plugins act on `PackageHost.Table`, whose `dispatch` only records.
- Time and floating point are out of scope: the timers themselves, and every number apart from the `NaN` and `Infinity` the plugins can produce.

## Findings

| source | as written | input that shows it | evidently intended | confidence | as-written member | corrected member |
|---|---|---|---|---|---|---|
| src/index.ts:434-468 | `onReset` hands the table the copied `initialData` array itself, so a later `changeData` writes into that array | configure over `[a]`, change to `x`, reset, change to `y`, reset: the data is `[y]` | every reset restores the configured data | not executed | PrototypePlugins.ResetRestoresOnlyOnce | PrototypePlugins.CopyingResetAlwaysRestores |
| src/plugins/change.ts:16-51 | `configure` keeps `table.data` itself, and `changeData` writes into that same array | configure over `[a]`, change to `x`, reset: the data is `[x]` | a reset restores the configured data | not executed | LegacyChange.ResetKeepsChanges | LegacyChange.CopyingResetRestores |
| src/plugins/change.ts:23-26 | `changeData` dispatches `update:body-row` with `{ rowIndex }`, while the table's row update reads `position` (src/core/BoringTable.ts:296-298) | a table over `[a]`, change to `x`, flush: `body[undefined]` is missing, so the body row still shows `a` | the changed row is rebuilt from the new item | not executed | LegacyChange.ChangeLeavesRowStale | LegacyChange.PositionedChangeRebuildsRow |
| src/plugins/pagination.ts:66-70 | `setPage` stores any page, and a page below 1 gives `slice` a negative start that counts from the end | three rows, page size 1, `setPage(0)`: the page is `slice(-1, 0)`, empty, and `setPage(-1)` gives `slice(-2, -1)`, the second row | a page outside `1..totalPages` is refused | not executed | LegacyPagination.NegativePageCountsFromEnd | LegacyPagination.PaginationPlugin.SetPageChecked |
