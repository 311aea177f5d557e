# Financial dashboard: data stores and editors

This project models the data layer of a React financial dashboard and the
widgets that edit it, and proves properties of the model in Dafny. The
dashboard has two independent path-addressed stores:

- **The brokerage store** (`DashboardDataContext`).
  - It holds one JSON tree. `getData` and `updateData` address the tree by
    dot-separated paths.
  - `updateData` deep-clones the tree before it writes.
  - `importData` checks that `page1`, `page2` and `page3` are truthy before
    it adopts and saves a file.
  - The tree is snapshotted to local storage under `"dashboardData"`.
- **The financial store** (`DataContext`).
  - `updateField` copies only the top-level object. It creates `{}` for
    missing intermediate segments and writes nested objects in place.
  - `importData` adopts whatever the file parses to. It does not check the
    shape and does not save.
  - The snapshot key is `"financial-dashboard-data"`.

On top of the stores sit:

- the inline editors `EditableValue` (brokerage store) and `EditableNumber`
  (financial store), each a two-state display/editing machine;
- two data-management button bars, with a file gate, a busy flag and a
  confirm-gated reset;
- the brokerage dashboard's three-page pager, its metric cards and the
  colouring of its pie charts;
- the paths the pages bind, checked against both default trees.

Modules, one per file (the modules `Optional` and `Text` share text.dfy):

| file | module | models |
|---|---|---|
| text.dfy | `Optional`, `Text` | `split('.')`, `endsWith`, decimal array-index keys |
| values.dfy | `JsValues` | JSON values, truthiness, property reads, `toString` |
| storage.dfy | `Storage` | local storage as a map of snapshots |
| dashboard_store.dfy | `DashboardData` | the brokerage store (value semantics) |
| heap.dfy | `Heap` | objects and arrays as heap nodes, their JSON snapshot, `JSON.parse` allocation |
| data_store.dfy | `FinancialData` | the financial store (shared nested objects) |
| editable_value.dfy | `EditableValueWidget` | `EditableValue` |
| editable_number.dfy | `EditableNumberWidget` | `EditableNumber` |
| financial_paths.dfy | `FinancialPaths` | the financial pages' bound paths |
| management_panel.dfy | `ManagementPanel` | `DataManagementPanel` (brokerage store) |
| management_buttons.dfy | `ManagementButtons` | `DataManagementButtons` (financial store) |
| brokerage.dfy | `Brokerage` | `BrokerageDashboard`: pager, metric cards, colours, bound paths |

Modelling choices:

- **The brokerage store has value semantics.** Cloning a JSON tree yields an
  equal tree, so `updateData` acts as a function from the old tree to the
  new one. The specification is `SetPath`. The store's method walks the path
  with a loop, as the source does, and keeps the enclosing containers as
  frames to rebuild the clone. It is proved equal to `SetPath`.
- **The financial store keeps sharing.**
  - Its values live on the Dafny heap as `Node` objects. Each node carries a
    ghost rank, and every child ranks above its parent, which keeps the
    graph acyclic.
  - `Snap` gives the JSON tree a value denotes.
  - `updateField` allocates a new top-level object and writes through the
    old nested objects. Its contract states that the tree held before the
    update reads the new value too.
  - The same contract frames the update. An old object off the written path
    keeps its contents, and an old object on the path differs only under the
    segment the path takes from it.
  - The first tree is the `defaultData` object itself, and reset reinstalls
    that object. `EditThenReset` shows that a nested edit made before any
    load survives a reset. Reset therefore does not restore the original
    defaults.
- **Imports are split in two.** A store import is modelled as a start (the
  busy flag goes up) and a completion (the file's parsed content arrives).
  This makes "busy while pending" and "not busy afterwards" expressible.
- **Foreign functions are parameters.** `parseFloat` is a function
  `string -> Option<real>` (None stands for NaN), and `Number#toString` is a
  function `real -> string`. The validator is `Option<Json -> bool>`, and
  `window.confirm` is a boolean argument.
- **Numbers are reals.** JSON has no NaN or infinity, and the editors drop
  NaN before writing.

## Model

| member | source | states |
|---|---|---|
| `Text.Split` | src/context/DashboardDataContext.jsx:203 | `path.split('.')` gives at least one segment, and no segment contains a dot |
| `Text.SplitJoin` | src/context/DashboardDataContext.jsx:203 | a path written as dot-free segments joined by dots splits back into exactly those segments |
| `Text.JoinSplit` | src/context/DataContext.jsx:103 | joining the segments of a split with dots gives the path back, so splitting loses nothing |
| `Text.EndsWithMeansSuffix` | src/components/DataManagementPanel.jsx:36 | `name.endsWith(s)` holds exactly when some prefix followed by `s` is the name |
| `Text.IndexOfIndexKey` | src/components/IncomeStatement.jsx:93 | the decimal key written for row `i` addresses array element `i` (for every index up to 2^32-2) |
| `Text.IndexKeyOfIndex` | src/context/DashboardDataContext.jsx:208 | a key addresses an array element only when it is that index's canonical decimal form, so "01" or "+1" address none |
| `Text.IndexKeyInjective` | src/context/DataContext.jsx:102 | different indices have different keys, so the spread copy of an array keeps every element |
| `JsValues.MemberOf` | src/context/DashboardDataContext.jsx:229 | reading a property throws exactly on `null`; an object gives its own field or `undefined`; a primitive's properties are primitive |
| `JsValues.Member` | src/context/DashboardDataContext.jsx:229 | `current[key]` throws exactly when `current` is `undefined` or `null` |
| `JsValues.ResolveAppend` | src/context/DashboardDataContext.jsx:228-230 | reading one more segment reads it from wherever the shorter path ended |
| `JsValues.ResolveThrowsOnward` | src/context/DashboardDataContext.jsx:228-234 | once a read along the path throws, every longer path throws too |
| `Storage.LocalStorage.SetItem` | src/context/DashboardDataContext.jsx:132 | the key now holds the snapshot and every other key is unchanged |
| `Storage.LocalStorage.RemoveItem` | src/context/DashboardDataContext.jsx:191 | the key is gone and every other key is unchanged |
| `Storage.LocalStorage.Saved` | src/context/DashboardDataContext.jsx:119-122 | a mount adopts a saved tree exactly when the key holds text that parses, and then adopts that tree |
| `DashboardData.DashboardStore.GetData` | src/context/DashboardDataContext.jsx:224-236 | the walking loop returns what reading the segments one by one gives, or `null` where a read throws |
| `DashboardData.ReadFindsExistingLeaf` | src/context/DashboardDataContext.jsx:226-231 | when every segment exists, `getData` returns the leaf |
| `DashboardData.MissingLastReadsUndefined` | src/context/DashboardDataContext.jsx:226-231 | when only the last segment is missing from an object, `getData` returns `undefined` |
| `DashboardData.MissingEarlierReadsNull` | src/context/DashboardDataContext.jsx:226-235 | when an earlier segment reads `undefined`, `getData` returns `null` without throwing |
| `DashboardData.DashboardStore.UpdateData` | src/context/DashboardDataContext.jsx:200-220 | the loop and the zipper of frames give exactly `SetPath`; success exactly when `SetPath` succeeds; otherwise the tree is unchanged and the error is reported; `isLoading` untouched |
| `DashboardData.ReadAfterWrite` | src/context/DashboardDataContext.jsx:207-213 | after a successful update, reading `path` gives the value written |
| `DashboardData.WriteLeavesOtherPaths` | src/context/DashboardDataContext.jsx:202-215 | after a successful update, every path that branches off `path` reads as before; the one exception is reading "length" at a branch point that is an array, since an append lengthens it. A field named "length" of an object is covered |
| `DashboardData.OtherMemberUnchanged` | src/context/DashboardDataContext.jsx:213 | assigning one key of a container leaves every other key as it was; only an array's "length" is excepted |
| `DashboardData.SetPathBelowNonContainer` | src/context/DashboardDataContext.jsx:213 | an assignment below a primitive, `null` or `undefined` throws |
| `DashboardData.DescentIsOwnChild` | src/context/DashboardDataContext.jsx:207-209 | a write that goes through descends only into own fields or existing array elements, all containers |
| `DashboardData.WriteThroughNonContainerFails` | src/context/DashboardDataContext.jsx:207-219 | an update through a segment that is absent or primitive fails |
| `DashboardData.WriteThroughMissingFails` | src/context/DashboardDataContext.jsx:207-219 | an update through a missing intermediate segment fails, so the tree stays as it was |
| `DashboardData.HasPagesMeansObject` | src/context/DashboardDataContext.jsx:169 | the import check passes exactly for an object with truthy `page1`, `page2` and `page3`, and throws only on `null` |
| `DashboardData.DefaultDataHasPages` | src/context/DashboardDataContext.jsx:14-110 | the default tree passes the import check, so an exported default imports back |
| `DashboardData.DashboardStore.Mount` | src/context/DashboardDataContext.jsx:113-127 | the store starts from the saved tree when its text parses, else from the defaults, and is not busy |
| `DashboardData.DashboardStore.SaveData` | src/context/DashboardDataContext.jsx:130-138 | the current tree is stored under "dashboardData" and success is reported |
| `DashboardData.DashboardStore.ExportData` | src/context/DashboardDataContext.jsx:141-158 | the export reports success and changes no state |
| `DashboardData.DashboardStore.StartImport` | src/context/DashboardDataContext.jsx:161-163 | the busy flag goes up and the tree is unchanged |
| `DashboardData.DashboardStore.CompleteImport` | src/context/DashboardDataContext.jsx:165-182 | tree and storage take the file exactly when it parses and passes the page check; otherwise both are untouched and failure is reported with the format or parse message; never busy afterwards |
| `DashboardData.DashboardStore.ResetData` | src/context/DashboardDataContext.jsx:188-197 | the default tree is back, the snapshot is removed, and success is reported |
| `DashboardData.SaveThenRemount` | src/context/DashboardDataContext.jsx:117-133 | saving and mounting again gives the tree that was saved |
| `DashboardData.ResetThenRemount` | src/context/DashboardDataContext.jsx:188-192 | after a reset, both the store and a new mount hold the default tree |
| `Heap.ReadMember` | src/context/DataContext.jsx:108 | reading a property of a heap value throws exactly on `null` |
| `Heap.ReadMemberSnap` | src/context/DataContext.jsx:108-111 | a read on the heap agrees with the same read on the tree the value denotes |
| `Heap.WalkSnap` | src/context/DataContext.jsx:107-115 | walking a path through heap objects agrees with reading it in the snapshot |
| `Heap.Materialize` | src/context/DataContext.jsx:87 | parsing allocates fresh nodes, shared with nothing, whose snapshot is the parsed tree |
| `FinancialData.IndexedKeys` | src/context/DataContext.jsx:102 | spreading an array gives exactly its elements under their index keys |
| `FinancialData.SpreadChildren` | src/context/DataContext.jsx:102 | the copy `{ ...prevData }` holds the same child objects as the old top level |
| `FinancialData.Assign` | src/context/DataContext.jsx:115 | `v[k] = x` succeeds on objects, and on arrays at an existing or the next index. It then reads `x`, and the node differs from before only under `k` |
| `FinancialData.Create` | src/context/DataContext.jsx:108-109 | a new empty object is linked in under the key. The node's other fields stay as they were, and so do an array's other elements. The walk's changes stay on its chain of objects |
| `FinancialData.Link` | src/context/DataContext.jsx:108-111 | a segment reading `undefined` gets a new `{}`, and the walk moves into it |
| `FinancialData.Step` | src/context/DataContext.jsx:107-111 | one turn of the walk reads the segment, creates `{}` where it is `undefined`, and stops with nothing changed where the read throws |
| `FinancialData.Descend` | src/context/DataContext.jsx:107-112 | the loop reaches the parent of the leaf, or stops with nothing changed exactly when the update cannot go through |
| `FinancialData.SetLeaf` | src/context/DataContext.jsx:115 | the leaf is assigned in place, or the assignment throws and nothing changes |
| `FinancialData.WritePath` | src/context/DataContext.jsx:104-115 | the walk and the leaf write succeed exactly when the update can go through, and then the objects on the path are linked and hold the value. Of the old objects, only those on the path changed, each only under its own segment |
| `FinancialData.UpdateTree` | src/context/DataContext.jsx:101-117 | copy, walk and write. On success the copy reads the value, and so does the old tree when it shares the path. An old object off the path is unchanged, and one on it differs only under its segment. On failure no old object changed |
| `FinancialData.PlacedWalkShared` | src/context/DataContext.jsx:102-115 | an old object with the fields the copy was made from reads the new value along the path, through the same nested object |
| `FinancialData.TwoLevelWritable` | src/context/DataContext.jsx:102-115 | a two-segment path through two objects can always be updated, and the copy shares the object under its first segment |
| `FinancialData.DataStore.Mount` | src/context/DataContext.jsx:80-92 | the first tree is the `defaultData` object (snapshot: the defaults), replaced by the saved tree when its text parses |
| `FinancialData.DataStore.LoadSaved` | src/context/DataContext.jsx:83-92 | a parsable snapshot becomes the tree; an unparsable one, or none, leaves the tree as it is |
| `FinancialData.DataStore.Install` | src/context/DataContext.jsx:143-144 | a freshly parsed tree is installed on new objects, and the `defaultData` object is left as it was |
| `FinancialData.DataStore.SaveData` | src/context/DataContext.jsx:95-97 | the current tree is stored under "financial-dashboard-data" |
| `FinancialData.DataStore.ImportData` | src/context/DataContext.jsx:138-153 | resolves exactly when the file was read and parsed, and then the tree is the file's, with no shape check; storage is not touched; otherwise it rejects and the tree is unchanged |
| `FinancialData.DataStore.ResetData` | src/context/DataContext.jsx:156-159 | the `defaultData` object (as edited so far) is the tree again, and the snapshot is removed |
| `FinancialData.DataStore.UpdateField` | src/context/DataContext.jsx:100-119 | success exactly when every step can go through; then the path reads the value, the new top level keeps the other top-level keys, the objects on the path are the old ones or new `{}`, and the old tree sees the write through the shared nested object. Nothing else changes: an old object off the path is as it was, and an old object on it differs only under the segment the path takes from it. On failure nothing changed |
| `FinancialData.SaveThenRemount` | src/context/DataContext.jsx:83-97 | saving and mounting again shows the tree that was saved |
| `FinancialData.EditThenReset` | src/context/DataContext.jsx:80-159 | a nested edit before any load survives a reset, so the reset tree differs from the original defaults |
| `EditableValueWidget.ShowsTruthyLeaf` | src/components/EditableValue.jsx:18 | a truthy stored value is shown as it is |
| `EditableValueWidget.ShowsDefaultForFalsyLeaf` | src/components/EditableValue.jsx:18 | a stored 0, "", false or null shows the default |
| `EditableValueWidget.ShowsDefaultForMissingLeaf` | src/components/EditableValue.jsx:18 | a missing last segment shows the default |
| `EditableValueWidget.ShowsDefaultForMissingParent` | src/components/EditableValue.jsx:18 | a missing earlier segment shows the default, without throwing |
| `EditableValueWidget.ShowsWrittenValue` | src/components/EditableValue.jsx:50 | after a write that went through, the span shows the value written, or the default when that value is falsy |
| `EditableValueWidget.EditableValue.constructor` | src/components/EditableValue.jsx:4-15 | the widget starts displaying, with an empty draft and no updates |
| `EditableValueWidget.EditableValue.Commit` | src/components/EditableValue.jsx:33-48 | a number editor commits the parsed number and never a NaN; a text editor commits the raw draft, even empty; a rejecting validator blocks the commit |
| `EditableValueWidget.EditableValue.Click` | src/components/EditableValue.jsx:27-30 | the draft becomes the text of the shown value and editing starts; `toString` throws on a shown `undefined` or `null`, and then nothing changes |
| `EditableValueWidget.EditableValue.Change` | src/components/EditableValue.jsx:77 | typing replaces the draft only |
| `EditableValueWidget.EditableValue.Save` | src/components/EditableValue.jsx:32-52 | exactly one `updateData(path, value)` when the draft commits, none otherwise; editing ends either way |
| `EditableValueWidget.EditableValue.Cancel` | src/components/EditableValue.jsx:54-57 | editing ends, the draft is cleared, and the store is untouched |
| `EditableValueWidget.EditableValue.KeyDown` | src/components/EditableValue.jsx:59-65 | Enter saves as `handleSave` does: a committed draft appends exactly one update and writes it, a rejected one leaves the tree and the updates unchanged; Escape cancels; any other key changes nothing |
| `EditableValueWidget.EditableValue.Blur` | src/components/EditableValue.jsx:67-69 | leaving the input saves, exactly as Enter does |
| `EditableNumberWidget.OptionalMember` | src/components/EditableNumber.jsx:22 | `v?.[k]` gives `undefined` on `undefined` or `null` and the plain read otherwise |
| `EditableNumberWidget.OrZero` | src/components/EditableNumber.jsx:24 | the fallback to 0 keeps a truthy value and turns a falsy one into 0 |
| `EditableNumberWidget.ChainOfUndefined` | src/components/EditableNumber.jsx:21-23 | once the optional chain reaches `undefined`, it stays there |
| `EditableNumberWidget.ChainMatchesResolve` | src/components/EditableNumber.jsx:18-23 | the optional chain reads what plain reads read, and `undefined` wherever they would throw |
| `EditableNumberWidget.ShownValue` | src/components/EditableNumber.jsx:18-25 | the shown value is the stored value when truthy, else 0; a stored number is shown exactly; a missing path shows 0 |
| `EditableNumberWidget.EditableNumber.constructor` | src/components/EditableNumber.jsx:11-15 | the widget starts displaying, with an empty draft |
| `EditableNumberWidget.EditableNumber.GetValue` | src/components/EditableNumber.jsx:18-25 | the loop over the heap returns the stored value (shared, not copied) or 0, with the snapshot `Shown` specifies |
| `EditableNumberWidget.EditableNumber.Click` | src/components/EditableNumber.jsx:52-55 | editing starts with the draft set to the text of the shown value |
| `EditableNumberWidget.EditableNumber.Change` | src/components/EditableNumber.jsx:88 | typing replaces the draft only |
| `EditableNumberWidget.EditableNumber.Blur` | src/components/EditableNumber.jsx:57-65 | `updateField` is called exactly when the draft is non-empty and parses, and only with a number. Once that gets through, the span shows that number, and of the old objects only those on the path changed, each under its own segment. Otherwise nothing in the store changes. Editing ends either way |
| `EditableNumberWidget.EditableNumber.KeyDown` | src/components/EditableNumber.jsx:67-73 | Enter acts as blur: a parsable draft is written, and the write goes through exactly when the path is writable, with the same frame on the store; Escape ends editing without writing; other keys change nothing |
| `FinancialPaths.ShowsNumber1` | src/components/Header.jsx:22-61 | an editor bound to a top-level number shows that number |
| `FinancialPaths.ShowsNumber2` | src/components/IncomeStatement.jsx:14-63 | an editor bound to `a.b` through an object shows the number found there |
| `FinancialPaths.OfficeResolves` | src/components/IncomeStatement.jsx:93-96 | `topOffices.<i>.<f>` reads field `f` of office `i` |
| `FinancialPaths.ShowsOfficeNumber` | src/components/IncomeStatement.jsx:93-96 | an office cell shows the number stored for that office |
| `FinancialPaths.HeaderPaths` | src/components/Header.jsx:22-61 | the header's four paths name numbers in the default tree |
| `FinancialPaths.QuarterPaths` | src/components/IncomeStatement.jsx:14-63 | both quarters' four lines name numbers in the default tree |
| `FinancialPaths.OfficePaths` | src/components/IncomeStatement.jsx:82-96 | revenue and margin of offices 0 to 3 are numbers in the default tree |
| `FinancialPaths.MarketPaths` | src/components/FinancialRatios.jsx:14-161 | the eight market-analysis paths name numbers in the default tree |
| `FinancialPaths.RatioPaths` | src/components/FinancialRatios.jsx:72-174 | the distribution, KPI and award paths name numbers in the default tree |
| `ManagementPanel.AcceptableCases` | src/components/DataManagementPanel.jsx:36 | a file passes the gate exactly when its type is application/json or its name ends in ".json" |
| `ManagementPanel.DataManagementPanel.constructor` | src/components/DataManagementPanel.jsx:4-8 | no banner, an empty file input, nothing awaited |
| `ManagementPanel.DataManagementPanel.Save` | src/components/DataManagementPanel.jsx:19-22 | the tree is saved and the banner shows the save result as success |
| `ManagementPanel.DataManagementPanel.Export` | src/components/DataManagementPanel.jsx:24-27 | the banner shows the export result as success |
| `ManagementPanel.DataManagementPanel.ChooseFile` | src/components/DataManagementPanel.jsx:33-43 | no file: nothing happens; a refused file: the error banner, the input is cleared, no import; an accepted one: the import starts and the store is busy |
| `ManagementPanel.DataManagementPanel.FileLoaded` | src/components/DataManagementPanel.jsx:37-43 | the banner kind is success exactly when the import succeeded; its message is the import message, the parse error for unreadable JSON or `null`, or the format message for a tree without its pages; the input is cleared; the store is not busy |
| `ManagementPanel.DataManagementPanel.HandleFileChange` | src/components/DataManagementPanel.jsx:33-45 | a selected file always ends cleared from the input; success exactly for an accepted file whose content passes the check; only then does the tree change |
| `ManagementPanel.DataManagementPanel.Reset` | src/components/DataManagementPanel.jsx:47-52 | only a confirmed reset runs, restoring the defaults with a success banner; declining changes nothing |
| `ManagementPanel.DataManagementPanel.Press` | src/components/DataManagementPanel.jsx:71-100 | a button acts exactly when the store is not busy; all four are disabled while it is; the import button only opens the dialog |
| `ManagementButtons.NameGateNarrower` | src/components/DataManagementButtons.jsx:28-31 | the gate looks at the name only: it takes exactly the names ending in ".json" and refuses a JSON-typed file without that suffix |
| `ManagementButtons.DataManagementButtons.constructor` | src/components/DataManagementButtons.jsx:4-8 | no message, an empty file input, not importing |
| `ManagementButtons.DataManagementButtons.ImportButtonLabel` | src/components/DataManagementButtons.jsx:105 | the label reads "Importing..." exactly while importing, else "Import JSON" |
| `ManagementButtons.DataManagementButtons.Save` | src/components/DataManagementButtons.jsx:10-13 | the tree is saved and success is reported unconditionally |
| `ManagementButtons.DataManagementButtons.Export` | src/components/DataManagementButtons.jsx:15-18 | success is reported unconditionally |
| `ManagementButtons.DataManagementButtons.ChooseFile` | src/components/DataManagementButtons.jsx:24-33 | no file: no state change; a name without ".json": the error message, and the file stays in the input; otherwise importing starts |
| `ManagementButtons.DataManagementButtons.ImportSettled` | src/components/DataManagementButtons.jsx:34-43 | a resolved import shows the success message and a rejected one the error; importing ends and the input is cleared either way |
| `ManagementButtons.DataManagementButtons.HandleFileChange` | src/components/DataManagementButtons.jsx:24-44 | not importing afterwards; storage never written; success exactly for a ".json" name whose content parses; only then does the tree change |
| `ManagementButtons.DataManagementButtons.Reset` | src/components/DataManagementButtons.jsx:46-51 | only a confirmed reset runs: the `defaultData` object is back, the snapshot is gone, and success is shown |
| `ManagementButtons.DataManagementButtons.Press` | src/components/DataManagementButtons.jsx:74-110 | only the import button is ever disabled, and only while importing; save, export and reset run whenever pressed |
| `Brokerage.OneScreenPerPage` | src/components/BrokerageDashboard.jsx:757-759 | each page in 1..3 renders exactly one page, and a different one for each page |
| `Brokerage.PagerSteps` | src/components/BrokerageDashboard.jsx:764-780 | the clamps keep the page in 1..3; a button is disabled exactly when pressing it would not move; otherwise it moves one page |
| `Brokerage.PagerRoundTrips` | src/components/BrokerageDashboard.jsx:764-779 | Next undoes Previous and Previous undoes Next wherever the first press moved |
| `Brokerage.Pager.constructor` | src/components/BrokerageDashboard.jsx:8 | the pager starts on page 1 |
| `Brokerage.Pager.ClickPrevious` | src/components/BrokerageDashboard.jsx:764-765 | the page becomes `max(1, p-1)`, stays in range, and one page shows |
| `Brokerage.Pager.ClickNext` | src/components/BrokerageDashboard.jsx:779-780 | the page becomes `min(3, p+1)`, stays in range, and one page shows |
| `Brokerage.CardShowsTreeValue` | src/components/BrokerageDashboard.jsx:19-30 | a card is an editor exactly when it has a non-empty path; bound or not, it shows the value the tree holds there |
| `Brokerage.BoundCardShowsLeaf` | src/components/BrokerageDashboard.jsx:19-30 | a card bound to `a.b.c` shows the leaf stored there |
| `Brokerage.SegmentColor` | src/components/BrokerageDashboard.jsx:129 | segment `i` takes a colour of the palette, and is uncoloured exactly when the palette is empty |
| `Brokerage.ColorsCycle` | src/components/BrokerageDashboard.jsx:126-129 | colours repeat with the palette's length |
| `Brokerage.ColorsDistinctInRound` | src/components/BrokerageDashboard.jsx:126-129 | segments within one round of a palette of distinct colours get distinct colours |
| `Brokerage.PalettesDistinct` | src/components/BrokerageDashboard.jsx:343-736 | the deal-volume, agent and listing palettes have no repeated colour |
| `Brokerage.Page1Headline` | src/components/BrokerageDashboard.jsx:174-220 | the closed-deal, metric and closed-deal-count paths exist in the default tree |
| `Brokerage.Page1Tiles` | src/components/BrokerageDashboard.jsx:236-328 | the pending, active and price-range paths exist in the default tree |
| `Brokerage.Page2Ratios` | src/components/BrokerageDashboard.jsx:379-449 | the agents/offices, price-ratio and market-rank paths exist in the default tree |
| `Brokerage.Page2Revenue` | src/components/BrokerageDashboard.jsx:464-554 | the days-on-market and revenue paths exist in the default tree |
| `Brokerage.Page3Status` | src/components/BrokerageDashboard.jsx:598-670 | the listing-price, active-agent and market-status paths exist in the default tree |
| `Brokerage.Page3Deals` | src/components/BrokerageDashboard.jsx:683-721 | the deal-type paths exist in the default tree |

## Left out

- `JsValues.MemberOf`: inherited members such as `toString`, `constructor` or `__proto__` are not properties in the model. A path naming one reads `undefined` here, where the engine would give a function or the prototype.
- `DashboardData.DashboardStore.UpdateData`: an array write is modelled only at an existing index or the next one. Any other key on an array is modelled as a failed write:
  - an index past the next one, where the engine would create a sparse array with holes;
  - a key that is not a canonical index, such as "foo", "01" or "-1", where the engine would add a named property to the array;
  - "length", where the engine would truncate or extend the array.
  Model trees hold neither holes nor named properties on arrays. So `updateData("page1.chartData.topAgents.length", 0)` empties the array in the source but is reported as failing here, with the tree unchanged.
- `FinancialData.Assign`: the same limit for arrays in the financial store. Non-index keys and "length" fail here, where the engine assigns them. `SetLeaf`, `Create` and `UpdateField` inherit this.
- `FinancialData.DataStore.UpdateField`: a result of `ok == false` stands for the updater passed to `setData` throwing a TypeError, for example after importing `{"currentQuarter": 5}` and editing `currentQuarter.revenue`. The source catches nothing there and has no error boundary, so the error escapes React's rendering and the app does not survive it. The model instead returns normally with nothing changed, and `EditableNumber.Blur` and `KeyDown` inherit that.
- `FinancialData.DataStore.UpdateField`: takes primitive values only. Its one caller, `EditableNumber`, writes numbers, so objects shared into the tree by the caller are not modelled.
- `Text.IndexOf`: keys above 2^32-2 are ordinary property names, as in the engine. Arrays that long are not modelled.
- `DashboardData.DashboardStore.CompleteImport`: the engine's error text after "Error parsing JSON file: " is not modelled. The message records only the prefix.
- `DashboardData.DashboardStore.CompleteImport`: storage never fails in the model. In the source `setData(importedData)` runs before `localStorage.setItem`. A quota error there is caught, so the import reports failure ("Error parsing JSON file: …") with the tree already replaced and storage not updated. The model promises success whenever the page check passes.
- `DashboardData.DashboardStore.SaveData`: the storage-quota error branch and its message are not modelled. Saving always succeeds.
- `FinancialData.DataStore.SaveData`: storage never fails in the model. In the source `saveData` has no `try`, so a quota error escapes `handleSave`, and no message is shown. The model always stores the snapshot, and `ManagementButtons.DataManagementButtons.Save` always reports success.
- `DashboardData.DashboardStore.ResetData`: the `catch` branch is not modelled, since neither statement it guards throws on a model tree.
- `DashboardData.DashboardStore.ExportData`: the `Blob`, object URL, download anchor and the dated file name are browser I/O and are not modelled. Only the reported result is.
- The financial store's `exportData` is the same download with no state change or result, so it has no member. `DataManagementButtons.handleExport` is modelled by its message alone.
- A file read that fails never settles the brokerage store's import promise (there is no `onerror`). The model's `StartImport` leaves the store busy, and no completion follows.
- `JSON.stringify` and `JSON.parse` as text processing are not modelled. Storage holds trees or an unparsable marker, and file content arrives already parsed.
- `parseFloat` and `Number#toString` are parameters, not their real algorithms. The parameter gives a real or nothing, so it cannot produce `Infinity`. In the source `parseFloat("1e400")` is `Infinity`, which passes `!isNaN` and is written by both editors. `JSON.stringify` would then save it as `null`, so a save and reload would not give back the edited tree. The model does not capture this. `EditableNumber.formatValue` (`Intl.NumberFormat`, `toFixed`) is not modelled.
- A validator that throws is not modelled. Validators are total functions.
- Banner and message auto-dismiss (`setTimeout`), input focus and selection, and input widths are not modelled.
- `handleImportClick` only opens the browser's file dialog, so pressing an import button is modelled as changing no state.
- React state updates are applied immediately. The updater function of `updateField`, which React may call twice in development, runs once. Edits interleaved with a pending import are not modelled.
- Chart geometry is not modelled: label angles, the label cutoff, radii and sizes.
- The load effect runs inside the store constructors, not after a first render of the defaults.
- `FinancialPaths` states the bound-path vectors as "the field exists and holds a number". `ShowsNumber1`, `ShowsNumber2` and `ShowsOfficeNumber` connect any such path to what the editor shows.
- `Brokerage` states its vectors as "the field exists". `BoundCardShowsLeaf` and `CardShowsTreeValue` connect such a path to what the card shows.
- `src/components/Footer.jsx`, `src/App.jsx` and `tailwind.config.js` are not part of this model. Header, IncomeStatement and FinancialRatios contribute only their bound paths.
