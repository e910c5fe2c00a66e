# Configurable data grid: a Dafny model

This project models the state machine behind the `ConfigurableGrid` component
of a small React application. The component fetches records from a
user-supplied URL. It shows them either as a table (desktop) or as a list of
title/subtitle items (mobile). At runtime the user can edit the table's column
descriptors (label, key, type), add them and remove them.

The model has four modules:

- `Wrappers` (`wrappers.dfy`): `Option` models JavaScript's `undefined`.
  `Outcome` models an evaluation that can throw a `TypeError`.
- `Columns` (`columns.dfy`): the column registry and its three rewrites, as
  pure functions over `seq<ColumnConfig>`. These are appending the
  placeholder `{Label, Key, string}`, `splice(index, 1)`, and overwriting one
  field of one descriptor. Lemmas prove the inverse pairs: add then remove the
  last column, and an edit undone by writing the old value back. Other lemmas
  prove that an in-range removal is `old[..i] + old[i+1..]` and loses exactly
  one descriptor, that repeating an edit changes nothing, and that edits of two
  different fields commute.
- `Projection` (`projection.dfy`): what a state displays.
  - `getTitle` and `getSubtitle`: the explicit key if it is non-empty,
    otherwise descriptor 0 or 1. The fallback throws when that descriptor
    does not exist.
  - A desktop body row: the title cell, the subtitle cell, then the raw values
    of descriptors 2 onward. The header: one edit cell per descriptor, in
    order, then the add cell. The mobile list items.
  - `Render`: the first branch that applies, in the order loading, mobile,
    desktop, together with the exact condition under which rendering throws.
- `Grid` (`grid.dfy`): class `ConfigurableGrid`. Each React state variable is a
  field and each handler is a method. Each method's `modifies` clause names
  exactly the state variables that handler sets. The HTTP request is split
  into `FetchData`, which issues it, and `CompleteFetch(outcome)`, which
  delivers a success payload or a failure chosen by the caller. A ghost
  counter `pending` tracks the requests in flight, so any of several pending
  requests may settle next and the last to settle wins. The window width is a
  parameter of the constructor and of `Resize`. A ghost predicate `Live()`
  holds once the mount effect has run, for as long as no render has thrown.
  Every handler, the resize listener and `CompleteFetch` require it. So the
  mount effect comes before any event, and a render that throws (which
  unmounts the tree, as there is no error boundary) is terminal. Six client
  methods walk through the component's typical scenarios, and the verifier
  proves their assertions about the resulting view or registry. Five start
  from the application's default two-column registry from `src/App.tsx`;
  `RecordWithoutColumnsScenario` starts from an empty one.

Rendering is a Dafny function, so rendering the same state twice gives the
same view by construction.

Where the code behaves in ways a reader might not expect, the model follows
the code:

- `splice` with an index outside the registry does not fail. An index at or
  past the end removes nothing. A negative index counts back from the end.
  `Columns.Removed` models exactly this.
- A successful response without a nested `data` field stores `undefined`, and
  the next render then throws (`View.Crashed`). It does not show an empty list.
- `fetchData` with an empty URL raises the loading flag and issues no
  request. If no earlier request is still pending, nothing lowers the flag
  again until another fetch with a non-empty URL settles (`SpinnerStuck`). If
  an earlier request is still pending, its settling lowers the flag.
- Editing a descriptor at an index where none exists throws a `TypeError` and
  leaves the state unchanged.

## Model

| member | source | states |
|---|---|---|
| `Columns.SetField` | src/ConfigurableGrid.tsx:92 | the named field takes the new value; the other two fields keep theirs |
| `Columns.Added` | src/ConfigurableGrid.tsx:96-101 | one longer; every earlier descriptor unchanged; the new last descriptor is the placeholder `{Label, Key, string}` |
| `Columns.SpliceStart` | src/ConfigurableGrid.tsx:105 | `splice`'s start position: in-range index as is, negative counts from the end (clamped at 0), past the end clamped to the length |
| `Columns.Removed` | src/ConfigurableGrid.tsx:103-107 | in range: one shorter, earlier descriptors in place, later ones shifted down by one; when splice's start position is the end (an index at or past the end, or any index on an empty registry): unchanged; below `-len` on a non-empty registry: the first descriptor removed |
| `Columns.RemovedSplits` | src/ConfigurableGrid.tsx:103-107 | an in-range removal is `old[..i] + old[i+1..]`, so survivors keep their relative order |
| `Columns.RemovedNegative` | src/ConfigurableGrid.tsx:105 | a negative index `-k` with `k <= len` removes the descriptor at `len - k` |
| `Columns.RemovedMultiset` | src/ConfigurableGrid.tsx:103-107 | an in-range removal loses exactly the removed descriptor |
| `Columns.AddThenRemoveLast` | src/ConfigurableGrid.tsx:96-107 | adding a column, then removing index `len`, restores the registry |
| `Columns.Edited` | src/ConfigurableGrid.tsx:86-94 | same length; field `f` of descriptor `i` is `v`; its other fields and every other descriptor unchanged; no validation of `v` |
| `Columns.EditColumn` | src/ConfigurableGrid.tsx:86-94 | throws exactly when the index is outside the registry, otherwise yields the edited registry |
| `Columns.EditUndo` | src/ConfigurableGrid.tsx:86-94 | writing back the field's previous value restores the registry |
| `Columns.EditIdempotent` | src/ConfigurableGrid.tsx:86-94 | repeating the same edit changes nothing further |
| `Columns.EditsCommute` | src/ConfigurableGrid.tsx:86-94 | edits of two different fields of one descriptor commute |
| `Projection.GetTitle` | src/ConfigurableGrid.tsx:109-114 | throws exactly when the title key is empty and the registry is empty; otherwise reads the row at the explicit key, or at descriptor 0's key |
| `Projection.GetSubtitle` | src/ConfigurableGrid.tsx:116-121 | throws exactly when the subtitle key is empty and fewer than two descriptors exist; otherwise reads the row at the explicit key, or at descriptor 1's key |
| `Projection.SeededKeysAgree` | src/ConfigurableGrid.tsx:55-60 | seeding the keys from descriptors 0 and 1, as the mount effect does, leaves every displayed title and subtitle unchanged |
| `Projection.ExplicitTitleIgnoresRegistry` | src/ConfigurableGrid.tsx:110-112 | with a non-empty title key the title is independent of the registry |
| `Projection.FallbackTitleFollowsKeyEdit` | src/ConfigurableGrid.tsx:113 | with an empty title key, editing descriptor 0's key to `k` makes the title the row's value at `k` |
| `Projection.Project` | src/ConfigurableGrid.tsx:289-291 | one cell per descriptor, in order, each the row's value at that descriptor's key (`None` when missing) |
| `Projection.DesktopRow` | src/ConfigurableGrid.tsx:285-293 | throws exactly when the title or subtitle key cannot be resolved; otherwise `2 + max(0, len-2)` cells: title, subtitle, then the row at descriptors 2 onward, in registry order |
| `Projection.DesktopRowIsProjection` | src/ConfigurableGrid.tsx:285-293 | with no explicit keys and at least two descriptors, a body row is the row projected on every descriptor |
| `Projection.ProjectAppend` | src/ConfigurableGrid.tsx:289-291 | projection distributes over concatenation of registries |
| `Projection.AddColumnAppendsCell` | src/ConfigurableGrid.tsx:96-101 | with two or more descriptors, adding a column appends exactly one cell, the row's value at the placeholder key, to each body row |
| `Projection.BodyRows` | src/ConfigurableGrid.tsx:285-293 | throws exactly when there are records and a key cannot be resolved; otherwise one body row per record, in order |
| `Projection.EditCells` | src/ConfigurableGrid.tsx:228-276 | one edit cell per descriptor, carrying that descriptor and its index, in order |
| `Projection.Header` | src/ConfigurableGrid.tsx:228-281 | `len + 1` cells: edit cell `i` shows descriptor `i`, and the last is the add cell |
| `Projection.HeaderShowsLabels` | src/ConfigurableGrid.tsx:228-243 | the labels shown in the header are exactly the descriptors' labels, in registry order |
| `Projection.EditCellLabels` | src/ConfigurableGrid.tsx:228-243 | the same, for edit cells numbered from any offset |
| `Projection.ListItems` | src/ConfigurableGrid.tsx:203-215 | throws exactly when there are records and a key cannot be resolved; otherwise one item per record, with the record's title as primary text and its subtitle as secondary text |
| `Projection.SelectedTitleShown` | src/ConfigurableGrid.tsx:175-183 | choosing any non-empty field name the title menu offers makes every list item's primary text the record's value at that field, and the first record's item shows its actual value there (:109-112, :209-212) |
| `Projection.SelectedSubtitleShown` | src/ConfigurableGrid.tsx:190-198 | the same for the subtitle menu and the secondary texts (:116-119, :209-212) |
| `Projection.NoRecordsOfferCurrentKey` | src/ConfigurableGrid.tsx:182 | without records the menu offers only the current key, so choosing from it changes nothing |
| `Projection.EmptyFieldNameFallsBack` | src/ConfigurableGrid.tsx:110-113 | a field named `""` is offered by the menu (:175-180), but the empty key is falsy, so choosing it shows descriptor 0's value instead |
| `Projection.Render` | src/ConfigurableGrid.tsx:154-299 | loading shows the spinner in either mode; otherwise it throws exactly when the data is `undefined`, or when there are records and a key cannot be resolved; otherwise mobile shows the list (select options plus items) and desktop shows the table (header plus body rows) |
| `Projection.NoRecordsNoThrow` | src/ConfigurableGrid.tsx:175-215 | with no records the render never throws, whatever the registry and keys: an empty list whose menus offer only the current keys, or the header over an empty body (:228-294) |
| `Projection.MobileBoundary` | src/ConfigurableGrid.tsx:44 | width 599 is mobile and width 600 is desktop |
| `Grid.ConfigurableGrid.constructor` | src/ConfigurableGrid.tsx:40-46 | initial state: empty URL, the default registry, empty data, not loading, mobile iff width < 600, empty title and subtitle keys; the first render is an empty table or an empty list, never a throw |
| `Grid.ConfigurableGrid.Mount` | src/ConfigurableGrid.tsx:49-63 | runs once, before any event, on the first render's state: in mobile view with more than one descriptor, the keys become descriptor 0's and 1's keys; otherwise they are unchanged; afterwards the component is live |
| `Grid.ConfigurableGrid.Resize` | src/ConfigurableGrid.tsx:50-53 | only `isMobileView` changes, to `width < 600` |
| `Grid.ConfigurableGrid.SetApiUrl` | src/ConfigurableGrid.tsx:82-84 | only the URL changes |
| `Grid.ConfigurableGrid.SetTitleKey` | src/ConfigurableGrid.tsx:123-125 | only the title key changes |
| `Grid.ConfigurableGrid.SetSubtitleKey` | src/ConfigurableGrid.tsx:127-129 | only the subtitle key changes |
| `Grid.ConfigurableGrid.FetchData` | src/ConfigurableGrid.tsx:66-70 | the loading flag is raised and the spinner shows; a request is issued exactly when the URL is non-empty; with an empty URL and no request pending the spinner is stuck |
| `Grid.ConfigurableGrid.CompleteFetch` | src/ConfigurableGrid.tsx:71-78 | the loading flag drops; success replaces the data with the payload, possibly `undefined`; failure keeps the data |
| `Grid.ConfigurableGrid.AddColumn` | src/ConfigurableGrid.tsx:96-101 | only the registry changes: one placeholder appended, earlier descriptors unchanged |
| `Grid.ConfigurableGrid.RemoveColumn` | src/ConfigurableGrid.tsx:103-107 | only the registry changes, as `splice(index, 1)` does; in range it becomes `old[..i] + old[i+1..]` |
| `Grid.ConfigurableGrid.ColumnConfigChange` | src/ConfigurableGrid.tsx:86-94 | throws, with nothing changed, exactly when there is no descriptor at the index; otherwise only the edited field of that descriptor changes |

## Left out

- The HTTP call is replaced by the `FetchOutcome` input of `CompleteFetch`. This leaves out the axios call, promise scheduling and the `console.error` logging. Races are covered only in the sense that several requests may be pending and any of them may settle next.
- A payload that is present but is not an array of records is not modelled; `FetchOutcome` offers only an array or `undefined`.
- What happens after a render throws is not modelled beyond its being terminal: `Live()` stops every further event. This includes a pending request that settles after the unmount, which React ignores.
- Registering and removing the window `resize` listener is left out; `Resize(width)` is the listener's body. The initial `window.innerWidth` is a constructor parameter.
- All markup, styling, MUI/Tailwind classes, font imports and React `key` props are left out. So is `tailwind.config.js`, whose `sm: 600px` breakpoint only mirrors the threshold.
- The order of `Object.keys(data[0])` in the title and subtitle selects is not modelled. The options are a set of field names.
- Record values are strings, integers, booleans and null; floating-point numbers and nested objects are not modelled. Records hold scalar values only: an object-valued displayed field, or the column key `__proto__` (which `row[key]` resolves to `Object.prototype`), would also make the render throw, which `Render`'s crash condition does not cover.
- `ColumnConfig`'s `[key: string]: any` index signature is left out. An edit names one of the three fields through `Field`.
- `Columns.Edited`: uses value semantics. The source copies the array shallowly and then assigns into the shared descriptor object. That mutation also reaches the previous state's array and the caller's default configuration. The model does not capture this aliasing.
- `Grid.ConfigurableGrid.Mount`: the `mounted` flag allows the mount effect to run once. React's development-mode double invocation of effects is not modelled.
- `Grid.ConfigurableGrid.ColumnConfigChange`, and the `TypeError` outcomes in `Projection`: JavaScript indices that are not integers are not modelled. Indices are Dafny integers.
- The fixed-endpoint variant of the component, with automatic fetching on change, is not part of this model.
