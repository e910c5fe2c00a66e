/** What the grid shows for a given state: title and subtitle resolution, the
    desktop header and body rows, the mobile list items, and the choice between
    spinner, list and table. */
module Projection {
  import opened Wrappers
  import opened Columns

  /** A scalar field value of a fetched record. */
  datatype Value = Str(s: string) | Num(n: int) | Bool(b: bool) | Null

  /** A fetched record: an open mapping from field name to value. */
  type Row = map<string, Value>

  /** `row[key]`: a missing field reads as `undefined`. */
  function Lookup(row: Row, key: string): (r: Option<Value>)
  {
    if key in row then Some(row[key]) else None
  }

  // ---------------------------------------------------------------------
  // Title and subtitle

  /** The key that `getTitle` (fallback 0) or `getSubtitle` (fallback 1)
      reads: the explicit key when it is non-empty (a truthy string),
      otherwise the key of the registry's descriptor at `fallback`, whose
      absence makes `columnConfig[fallback].key` throw. */
  function ResolveKey(explicit: string, cols: seq<ColumnConfig>, fallback: nat): (r: Outcome<string>)
  {
    if explicit != "" then Ok(explicit)
    else if fallback < |cols| then Ok(cols[fallback].key)
    else TypeError
  }

  /** Reads `row` at a resolved key, passing a thrown error on. */
  function ReadAt(key: Outcome<string>, row: Row): (r: Outcome<Option<Value>>)
  {
    match key
    case Ok(k) => Ok(Lookup(row, k))
    case TypeError => TypeError
  }

  /** `getTitle(row)`. */
  function GetTitle(titleKey: string, cols: seq<ColumnConfig>, row: Row): (r: Outcome<Option<Value>>)
    ensures r.TypeError? <==> titleKey == "" && |cols| == 0
    ensures titleKey != "" ==> r == Ok(Lookup(row, titleKey))
    ensures titleKey == "" && |cols| > 0 ==> r == Ok(Lookup(row, cols[0].key))
  {
    ReadAt(ResolveKey(titleKey, cols, 0), row)
  }

  /** `getSubtitle(row)`. */
  function GetSubtitle(subtitleKey: string, cols: seq<ColumnConfig>, row: Row): (r: Outcome<Option<Value>>)
    ensures r.TypeError? <==> subtitleKey == "" && |cols| < 2
    ensures subtitleKey != "" ==> r == Ok(Lookup(row, subtitleKey))
    ensures subtitleKey == "" && |cols| > 1 ==> r == Ok(Lookup(row, cols[1].key))
  {
    ReadAt(ResolveKey(subtitleKey, cols, 1), row)
  }

  /** Both `getTitle` and `getSubtitle` return without throwing. As neither
      reads the row before resolving its key, this does not depend on the row. */
  predicate KeysResolve(titleKey: string, subtitleKey: string, cols: seq<ColumnConfig>)
  {
    ResolveKey(titleKey, cols, 0).Ok? && ResolveKey(subtitleKey, cols, 1).Ok?
  }

  /** Seeding the explicit keys from the first two descriptors, as the mount
      effect does, leaves the displayed title and subtitle as they were. */
  lemma SeededKeysAgree(cols: seq<ColumnConfig>, row: Row)
    requires |cols| > 1
    ensures GetTitle(cols[0].key, cols, row) == GetTitle("", cols, row)
    ensures GetSubtitle(cols[1].key, cols, row) == GetSubtitle("", cols, row)
  {
  }

  /** With an explicit key the title no longer follows the registry: any
      edit of the registry leaves it unchanged. */
  lemma ExplicitTitleIgnoresRegistry(titleKey: string, cols: seq<ColumnConfig>, cols': seq<ColumnConfig>, row: Row)
    requires titleKey != ""
    ensures GetTitle(titleKey, cols', row) == GetTitle(titleKey, cols, row)
  {
  }

  /** Without an explicit key the title follows an edit of descriptor 0's key. */
  lemma FallbackTitleFollowsKeyEdit(cols: seq<ColumnConfig>, k: string, row: Row)
    requires |cols| > 0
    ensures GetTitle("", Edited(cols, 0, Key, k), row) == Ok(Lookup(row, k))
  {
    assert Edited(cols, 0, Key, k)[0].key == FieldOf(Edited(cols, 0, Key, k)[0], Key);
  }

  // ---------------------------------------------------------------------
  // Desktop table

  /** `columns.map(column => row[column.key])`. */
  function Project(cols: seq<ColumnConfig>, row: Row): (r: seq<Option<Value>>)
    ensures |r| == |cols|
    ensures forall j :: 0 <= j < |cols| ==> r[j] == Lookup(row, cols[j].key)
  {
    if cols == [] then [] else [Lookup(row, cols[0].key)] + Project(cols[1..], row)
  }

  /** One desktop body row: the title cell, the subtitle cell, then the raw
      values of descriptors 2 and onward (`columnConfig.slice(2)`). */
  function DesktopRow(titleKey: string, subtitleKey: string, cols: seq<ColumnConfig>, row: Row): (r: Outcome<seq<Option<Value>>>)
    ensures r.Ok? <==> KeysResolve(titleKey, subtitleKey, cols)
    ensures r.Ok? ==> |r.value| == if |cols| < 2 then 2 else |cols|
    ensures r.Ok? ==> Ok(r.value[0]) == GetTitle(titleKey, cols, row)
    ensures r.Ok? ==> Ok(r.value[1]) == GetSubtitle(subtitleKey, cols, row)
    ensures r.Ok? ==> forall j :: 2 <= j < |cols| ==> r.value[j] == Lookup(row, cols[j].key)
  {
    match (GetTitle(titleKey, cols, row), GetSubtitle(subtitleKey, cols, row))
    case (Ok(t), Ok(s)) =>
      var rest := if |cols| < 2 then [] else cols[2..];
      Ok([t, s] + Project(rest, row))
    case _ => TypeError
  }

  /** When neither key is explicit and the registry has at least two
      descriptors, the title and subtitle cells are descriptor 0's and 1's
      raw values, so the body row is the row projected on every descriptor. */
  lemma DesktopRowIsProjection(cols: seq<ColumnConfig>, row: Row)
    requires |cols| >= 2
    ensures DesktopRow("", "", cols, row) == Ok(Project(cols, row))
  {
    var r := DesktopRow("", "", cols, row);
    var p := Project(cols, row);
    assert |r.value| == |p|;
    forall j | 0 <= j < |p| ensures r.value[j] == p[j] {
    }
    assert r.value == p;
  }

  /** Projection distributes over concatenation of registries. */
  lemma {:induction false} ProjectAppend(a: seq<ColumnConfig>, b: seq<ColumnConfig>, row: Row)
    ensures Project(a + b, row) == Project(a, row) + Project(b, row)
  {
    if a == [] {
      assert a + b == b;
    } else {
      assert (a + b)[1..] == a[1..] + b;
      ProjectAppend(a[1..], b, row);
    }
  }

  /** Once the registry has two descriptors, adding a column appends exactly
      one cell, the row's value at the placeholder key, to every body row. */
  lemma AddColumnAppendsCell(titleKey: string, subtitleKey: string, cols: seq<ColumnConfig>, row: Row)
    requires |cols| >= 2
    requires KeysResolve(titleKey, subtitleKey, cols)
    ensures DesktopRow(titleKey, subtitleKey, Added(cols), row)
         == Ok(DesktopRow(titleKey, subtitleKey, cols, row).value + [Lookup(row, Placeholder.key)])
  {
    var more := Added(cols);
    assert more[0] == cols[0] && more[1] == cols[1];
    assert GetTitle(titleKey, more, row) == GetTitle(titleKey, cols, row);
    assert GetSubtitle(subtitleKey, more, row) == GetSubtitle(subtitleKey, cols, row);
    assert more[2..] == cols[2..] + [Placeholder];
    ProjectAppend(cols[2..], [Placeholder], row);
    var t, s := GetTitle(titleKey, cols, row).value, GetSubtitle(subtitleKey, cols, row).value;
    var p, x := Project(cols[2..], row), Lookup(row, Placeholder.key);
    assert Project([Placeholder], row) == [x];
    assert DesktopRow(titleKey, subtitleKey, more, row) == Ok([t, s] + (p + [x]));
    assert DesktopRow(titleKey, subtitleKey, cols, row) == Ok([t, s] + p);
    assert [t, s] + (p + [x]) == ([t, s] + p) + [x];
  }

  /** `data.map(...)` over the desktop body: the first row whose title or
      subtitle throws ends the render. */
  function BodyRows(titleKey: string, subtitleKey: string, cols: seq<ColumnConfig>, data: seq<Row>): (r: Outcome<seq<seq<Option<Value>>>>)
    ensures r.Ok? <==> |data| == 0 || KeysResolve(titleKey, subtitleKey, cols)
    ensures r.Ok? ==> |r.value| == |data|
    ensures r.Ok? ==> forall i :: 0 <= i < |data| ==> DesktopRow(titleKey, subtitleKey, cols, data[i]) == Ok(r.value[i])
  {
    if data == [] then Ok([])
    else
      match (DesktopRow(titleKey, subtitleKey, cols, data[0]), BodyRows(titleKey, subtitleKey, cols, data[1..]))
      case (Ok(first), Ok(rest)) => Ok([first] + rest)
      case _ => TypeError
  }

  /** One header cell: the three editable fields of the descriptor at `index`
      with its delete button, or the trailing add button. */
  datatype HeaderCell = EditCell(index: nat, column: ColumnConfig) | AddCell

  /** `columns.map((column, index) => ...)` with indices counted from `offset`. */
  function EditCells(cols: seq<ColumnConfig>, offset: nat): (r: seq<HeaderCell>)
    ensures |r| == |cols|
    ensures forall i :: 0 <= i < |cols| ==> r[i] == EditCell(offset + i, cols[i])
  {
    if cols == [] then [] else [EditCell(offset, cols[0])] + EditCells(cols[1..], offset + 1)
  }

  /** The desktop header row: one editable cell per descriptor, in registry
      order, then the add cell. */
  function Header(cols: seq<ColumnConfig>): (r: seq<HeaderCell>)
    ensures |r| == |cols| + 1
    ensures forall i :: 0 <= i < |cols| ==> r[i] == EditCell(i, cols[i])
    ensures r[|cols|] == AddCell
  {
    EditCells(cols, 0) + [AddCell]
  }

  /** The labels the header shows, in registry order. */
  function HeaderLabels(cells: seq<HeaderCell>): (r: seq<string>)
  {
    if cells == [] then []
    else if cells[0].EditCell? then [cells[0].column.labelText] + HeaderLabels(cells[1..])
    else HeaderLabels(cells[1..])
  }

  /** The header shows exactly the descriptors' labels, in order. */
  lemma HeaderShowsLabels(cols: seq<ColumnConfig>)
    ensures HeaderLabels(Header(cols)) == seq(|cols|, i requires 0 <= i < |cols| => cols[i].labelText)
  {
    EditCellLabels(cols, 0);
  }

  /** The labels of the edit cells counted from any offset, then the add cell. */
  lemma {:induction false} EditCellLabels(cols: seq<ColumnConfig>, offset: nat)
    ensures HeaderLabels(EditCells(cols, offset) + [AddCell]) == seq(|cols|, i requires 0 <= i < |cols| => cols[i].labelText)
  {
    if cols == [] {
      assert EditCells(cols, offset) + [AddCell] == [AddCell];
    } else {
      var cells := EditCells(cols, offset) + [AddCell];
      assert cells[1..] == EditCells(cols[1..], offset + 1) + [AddCell];
      EditCellLabels(cols[1..], offset + 1);
    }
  }

  // ---------------------------------------------------------------------
  // Mobile list

  /** One list item: primary text from `getTitle`, secondary from `getSubtitle`. */
  datatype ListItem = ListItem(primary: Option<Value>, secondary: Option<Value>)

  /** `data.map(row => <ListItem primary={getTitle(row)} secondary={getSubtitle(row)}/>)`. */
  function ListItems(titleKey: string, subtitleKey: string, cols: seq<ColumnConfig>, data: seq<Row>): (r: Outcome<seq<ListItem>>)
    ensures r.Ok? <==> |data| == 0 || KeysResolve(titleKey, subtitleKey, cols)
    ensures r.Ok? ==> |r.value| == |data|
    ensures r.Ok? ==> forall i :: 0 <= i < |data| ==>
              Ok(r.value[i].primary) == GetTitle(titleKey, cols, data[i]) &&
              Ok(r.value[i].secondary) == GetSubtitle(subtitleKey, cols, data[i])
  {
    if data == [] then Ok([])
    else
      match (GetTitle(titleKey, cols, data[0]), GetSubtitle(subtitleKey, cols, data[0]), ListItems(titleKey, subtitleKey, cols, data[1..]))
      case (Ok(t), Ok(s), Ok(rest)) => Ok([ListItem(t, s)] + rest)
      case _ => TypeError
  }

  /** The menu of a title or subtitle select: the field names of the first
      record (their order is not modelled), or only the current key when
      there is no record. */
  function SelectOptions(current: string, data: seq<Row>): (r: set<string>)
  {
    if |data| > 0 then data[0].Keys else {current}
  }

  /** Choosing any non-empty field name the title menu offers makes every
      list item's primary text that record's value at the chosen field, and
      the first record's item shows its value there. */
  lemma SelectedTitleShown(current: string, k: string, subtitleKey: string, cols: seq<ColumnConfig>, data: seq<Row>)
    requires k in SelectOptions(current, data) && k != ""
    requires subtitleKey != "" || |cols| > 1
    ensures Render(false, true, cols, Some(data), k, subtitleKey).MobileList?
    ensures forall i :: 0 <= i < |data| ==>
              Render(false, true, cols, Some(data), k, subtitleKey).items[i].primary == Lookup(data[i], k)
    ensures |data| > 0 ==> Render(false, true, cols, Some(data), k, subtitleKey).items[0].primary == Some(data[0][k])
  {
    var v := Render(false, true, cols, Some(data), k, subtitleKey);
    assert KeysResolve(k, subtitleKey, cols);
    forall i | 0 <= i < |data| ensures v.items[i].primary == Lookup(data[i], k) {
      assert Ok(v.items[i].primary) == GetTitle(k, cols, data[i]);
    }
    if |data| > 0 {
      assert k in data[0];
    }
  }

  /** The same for the subtitle menu and the secondary texts. */
  lemma SelectedSubtitleShown(current: string, k: string, titleKey: string, cols: seq<ColumnConfig>, data: seq<Row>)
    requires k in SelectOptions(current, data) && k != ""
    requires titleKey != "" || |cols| > 0
    ensures Render(false, true, cols, Some(data), titleKey, k).MobileList?
    ensures forall i :: 0 <= i < |data| ==>
              Render(false, true, cols, Some(data), titleKey, k).items[i].secondary == Lookup(data[i], k)
    ensures |data| > 0 ==> Render(false, true, cols, Some(data), titleKey, k).items[0].secondary == Some(data[0][k])
  {
    var v := Render(false, true, cols, Some(data), titleKey, k);
    assert KeysResolve(titleKey, k, cols);
    forall i | 0 <= i < |data| ensures v.items[i].secondary == Lookup(data[i], k) {
      assert Ok(v.items[i].secondary) == GetSubtitle(k, cols, data[i]);
    }
    if |data| > 0 {
      assert k in data[0];
    }
  }

  /** Without records the menu offers the current key alone, so a choice
      from it leaves the key as it was. */
  lemma NoRecordsOfferCurrentKey(current: string, k: string)
    requires k in SelectOptions(current, [])
    ensures k == current
  {
  }

  /** A record field named by the empty string is offered, but the empty key
      is falsy, so choosing it shows descriptor 0's value, not that field's. */
  lemma EmptyFieldNameFallsBack(current: string, cols: seq<ColumnConfig>, data: seq<Row>)
    requires |data| > 0 && "" in data[0] && |cols| > 0
    ensures "" in SelectOptions(current, data)
    ensures GetTitle("", cols, data[0]) == Ok(Lookup(data[0], cols[0].key))
  {
  }

  // ---------------------------------------------------------------------
  // The render branch

  /** What the component displays below the URL field. */
  datatype View =
    | Spinner
    | MobileList(titleOptions: set<string>, subtitleOptions: set<string>, items: seq<ListItem>)
    | DesktopTable(header: seq<HeaderCell>, body: seq<seq<Option<Value>>>)
    | Crashed

  /** `isMobileView` for a window of the given width. */
  predicate IsMobileWidth(width: int)
  {
    width < 600
  }

  /** The render: the first of loading, mobile and desktop that applies. A
      thrown `TypeError` (a missing payload, or a title or subtitle key that
      cannot be resolved while there are records) replaces the view. */
  function Render(isLoading: bool, isMobileView: bool, cols: seq<ColumnConfig>, data: Option<seq<Row>>,
                  titleKey: string, subtitleKey: string): (v: View)
    ensures isLoading ==> v == Spinner
    ensures !isLoading ==>
              (v == Crashed <==> data.None? || (|data.value| > 0 && !KeysResolve(titleKey, subtitleKey, cols)))
    ensures !isLoading && isMobileView && v != Crashed ==>
              v.MobileList? &&
              v.titleOptions == SelectOptions(titleKey, data.value) &&
              v.subtitleOptions == SelectOptions(subtitleKey, data.value) &&
              |v.items| == |data.value| &&
              forall i :: 0 <= i < |data.value| ==>
                Ok(v.items[i].primary) == GetTitle(titleKey, cols, data.value[i]) &&
                Ok(v.items[i].secondary) == GetSubtitle(subtitleKey, cols, data.value[i])
    ensures !isLoading && !isMobileView && v != Crashed ==>
              v.DesktopTable? &&
              v.header == Header(cols) &&
              |v.body| == |data.value| &&
              forall i :: 0 <= i < |data.value| ==>
                DesktopRow(titleKey, subtitleKey, cols, data.value[i]) == Ok(v.body[i])
  {
    if isLoading then Spinner
    else match data
      case None => Crashed
      case Some(rows) =>
        if isMobileView then
          match ListItems(titleKey, subtitleKey, cols, rows)
          case Ok(items) => MobileList(SelectOptions(titleKey, rows), SelectOptions(subtitleKey, rows), items)
          case TypeError => Crashed
        else
          match BodyRows(titleKey, subtitleKey, cols, rows)
          case Ok(body) => DesktopTable(Header(cols), body)
          case TypeError => Crashed
  }

  /** With no records nothing is read from the registry's fallback
      descriptors, so the render does not throw, whatever the registry and
      the keys, and shows an empty list or an empty table. */
  lemma NoRecordsNoThrow(isMobileView: bool, cols: seq<ColumnConfig>, titleKey: string, subtitleKey: string)
    ensures Render(false, isMobileView, cols, Some([]), titleKey, subtitleKey)
         == if isMobileView then MobileList({titleKey}, {subtitleKey}, []) else DesktopTable(Header(cols), [])
  {
  }

  /** The width threshold: 599 is mobile and 600 is desktop. */
  lemma MobileBoundary()
    ensures IsMobileWidth(599) && !IsMobileWidth(600)
  {
  }
}
