/** The component's state and its handlers. Each React state variable is a
    field; each handler is a method whose frame names the state it sets. The
    HTTP request is split in two: `FetchData` issues it and `CompleteFetch`
    delivers its outcome, which the caller chooses. */
module Grid {
  import opened Wrappers
  import opened Columns
  import opened Projection

  /** How a request settled: a response whose `response.data.data` is the
      given payload (`None` when absent), or a rejected promise. */
  datatype FetchOutcome = Success(payload: Option<seq<Row>>) | Failure

  class ConfigurableGrid {
    var apiUrl: string
    var columnConfig: seq<ColumnConfig>
    var data: Option<seq<Row>>
    var isLoading: bool
    var isMobileView: bool
    var titleKey: string
    var subtitleKey: string
    /** Requests issued and not yet settled; any of them may settle next. */
    ghost var pending: nat
    /** Whether the mount effect has run. */
    ghost var mounted: bool

    /** The first render's state, for a window of the given width. */
    constructor (defaultColumnConfig: seq<ColumnConfig>, width: int)
      ensures apiUrl == "" && columnConfig == defaultColumnConfig && data == Some([])
      ensures !isLoading && isMobileView == IsMobileWidth(width)
      ensures titleKey == "" && subtitleKey == ""
      ensures pending == 0 && !mounted
      ensures !isMobileView ==> Rendered() == DesktopTable(Header(defaultColumnConfig), [])
      ensures isMobileView ==> Rendered() == MobileList({""}, {""}, [])
    {
      apiUrl := "";
      columnConfig := defaultColumnConfig;
      data := Some([]);
      isLoading := false;
      isMobileView := IsMobileWidth(width);
      titleKey := "";
      subtitleKey := "";
      pending := 0;
      mounted := false;
    }

    /** What the component shows in the current state. */
    function Rendered(): (v: View)
      reads this
    {
      Render(isLoading, isMobileView, columnConfig, data, titleKey, subtitleKey)
    }

    /** The component is on screen and can receive events: the mount effect
        has run and the last render did not throw. Without an error boundary,
        a render that throws unmounts the tree, so no handler, resize listener
        or promise callback reaches the state afterwards. */
    ghost predicate Live()
      reads this
    {
      mounted && Rendered() != Crashed
    }

    /** The spinner is up and no request is pending that could take it down:
        only another `FetchData` with a non-empty URL gets out of this state. */
    ghost predicate SpinnerStuck()
      reads this
    {
      isLoading && pending == 0
    }

    /** The mount effect, run once after the first render completed and
        before any handler or resize listener exists: in mobile view with at
        least two descriptors, the title and subtitle keys are seeded from
        descriptors 0 and 1. */
    method Mount()
      requires !mounted && Rendered() != Crashed
      modifies this`titleKey, this`subtitleKey, this`mounted
      ensures Live()
      ensures isMobileView && |columnConfig| > 1 ==>
                titleKey == columnConfig[0].key && subtitleKey == columnConfig[1].key
      ensures !(isMobileView && |columnConfig| > 1) ==>
                titleKey == old(titleKey) && subtitleKey == old(subtitleKey)
    {
      if isMobileView {
        if |columnConfig| > 1 {
          titleKey := columnConfig[0].key;
          subtitleKey := columnConfig[1].key;
        }
      }
      mounted := true;
    }

    /** The resize listener: recomputes the view mode and nothing else. */
    method Resize(width: int)
      requires Live()
      modifies this`isMobileView
      ensures isMobileView <==> width < 600
    {
      isMobileView := IsMobileWidth(width);
    }

    /** `handleApiUrlChange`. */
    method SetApiUrl(url: string)
      requires Live()
      modifies this`apiUrl
      ensures apiUrl == url
    {
      apiUrl := url;
    }

    /** `handleTitleChange`. */
    method SetTitleKey(key: string)
      requires Live()
      modifies this`titleKey
      ensures titleKey == key
    {
      titleKey := key;
    }

    /** `handleSubtitleChange`. */
    method SetSubtitleKey(key: string)
      requires Live()
      modifies this`subtitleKey
      ensures subtitleKey == key
    {
      subtitleKey := key;
    }

    /** `fetchData`: raises the loading flag, and issues a request only when
        the URL is non-empty. With an empty URL and no earlier request still
        pending, nothing can lower the flag again but another fetch. */
    method FetchData() returns (requested: bool)
      requires Live()
      modifies this`isLoading, this`pending
      ensures isLoading && Rendered() == Spinner
      ensures requested <==> apiUrl != ""
      ensures pending == old(pending) + (if requested then 1 else 0)
      ensures apiUrl == "" && old(pending) == 0 ==> SpinnerStuck()
    {
      isLoading := true;
      requested := |apiUrl| > 0;
      if requested {
        pending := pending + 1;
      }
    }

    /** One issued request settles: on success the payload replaces the data
        (even when it is absent), on failure the data is kept; either way the
        loading flag drops. */
    method CompleteFetch(outcome: FetchOutcome)
      requires Live() && pending > 0
      modifies this`data, this`isLoading, this`pending
      ensures !isLoading && pending == old(pending) - 1
      ensures outcome.Success? ==> data == outcome.payload
      ensures outcome.Failure? ==> data == old(data)
    {
      match outcome {
        case Success(payload) => data := payload;
        case Failure =>
      }
      isLoading := false;
      pending := pending - 1;
    }

    /** `handleAddColumn`. */
    method AddColumn()
      requires Live()
      modifies this`columnConfig
      ensures |columnConfig| == |old(columnConfig)| + 1
      ensures columnConfig[..|old(columnConfig)|] == old(columnConfig)
      ensures columnConfig[|old(columnConfig)|] == Placeholder
    {
      columnConfig := Added(columnConfig);
    }

    /** `handleRemoveColumn(index)`, with `splice`'s treatment of an index
        outside the registry. */
    method RemoveColumn(index: int)
      requires Live()
      modifies this`columnConfig
      ensures columnConfig == Removed(old(columnConfig), index)
      ensures 0 <= index < |old(columnConfig)| ==>
                columnConfig == old(columnConfig)[..index] + old(columnConfig)[index + 1..]
      ensures index >= |old(columnConfig)| ==> columnConfig == old(columnConfig)
    {
      if 0 <= index < |columnConfig| {
        RemovedSplits(columnConfig, index);
      }
      columnConfig := Removed(columnConfig, index);
    }

    /** `handleColumnConfigChange(index, field, value)`: throws, changing
        nothing, when there is no descriptor at `index`. */
    method ColumnConfigChange(index: int, field: Field, value: string) returns (thrown: bool)
      requires Live()
      modifies this`columnConfig
      ensures thrown <==> !(0 <= index < |old(columnConfig)|)
      ensures thrown ==> columnConfig == old(columnConfig)
      ensures !thrown ==> columnConfig == Edited(old(columnConfig), index, field, value)
    {
      match EditColumn(columnConfig, index, field, value)
      case Ok(edited) =>
        columnConfig := edited;
        thrown := false;
      case TypeError =>
        thrown := true;
    }
  }

  /** The default registry the application passes in. */
  const AppColumns := [ColumnConfig("Name", "name", "string"), ColumnConfig("Date", "date", "date")]

  /** A desktop window, one fetched record: the table has the two labels as
      header and the record's two values as its only body row. */
  method DesktopScenario()
  {
    var grid := new ConfigurableGrid(AppColumns, 800);
    grid.Mount();
    grid.SetApiUrl("https://example.org/items");
    var requested := grid.FetchData();
    assert requested && grid.Rendered() == Spinner;
    var bob: Row := map["name" := Str("Bob"), "date" := Str("2024-01-01")];
    grid.CompleteFetch(Success(Some([bob])));
    var v := grid.Rendered();
    assert v.DesktopTable?;
    assert v.header == [EditCell(0, AppColumns[0]), EditCell(1, AppColumns[1]), AddCell];
    HeaderShowsLabels(AppColumns);
    assert HeaderLabels(v.header) == ["Name", "Date"];
    assert |v.body| == 1 && DesktopRow("", "", AppColumns, bob) == Ok(v.body[0]);
    assert v.body[0] == [Some(Str("Bob")), Some(Str("2024-01-01"))];
  }

  /** A mobile window: mounting seeds the keys, the list shows each record's
      title and subtitle, and a failed refetch keeps the records. */
  method MobileScenario()
  {
    var grid := new ConfigurableGrid(AppColumns, 599);
    grid.Mount();
    assert grid.titleKey == "name" && grid.subtitleKey == "date";
    grid.SetApiUrl("https://example.org/items");
    var _ := grid.FetchData();
    var alice: Row := map["name" := Str("Alice"), "age" := Num(30)];
    grid.CompleteFetch(Success(Some([alice])));
    var v := grid.Rendered();
    assert v == MobileList({"name", "age"}, {"name", "age"}, [ListItem(Some(Str("Alice")), None)]);
    var _ := grid.FetchData();
    grid.CompleteFetch(Failure);
    assert grid.data == Some([alice]) && grid.Rendered() == v;
  }

  /** Edge cases of the fetch flag: an empty URL with nothing pending leaves
      the spinner up until the next fetch; a response without a payload makes
      the next render throw. */
  method FetchEdgeScenario()
  {
    var grid := new ConfigurableGrid(AppColumns, 1024);
    grid.Mount();
    var requested := grid.FetchData();
    assert !requested && grid.SpinnerStuck();
    grid.SetApiUrl("https://example.org/items");
    requested := grid.FetchData();
    grid.CompleteFetch(Success(None));
    assert grid.Rendered() == Crashed;
  }

  /** Registry edits: add then remove the last column restores the registry,
      and an out-of-range edit throws and changes nothing. */
  method RegistryScenario()
  {
    var grid := new ConfigurableGrid(AppColumns, 1024);
    grid.Mount();
    grid.AddColumn();
    grid.RemoveColumn(2);
    assert grid.columnConfig == AppColumns;
    var thrown := grid.ColumnConfigChange(5, Label, "x");
    assert thrown && grid.columnConfig == AppColumns;
    thrown := grid.ColumnConfigChange(0, Key, "title");
    assert !thrown && grid.columnConfig[0] == ColumnConfig("Name", "title", "string");
  }

  /** An emptied registry still renders an empty table. */
  method EmptyRegistryScenario()
  {
    var grid := new ConfigurableGrid(AppColumns, 1024);
    grid.Mount();
    grid.RemoveColumn(-1);
    assert grid.columnConfig == AppColumns[..1];
    NoRecordsNoThrow(false, grid.columnConfig, grid.titleKey, grid.subtitleKey);
    grid.RemoveColumn(0);
    assert grid.columnConfig == [];
    assert grid.Rendered() == DesktopTable([AddCell], []);
  }

  /** Without descriptors, the first fetched record makes the title fallback
      throw. */
  method RecordWithoutColumnsScenario()
  {
    var grid := new ConfigurableGrid([], 1024);
    grid.Mount();
    grid.SetApiUrl("https://example.org/items");
    var _ := grid.FetchData();
    grid.CompleteFetch(Success(Some([map[]])));
    assert grid.Rendered() == Crashed;
  }
}
