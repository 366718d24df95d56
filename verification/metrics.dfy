/**
 * The `metrics` client command: it asks the master for every process's
 * metrics, then reshapes the per-worker maps into three tables (proxy
 * counters, application percentiles, backend traffic and percentiles) with
 * one column block per worker and one row per key.
 */
module Metrics {
  import opened Wrappers
  import opened Messages
  import opened Channels
  import opened Command

  // ---------------------------------------------------------------------
  // Columns: the values every worker reports under one key, worker by worker
  // ---------------------------------------------------------------------

  /** What one worker contributes to the row of `key`: its cells if it reports the key, nothing otherwise. */
  function Contribution<V, C>(m: map<string, V>, key: string, cells: V -> seq<C>): seq<C>
  {
    if key in m then cells(m[key]) else []
  }

  /** The cells of the row of `key`: the contributions of the workers in order. */
  function Column<V, C>(ms: seq<map<string, V>>, key: string, cells: V -> seq<C>): seq<C>
  {
    if ms == [] then []
    else Column(ms[..|ms| - 1], key, cells) + Contribution(ms[|ms| - 1], key, cells)
  }

  /** Every key some worker reports. */
  function KeysOf<V>(ms: seq<map<string, V>>): set<string>
  {
    if ms == [] then {} else KeysOf(ms[..|ms| - 1]) + ms[|ms| - 1].Keys
  }

  /** The table the loops over `data.values()` build: one row per reported key. */
  function Gathered<V, C>(ms: seq<map<string, V>>, cells: V -> seq<C>): map<string, seq<C>>
  {
    map key | key in KeysOf(ms) :: Column(ms, key, cells)
  }

  /** A table after one worker's map has been pushed onto it, entry by entry. */
  function Appended<V, C>(t: map<string, seq<C>>, m: map<string, V>, cells: V -> seq<C>): map<string, seq<C>>
  {
    map key | key in t.Keys + m.Keys :: (if key in t then t[key] else []) + Contribution(m, key, cells)
  }

  /** A key is reported by some worker exactly when it is in KeysOf. */
  lemma {:induction false} KeysOfMeans<V>(ms: seq<map<string, V>>, key: string)
    ensures key in KeysOf(ms) <==> exists i | 0 <= i < |ms| :: key in ms[i]
  {
    if ms != [] {
      var n := |ms| - 1;
      KeysOfMeans(ms[..n], key);
      if key in KeysOf(ms[..n]) {
        var i :| 0 <= i < n && key in ms[..n][i];
        assert key in ms[i];
      }
      if exists i | 0 <= i < |ms| :: key in ms[i] {
        var i :| 0 <= i < |ms| && key in ms[i];
        if i < n {
          assert key in ms[..n][i];
        }
      }
    }
  }

  /** A key no worker reports has an empty row. */
  lemma {:induction false} ColumnOfUnreported<V, C>(ms: seq<map<string, V>>, key: string, cells: V -> seq<C>)
    requires key !in KeysOf(ms)
    ensures Column(ms, key, cells) == []
  {
    if ms != [] {
      ColumnOfUnreported(ms[..|ms| - 1], key, cells);
    }
  }

  /** Pushing one more worker's map onto the table built so far gives the table of the longer worker list. */
  lemma GatheredGrows<V, C>(ms: seq<map<string, V>>, m: map<string, V>, cells: V -> seq<C>)
    ensures Gathered(ms + [m], cells) == Appended(Gathered(ms, cells), m, cells)
  {
    var ms' := ms + [m];
    assert ms'[..|ms'| - 1] == ms;
    assert KeysOf(ms') == KeysOf(ms) + m.Keys;
    forall key | key in KeysOf(ms')
      ensures Gathered(ms', cells)[key] == Appended(Gathered(ms, cells), m, cells)[key]
    {
      if key !in KeysOf(ms) {
        ColumnOfUnreported(ms, key, cells);
      }
    }
  }

  /** Pushes every entry of one worker's map onto the table (the `entry().or_insert().push()` loops). */
  method Absorb<V, C>(t: map<string, seq<C>>, m: map<string, V>, cells: V -> seq<C>) returns (t2: map<string, seq<C>>)
    ensures t2 == Appended(t, m, cells)
  {
    t2 := t;
    var rest := m.Keys;
    while rest != {}
      invariant rest <= m.Keys
      invariant t2.Keys == t.Keys + (m.Keys - rest)
      invariant forall key | key in t2 ::
        t2[key] == (if key in t then t[key] else []) + (if key in rest then [] else Contribution(m, key, cells))
      decreases rest
    {
      var key :| key in rest;
      t2 := t2[key := (if key in t2 then t2[key] else []) + cells(m[key])];
      rest := rest - {key};
    }
  }

  // ---------------------------------------------------------------------
  // Headers
  // ---------------------------------------------------------------------

  /** The labels of every worker's block, in worker order. */
  function Blocks(names: seq<string>, labels: string -> seq<string>): seq<string>
  {
    if names == [] then [] else Blocks(names[..|names| - 1], labels) + labels(names[|names| - 1])
  }

  /** The one proxy column of a worker: its name. */
  function NameLabel(name: string): seq<string>
  {
    [name]
  }

  /** The eight percentile columns of one worker. */
  function PercentileLabels(name: string): seq<string>
  {
    [name + " samples", name + " p50%", name + " p90%", name + " p99%",
     name + " p99.9%", name + " p99.99%", name + " p99.999%", name + " p100%"]
  }

  /** The ten backend columns of one worker: traffic, then the percentiles. */
  function BackendLabels(name: string): seq<string>
  {
    [name + " bytes out", name + " bytes in"] + PercentileLabels(name)
  }

  // ---------------------------------------------------------------------
  // Cells
  // ---------------------------------------------------------------------

  /** A proxy counter fills one cell. */
  function Single(v: FilteredData): seq<FilteredData>
  {
    [v]
  }

  /** An application's eight cells, in the order of its header labels. */
  function PercentileCells(p: Percentiles): seq<nat>
  {
    [p.samples, p.p50, p.p90, p.p99, p.p99_9, p.p99_99, p.p99_999, p.p100]
  }

  /** A backend's ten cells: bytes out, bytes in, then its percentiles. */
  function BackendCells(b: BackendMetrics): seq<nat>
  {
    [b.bytesOut, b.bytesIn] + PercentileCells(b.percentiles)
  }

  // ---------------------------------------------------------------------
  // Rows against headers
  // ---------------------------------------------------------------------

  /** Worker j's cells, whatever key they are reported under, are as many as its labels in the header. */
  ghost predicate Fits<V, C>(names: seq<string>, ms: seq<map<string, V>>, cells: V -> seq<C>, labels: string -> seq<string>)
  {
    && |names| == |ms|
    && forall j, key | 0 <= j < |ms| && key in ms[j] :: |cells(ms[j][key])| == |labels(names[j])|
  }

  lemma FitsPrefix<V, C>(names: seq<string>, ms: seq<map<string, V>>, cells: V -> seq<C>, labels: string -> seq<string>, n: nat)
    requires Fits(names, ms, cells, labels) && n <= |ms|
    ensures Fits(names[..n], ms[..n], cells, labels)
  {
    forall j, key | 0 <= j < n && key in ms[..n][j]
      ensures |cells(ms[..n][j][key])| == |labels(names[..n][j])|
    {
      assert ms[..n][j] == ms[j] && names[..n][j] == names[j];
    }
  }

  /** The workers that report `key`, all of them. */
  ghost predicate AllReport<V>(ms: seq<map<string, V>>, key: string)
  {
    forall j | 0 <= j < |ms| :: key in ms[j]
  }

  /** A row is never longer than its header, and exactly as long when every worker reports its key. */
  lemma {:induction false} RowLength<V, C>(names: seq<string>, ms: seq<map<string, V>>, key: string,
                                           cells: V -> seq<C>, labels: string -> seq<string>)
    requires Fits(names, ms, cells, labels)
    ensures |Column(ms, key, cells)| <= |Blocks(names, labels)|
    ensures AllReport(ms, key) ==> |Column(ms, key, cells)| == |Blocks(names, labels)|
  {
    if ms != [] {
      var n := |ms| - 1;
      FitsPrefix(names, ms, cells, labels, n);
      RowLength(names[..n], ms[..n], key, cells, labels);
      if AllReport(ms, key) {
        assert AllReport(ms[..n], key) by {
          forall j | 0 <= j < n
            ensures key in ms[..n][j]
          {
            assert ms[..n][j] == ms[j];
          }
        }
      }
    }
  }

  /**
   * A worker that does not report the key adds no cells, so its row is
   * shorter than the header (RowShifted says where the later cells land).
   */
  lemma {:induction false} RowShortWhenUnreported<V, C>(names: seq<string>, ms: seq<map<string, V>>, key: string,
                                                        cells: V -> seq<C>, labels: string -> seq<string>, i: nat)
    requires Fits(names, ms, cells, labels)
    requires i < |ms| && key !in ms[i] && labels(names[i]) != []
    ensures |Column(ms, key, cells)| < |Blocks(names, labels)|
  {
    var n := |ms| - 1;
    FitsPrefix(names, ms, cells, labels, n);
    if i == n {
      RowLength(names[..n], ms[..n], key, cells, labels);
    } else {
      assert ms[..n][i] == ms[i] && names[..n][i] == names[i];
      RowShortWhenUnreported(names[..n], ms[..n], key, cells, labels, i);
    }
  }

  /** The row of the first n workers is the start of the row of all of them. */
  lemma {:induction false} ColumnPrefix<V, C>(ms: seq<map<string, V>>, key: string, cells: V -> seq<C>, n: nat)
    requires n <= |ms|
    ensures Column(ms[..n], key, cells) <= Column(ms, key, cells)
  {
    if n == |ms| {
      assert ms[..n] == ms;
    } else {
      var m := |ms| - 1;
      assert ms[..m][..n] == ms[..n];
      ColumnPrefix(ms[..m], key, cells, n);
    }
  }

  /** The header blocks of the first n workers are the start of the header blocks of all of them. */
  lemma {:induction false} BlocksPrefix(names: seq<string>, labels: string -> seq<string>, n: nat)
    requires n <= |names|
    ensures Blocks(names[..n], labels) <= Blocks(names, labels)
  {
    if n == |names| {
      assert names[..n] == names;
    } else {
      var m := |names| - 1;
      assert names[..m][..n] == names[..n];
      BlocksPrefix(names[..m], labels, n);
    }
  }

  /** When exactly worker i lacks the key, the row falls short of the header by worker i's block. */
  lemma {:induction false} RowLengthMissingOne<V, C>(names: seq<string>, ms: seq<map<string, V>>, key: string,
                                                     cells: V -> seq<C>, labels: string -> seq<string>, i: nat)
    requires Fits(names, ms, cells, labels)
    requires i < |ms| && key !in ms[i]
    requires forall k | 0 <= k < |ms| && k != i :: key in ms[k]
    ensures |Column(ms, key, cells)| + |labels(names[i])| == |Blocks(names, labels)|
  {
    var n := |ms| - 1;
    FitsPrefix(names, ms, cells, labels, n);
    if i == n {
      assert AllReport(ms[..n], key) by {
        forall k | 0 <= k < n
          ensures key in ms[..n][k]
        {
          assert ms[..n][k] == ms[k];
        }
      }
      RowLength(names[..n], ms[..n], key, cells, labels);
    } else {
      assert ms[..n][i] == ms[i] && names[..n][i] == names[i];
      forall k | 0 <= k < n && k != i
        ensures key in ms[..n][k]
      {
        assert ms[..n][k] == ms[k];
      }
      RowLengthMissingOne(names[..n], ms[..n], key, cells, labels, i);
    }
  }

  /**
   * The shift a missing key causes: when worker i lacks the key and every
   * other worker up to j > i reports it, worker j's cells start one block of
   * worker i's width before worker j's own labels, under the labels of the
   * workers before j.
   */
  lemma RowShifted<V, C>(names: seq<string>, ms: seq<map<string, V>>, key: string,
                         cells: V -> seq<C>, labels: string -> seq<string>, i: nat, j: nat)
    requires Fits(names, ms, cells, labels)
    requires i < j < |ms| && key !in ms[i]
    requires forall k | 0 <= k <= j && k != i :: key in ms[k]
    ensures var before, width := |Blocks(names[..j], labels)|, |labels(names[j])|;
      var at := before - |labels(names[i])|;
      && 0 <= at && at + width <= |Column(ms, key, cells)|
      && Column(ms, key, cells)[at .. at + width] == cells(ms[j][key])
      && before <= |Blocks(names, labels)|
      && Blocks(names, labels)[at .. before] == Blocks(names[..j], labels)[at..]
  {
    FitsPrefix(names, ms, cells, labels, j);
    assert ms[..j][i] == ms[i] && names[..j][i] == names[i];
    forall k | 0 <= k < j && k != i
      ensures key in ms[..j][k]
    {
      assert ms[..j][k] == ms[k];
    }
    RowLengthMissingOne(names[..j], ms[..j], key, cells, labels, i);
    var front := ms[..j + 1];
    assert front[..j] == ms[..j] && front[j] == ms[j];
    assert Column(front, key, cells) == Column(ms[..j], key, cells) + cells(ms[j][key]);
    ColumnPrefix(ms, key, cells, j + 1);
    BlocksPrefix(names, labels, j);
  }

  /**
   * When every worker reports the key, worker i's cells in the row sit exactly
   * under worker i's labels in the header.
   */
  lemma {:induction false} RowAligned<V, C>(names: seq<string>, ms: seq<map<string, V>>, key: string,
                                            cells: V -> seq<C>, labels: string -> seq<string>, i: nat)
    requires Fits(names, ms, cells, labels) && AllReport(ms, key)
    requires i < |ms|
    ensures var at, width := |Blocks(names[..i], labels)|, |labels(names[i])|;
      && at + width <= |Blocks(names, labels)| == |Column(ms, key, cells)|
      && Blocks(names, labels)[at .. at + width] == labels(names[i])
      && Column(ms, key, cells)[at .. at + width] == cells(ms[i][key])
  {
    var n := |ms| - 1;
    FitsPrefix(names, ms, cells, labels, n);
    assert AllReport(ms[..n], key) by {
      forall j | 0 <= j < n
        ensures key in ms[..n][j]
      {
        assert ms[..n][j] == ms[j];
      }
    }
    RowLength(names, ms, key, cells, labels);
    if i == n {
      RowLength(names[..n], ms[..n], key, cells, labels);
    } else {
      assert ms[..n][i] == ms[i] && names[..n][i] == names[i] && names[..n][..i] == names[..i];
      RowAligned(names[..n], ms[..n], key, cells, labels, i);
    }
  }

  function ProxyMaps(ws: seq<WorkerMetrics>): seq<map<string, FilteredData>>
  {
    seq(|ws|, i requires 0 <= i < |ws| => ws[i].proxy)
  }

  function ApplicationMaps(ws: seq<WorkerMetrics>): seq<map<string, Percentiles>>
  {
    seq(|ws|, i requires 0 <= i < |ws| => ws[i].applications)
  }

  function BackendMaps(ws: seq<WorkerMetrics>): seq<map<string, BackendMetrics>>
  {
    seq(|ws|, i requires 0 <= i < |ws| => ws[i].backends)
  }

  // ---------------------------------------------------------------------
  // The report
  // ---------------------------------------------------------------------

  /**
   * The tables `metrics` prints: the master's counters when the master answered,
   * the order of the worker columns, and each table's header and rows (a row is
   * keyed by its first cell; the order the rows are printed in is not modelled).
   */
  datatype MetricsReport = MetricsReport(
    master: Option<map<string, FilteredData>>,
    workers: seq<string>,
    proxyHeader: seq<string>,
    proxyRows: map<string, seq<FilteredData>>,
    applicationHeader: seq<string>,
    applicationRows: map<string, seq<nat>>,
    backendHeader: seq<string>,
    backendRows: map<string, seq<nat>>)

  /** `names` lists every key of `keys` exactly once, in the map's unspecified iteration order. */
  ghost predicate Enumerates(names: seq<string>, keys: set<string>)
  {
    && (forall i, j | 0 <= i < j < |names| :: names[i] != names[j])
    && (forall x :: x in names <==> x in keys)
  }

  /** The metrics of the workers, in column order. */
  function InOrder(data: map<string, WorkerMetrics>, names: seq<string>): seq<WorkerMetrics>
    requires forall i | 0 <= i < |names| :: names[i] in data
  {
    seq(|names|, i requires 0 <= i < |names| => data[names[i]])
  }

  /** The three headers for the worker columns `names`. */
  ghost predicate Headed(names: seq<string>, proxyHeader: seq<string>, applicationHeader: seq<string>,
                         backendHeader: seq<string>)
  {
    && proxyHeader == ["key"] + Blocks(names, NameLabel)
    && applicationHeader == ["application"] + Blocks(names, PercentileLabels)
    && backendHeader == ["backend"] + Blocks(names, BackendLabels)
  }

  /** The three tables' rows for the workers' metrics `ws`, in column order. */
  ghost predicate Tabulated(ws: seq<WorkerMetrics>, proxyRows: map<string, seq<FilteredData>>,
                            applicationRows: map<string, seq<nat>>, backendRows: map<string, seq<nat>>)
  {
    && proxyRows == Gathered(ProxyMaps(ws), Single)
    && applicationRows == Gathered(ApplicationMaps(ws), PercentileCells)
    && backendRows == Gathered(BackendMaps(ws), BackendCells)
  }

  /** `report` is what the reshaping prints for `data`. */
  ghost predicate Reshaped(data: map<string, WorkerMetrics>, report: MetricsReport)
  {
    && report.master == (if "master" in data then Some(data["master"].proxy) else None)
    && Enumerates(report.workers, data.Keys - {"master"})
    && (forall i | 0 <= i < |report.workers| :: report.workers[i] in data)
    && Headed(report.workers, report.proxyHeader, report.applicationHeader, report.backendHeader)
    && Tabulated(InOrder(data, report.workers), report.proxyRows, report.applicationRows, report.backendRows)
  }

  /** Lists the workers' names (every key but "master") in some order, with their metrics. */
  method Enumerate(data: map<string, WorkerMetrics>) returns (names: seq<string>, ws: seq<WorkerMetrics>)
    ensures Enumerates(names, data.Keys - {"master"})
    ensures forall i | 0 <= i < |names| :: names[i] in data
    ensures ws == InOrder(data, names)
  {
    var rest := data.Keys - {"master"};
    names, ws := [], [];
    while rest != {}
      invariant rest <= data.Keys - {"master"}
      invariant forall i | 0 <= i < |names| :: names[i] in data && names[i] !in rest
      invariant forall i, j | 0 <= i < j < |names| :: names[i] != names[j]
      invariant forall x :: x in names <==> x in data.Keys - {"master"} - rest
      invariant ws == InOrder(data, names)
      decreases rest
    {
      var name :| name in rest;
      names, ws := names + [name], ws + [data[name]];
      rest := rest - {name};
    }
  }

  /** Builds the three headers: a first label, then each worker's block of labels. */
  method Headers(names: seq<string>) returns (proxyHeader: seq<string>, applicationHeader: seq<string>,
                                               backendHeader: seq<string>)
    ensures Headed(names, proxyHeader, applicationHeader, backendHeader)
  {
    proxyHeader, applicationHeader, backendHeader := ["key"], ["application"], ["backend"];
    for i := 0 to |names|
      invariant Headed(names[..i], proxyHeader, applicationHeader, backendHeader)
    {
      assert names[..i + 1][..i] == names[..i];
      proxyHeader := proxyHeader + NameLabel(names[i]);
      applicationHeader := applicationHeader + PercentileLabels(names[i]);
      backendHeader := backendHeader + BackendLabels(names[i]);
    }
    assert names[..|names|] == names;
  }

  /** Pushing worker i's map onto the table of the workers before it gives the table of ws[..i + 1]. */
  lemma GatheredStep<V, C>(ms: seq<map<string, V>>, i: nat, t: map<string, seq<C>>, cells: V -> seq<C>)
    requires i < |ms| && t == Gathered(ms[..i], cells)
    ensures Appended(t, ms[i], cells) == Gathered(ms[..i + 1], cells)
  {
    GatheredGrows(ms[..i], ms[i], cells);
    assert ms[..i + 1] == ms[..i] + [ms[i]];
  }

  lemma TabulatedStep(ws: seq<WorkerMetrics>, i: nat, proxyRows: map<string, seq<FilteredData>>,
                      applicationRows: map<string, seq<nat>>, backendRows: map<string, seq<nat>>)
    requires i < |ws| && Tabulated(ws[..i], proxyRows, applicationRows, backendRows)
    ensures Tabulated(ws[..i + 1], Appended(proxyRows, ws[i].proxy, Single),
                      Appended(applicationRows, ws[i].applications, PercentileCells),
                      Appended(backendRows, ws[i].backends, BackendCells))
  {
    assert ProxyMaps(ws[..i]) == ProxyMaps(ws)[..i];
    assert ApplicationMaps(ws[..i]) == ApplicationMaps(ws)[..i];
    assert BackendMaps(ws[..i]) == BackendMaps(ws)[..i];
    assert ProxyMaps(ws[..i + 1]) == ProxyMaps(ws)[..i + 1];
    assert ApplicationMaps(ws[..i + 1]) == ApplicationMaps(ws)[..i + 1];
    assert BackendMaps(ws[..i + 1]) == BackendMaps(ws)[..i + 1];
    GatheredStep(ProxyMaps(ws), i, proxyRows, Single);
    GatheredStep(ApplicationMaps(ws), i, applicationRows, PercentileCells);
    GatheredStep(BackendMaps(ws), i, backendRows, BackendCells);
  }

  /** Builds the three tables' rows, worker after worker. */
  method Rows(ws: seq<WorkerMetrics>) returns (proxyRows: map<string, seq<FilteredData>>,
                                               applicationRows: map<string, seq<nat>>,
                                               backendRows: map<string, seq<nat>>)
    ensures Tabulated(ws, proxyRows, applicationRows, backendRows)
  {
    proxyRows, applicationRows, backendRows := map[], map[], map[];
    for i := 0 to |ws|
      invariant Tabulated(ws[..i], proxyRows, applicationRows, backendRows)
    {
      TabulatedStep(ws, i, proxyRows, applicationRows, backendRows);
      proxyRows := Absorb(proxyRows, ws[i].proxy, Single);
      applicationRows := Absorb(applicationRows, ws[i].applications, PercentileCells);
      backendRows := Absorb(backendRows, ws[i].backends, BackendCells);
    }
    assert ws[..|ws|] == ws;
  }

  /** The reshaping of a `Metrics` answer into the tables `metrics` prints. */
  method Reshape(data: map<string, WorkerMetrics>) returns (report: MetricsReport)
    ensures Reshaped(data, report)
  {
    var master := if "master" in data then Some(data["master"].proxy) else None;
    var names, ws := Enumerate(data);
    var proxyHeader, applicationHeader, backendHeader := Headers(names);
    var proxyRows, applicationRows, backendRows := Rows(ws);
    report := MetricsReport(master, names, proxyHeader, proxyRows, applicationHeader, applicationRows,
                            backendHeader, backendRows);
  }

  /** Every worker's column is its name, and the master is never among them. */
  lemma WorkersAreTheOtherProcesses(data: map<string, WorkerMetrics>, report: MetricsReport)
    requires Reshaped(data, report)
    ensures |report.workers| == |data.Keys - {"master"}|
    ensures "master" !in report.workers
    ensures |report.proxyHeader| == 1 + |report.workers|
    ensures |report.applicationHeader| == 1 + 8 * |report.workers|
    ensures |report.backendHeader| == 1 + 10 * |report.workers|
  {
    ghost var keys := data.Keys - {"master"};
    ghost var listed := set i | 0 <= i < |report.workers| :: report.workers[i];
    assert listed == keys;
    assert |listed| == |report.workers| by {
      DistinctCount(report.workers);
    }
    BlocksOfNames(report.workers);
    PercentileBlocksWidth(report.workers);
    BackendBlocksWidth(report.workers);
  }

  lemma {:induction false} DistinctCount(names: seq<string>)
    requires forall i, j | 0 <= i < j < |names| :: names[i] != names[j]
    ensures |set i | 0 <= i < |names| :: names[i]| == |names|
  {
    if names != [] {
      var n := |names| - 1;
      var prefix := names[..n];
      DistinctCount(prefix);
      var s := set i | 0 <= i < n :: prefix[i];
      assert (set i | 0 <= i < |names| :: names[i]) == s + {names[n]};
      assert names[n] !in s;
    }
  }

  lemma {:induction false} BlocksOfNames(names: seq<string>)
    ensures Blocks(names, NameLabel) == names
  {
    if names != [] {
      BlocksOfNames(names[..|names| - 1]);
    }
  }

  lemma {:induction false} PercentileBlocksWidth(names: seq<string>)
    ensures |Blocks(names, PercentileLabels)| == 8 * |names|
  {
    if names != [] {
      PercentileBlocksWidth(names[..|names| - 1]);
    }
  }

  lemma {:induction false} BackendBlocksWidth(names: seq<string>)
    ensures |Blocks(names, BackendLabels)| == 10 * |names|
  {
    if names != [] {
      BackendBlocksWidth(names[..|names| - 1]);
    }
  }

  /** A table whose header and rows come from the same workers lines up wherever every worker reports the row's key. */
  lemma TableLinesUp<V, C>(names: seq<string>, ms: seq<map<string, V>>, first: string, header: seq<string>,
                           rows: map<string, seq<C>>, key: string, cells: V -> seq<C>, labels: string -> seq<string>, i: nat)
    requires Fits(names, ms, cells, labels) && AllReport(ms, key) && i < |ms|
    requires header == [first] + Blocks(names, labels) && rows == Gathered(ms, cells)
    ensures key in rows
    ensures var at, width := |Blocks(names[..i], labels)|, |labels(names[i])|;
      && 1 + |rows[key]| == |header| && at + width <= |rows[key]|
      && header[1 + at .. 1 + at + width] == labels(names[i])
      && rows[key][at .. at + width] == cells(ms[i][key])
  {
    KeysOfMeans(ms, key);
    assert key in ms[i];
    assert rows[key] == Column(ms, key, cells);
    RowAligned(names, ms, key, cells, labels, i);
  }

  lemma ApplicationsFit(names: seq<string>, ws: seq<WorkerMetrics>)
    requires |names| == |ws|
    ensures Fits(names, ApplicationMaps(ws), PercentileCells, PercentileLabels)
  {
  }

  lemma BackendsFit(names: seq<string>, ws: seq<WorkerMetrics>)
    requires |names| == |ws|
    ensures Fits(names, BackendMaps(ws), BackendCells, BackendLabels)
  {
  }

  lemma ProxiesFit(names: seq<string>, ws: seq<WorkerMetrics>)
    requires |names| == |ws|
    ensures Fits(names, ProxyMaps(ws), Single, NameLabel)
  {
  }

  /**
   * In the application table, when every worker reports the application,
   * worker i's eight percentiles sit under worker i's eight labels.
   */
  lemma ApplicationRowLinesUp(names: seq<string>, ws: seq<WorkerMetrics>, header: seq<string>,
                              rows: map<string, seq<nat>>, key: string, i: nat)
    requires |names| == |ws| && i < |ws|
    requires header == ["application"] + Blocks(names, PercentileLabels)
    requires rows == Gathered(ApplicationMaps(ws), PercentileCells)
    requires forall j | 0 <= j < |ws| :: key in ws[j].applications
    ensures key in rows
    ensures var at := |Blocks(names[..i], PercentileLabels)|;
      && 1 + |rows[key]| == |header| && at + 8 <= |rows[key]|
      && header[1 + at .. 1 + at + 8] == PercentileLabels(names[i])
      && rows[key][at .. at + 8] == PercentileCells(ws[i].applications[key])
  {
    var ms := ApplicationMaps(ws);
    ApplicationsFit(names, ws);
    assert AllReport(ms, key) by {
      forall j | 0 <= j < |ms|
        ensures key in ms[j]
      {
        assert ms[j] == ws[j].applications;
      }
    }
    TableLinesUp(names, ms, "application", header, rows, key, PercentileCells, PercentileLabels, i);
    assert ms[i][key] == ws[i].applications[key];
  }

  /**
   * In the backend table, when every worker reports the backend, worker i's
   * ten cells sit under worker i's ten labels.
   */
  lemma BackendRowLinesUp(names: seq<string>, ws: seq<WorkerMetrics>, header: seq<string>,
                          rows: map<string, seq<nat>>, key: string, i: nat)
    requires |names| == |ws| && i < |ws|
    requires header == ["backend"] + Blocks(names, BackendLabels)
    requires rows == Gathered(BackendMaps(ws), BackendCells)
    requires forall j | 0 <= j < |ws| :: key in ws[j].backends
    ensures key in rows
    ensures var at := |Blocks(names[..i], BackendLabels)|;
      && 1 + |rows[key]| == |header| && at + 10 <= |rows[key]|
      && header[1 + at .. 1 + at + 10] == BackendLabels(names[i])
      && rows[key][at .. at + 10] == BackendCells(ws[i].backends[key])
  {
    var ms := BackendMaps(ws);
    BackendsFit(names, ws);
    assert AllReport(ms, key) by {
      forall j | 0 <= j < |ms|
        ensures key in ms[j]
      {
        assert ms[j] == ws[j].backends;
      }
    }
    TableLinesUp(names, ms, "backend", header, rows, key, BackendCells, BackendLabels, i);
    assert ms[i][key] == ws[i].backends[key];
  }

  /** In the proxy table, when every worker reports the counter, worker i's value sits under worker i's name. */
  lemma ProxyRowLinesUp(names: seq<string>, ws: seq<WorkerMetrics>, header: seq<string>,
                        rows: map<string, seq<FilteredData>>, key: string, i: nat)
    requires |names| == |ws| && i < |ws|
    requires header == ["key"] + Blocks(names, NameLabel)
    requires rows == Gathered(ProxyMaps(ws), Single)
    requires forall j | 0 <= j < |ws| :: key in ws[j].proxy
    ensures key in rows
    ensures 1 + |rows[key]| == |header| && i < |rows[key]|
    ensures header[1 + i .. 2 + i] == [names[i]] && rows[key][i .. i + 1] == [ws[i].proxy[key]]
  {
    var ms := ProxyMaps(ws);
    ProxiesFit(names, ws);
    assert AllReport(ms, key) by {
      forall j | 0 <= j < |ms|
        ensures key in ms[j]
      {
        assert ms[j] == ws[j].proxy;
      }
    }
    TableLinesUp(names, ms, "key", header, rows, key, Single, NameLabel, i);
    assert ms[i][key] == ws[i].proxy[key];
    BlocksOfNames(names[..i]);
  }

  // ---------------------------------------------------------------------
  // The command
  // ---------------------------------------------------------------------

  /** The answer `metrics` waits for: Ok, to its own id, carrying metrics. */
  predicate CarriesMetrics(r: Option<Answer>, id: string)
  {
    Answers(r, id, Ok) && r.value.data.Some? && r.value.data.value.Metrics?
  }

  /**
   * Sends the Metrics command, then reads past silence, interim and error
   * answers, foreign ids and Ok answers without metrics, until its own Ok
   * answer with metrics arrives; that answer is reshaped into the report.
   */
  method Metrics(ch: Channel, ids: IdSource) returns (o: Outcome, report: Option<MetricsReport>, ghost used: nat)
    modifies ch, ids
    ensures ids.drawn == old(ids.drawn) + 1
    ensures ch.output == old(ch.output) + [ConfigMessage(ids.Id(old(ids.drawn)), ConfigCommand.Metrics, None)]
    ensures ReadLoop(old(ch.input), ch.input, used, r => !CarriesMetrics(r, ids.Id(old(ids.drawn))), o == Blocked)
    ensures o == Blocked || o == Done
    ensures o == Blocked <==> report.None?
    ensures o == Done ==> Reshaped(old(ch.input)[used - 1].value.data.value.metrics, report.value)
  {
    var id := ids.GenerateId();
    ch.Write(ConfigMessage(id, ConfigCommand.Metrics, None));
    ghost var in0 := ch.input;
    ghost var out1 := ch.output;
    used := 0;
    while true
      invariant used <= |in0| && ch.input == in0[used..]
      invariant forall j | 0 <= j < used :: !CarriesMetrics(in0[j], id)
      invariant ch.output == out1 && ids.drawn == old(ids.drawn) + 1
      decreases |ch.input|
    {
      if ch.input == [] {
        return Blocked, None, used;
      }
      var r := ch.Read();
      used := used + 1;
      match r {
        case None =>
        case Some(message) =>
          match message.status {
            case Processing =>
            case Error =>
            case Ok =>
              if id == message.id && message.data.Some? && message.data.value.Metrics? {
                var shaped := Reshape(message.data.value.metrics);
                return Done, Some(shaped), used;
              }
          }
      }
    }
  }
}
