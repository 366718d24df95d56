/**
 * `status` of ctl/src/command.rs: list the workers, send a Status order to
 * each Running one, let a background thread collect the answers for at most
 * one second, then print one table row per listed worker.
 */
module Status {
  import opened Wrappers
  import opened Messages
  import opened Channels
  import opened Command
  import opened Tracking

  /** What the table of pending orders holds per order id: the worker and its status so far. */
  type Entry = (nat, MessageStatus)

  /** The Status order to worker `w`, with the k-th plain id drawn. */
  function StatusMessage(ids: IdSource, k: nat, w: Worker): ConfigMessage
  {
    ConfigMessage(ids.Id(k), ProxyConfiguration(Order.Status), Some(w.id))
  }

  /** One Status order per worker, targeted at it, with the ids drawn from `from` on. */
  function StatusRequests(ids: IdSource, from: nat, ws: seq<Worker>): seq<ConfigMessage>
  {
    seq(|ws|, k requires 0 <= k < |ws| => StatusMessage(ids, from + k, ws[k]))
  }

  /**
   * The table the fan-out fills: every order id maps to its worker, still
   * Processing; were an id drawn twice, the later worker would replace the earlier.
   */
  function PendingTable(ids: IdSource, from: nat, ws: seq<Worker>): map<string, Entry>
  {
    if ws == [] then map[]
    else PendingTable(ids, from, ws[..|ws| - 1])[ids.Id(from + |ws| - 1) := (ws[|ws| - 1].id, Processing)]
  }

  lemma PendingTableGrow(ids: IdSource, d: nat, rs: seq<Worker>, w: Worker)
    ensures PendingTable(ids, d, rs + [w]) == PendingTable(ids, d, rs)[ids.Id(d + |rs|) := (w.id, Processing)]
  {
    assert (rs + [w])[..|rs|] == rs;
  }

  /** The pending table holds exactly the ids of the orders, all still Processing. */
  lemma {:induction false} PendingTableHoldsTheOrders(ids: IdSource, from: nat, ws: seq<Worker>)
    ensures PendingTable(ids, from, ws).Keys == IdsOf(StatusRequests(ids, from, ws))
    ensures forall x | x in PendingTable(ids, from, ws) :: PendingTable(ids, from, ws)[x].1 == Processing
  {
    if ws != [] {
      var init := ws[..|ws| - 1];
      assert ws == init + [ws[|ws| - 1]];
      PendingTableHoldsTheOrders(ids, from, init);
      StatusRequestsGrow(ids, from, init, ws[|ws| - 1]);
    }
  }

  /** One more Running worker: one more order, one more expected id, one more pending entry. */
  lemma StatusRequestsGrow(ids: IdSource, d: nat, rs: seq<Worker>, w: Worker)
    ensures StatusRequests(ids, d, rs + [w]) == StatusRequests(ids, d, rs) + [StatusMessage(ids, d + |rs|, w)]
    ensures IdsOf(StatusRequests(ids, d, rs + [w])) == IdsOf(StatusRequests(ids, d, rs)) + {ids.Id(d + |rs|)}
  {
    assert StatusRequests(ids, d, rs + [w]) == StatusRequests(ids, d, rs) + [StatusMessage(ids, d + |rs|, w)];
    IdsOfGrow(StatusRequests(ids, d, rs), StatusMessage(ids, d + |rs|, w));
  }

  /** After the orders to `running`: what was written, the ids expected, the pending table. */
  ghost predicate Sent(ids: IdSource, d: nat, running: seq<Worker>, out0: seq<ConfigMessage>,
                       out: seq<ConfigMessage>, expecting: set<string>, h: map<string, Entry>)
  {
    && out == out0 + StatusRequests(ids, d, running)
    && expecting == IdsOf(StatusRequests(ids, d, running))
    && h == PendingTable(ids, d, running)
  }

  lemma SentStep(ids: IdSource, d: nat, running: seq<Worker>, out0: seq<ConfigMessage>,
                 out: seq<ConfigMessage>, expecting: set<string>, h: map<string, Entry>, w: Worker)
    requires Sent(ids, d, running, out0, out, expecting, h)
    ensures var id := ids.Id(d + |running|);
      Sent(ids, d, running + [w], out0, out + [ConfigMessage(id, ProxyConfiguration(Order.Status), Some(w.id))],
           expecting + {id}, h[id := (w.id, Processing)])
  {
    StatusRequestsGrow(ids, d, running, w);
    PendingTableGrow(ids, d, running, w);
  }

  /** Status orders for every Running worker; each id is expected and entered as Processing. */
  method SendStatusOrders(ch: Channel, ids: IdSource, workers: seq<Worker>)
    returns (expecting: set<string>, h: map<string, Entry>)
    modifies ch`output, ids`drawn
    ensures ids.drawn == old(ids.drawn) + |RunningWorkers(workers)|
    ensures Sent(ids, old(ids.drawn), RunningWorkers(workers), old(ch.output), ch.output, expecting, h)
  {
    ghost var d := ids.drawn;
    ghost var out0 := ch.output;
    ghost var running: seq<Worker> := [];
    expecting, h := {}, map[];
    for i := 0 to |workers|
      invariant running == RunningWorkers(workers[..i])
      invariant ids.drawn == d + |running|
      invariant Sent(ids, d, running, out0, ch.output, expecting, h)
    {
      RunningGrow(workers, i);
      if workers[i].runState == Running {
        SentStep(ids, d, running, out0, ch.output, expecting, h, workers[i]);
        var id := ids.GenerateId();
        var msg := ConfigMessage(id, ProxyConfiguration(Order.Status), Some(workers[i].id));
        ch.Write(msg);
        expecting := expecting + {id};
        h := h[id := (workers[i].id, Processing)];
        running := running + [workers[i]];
      }
    }
    assert workers[..|workers|] == workers;
  }

  /**
   * The table once the answers `a` have been read: a final answer to an id
   * still expected records its status; every other answer changes nothing.
   */
  function Recorded(expecting: set<string>, h: map<string, Entry>, a: seq<Option<Answer>>): (r: map<string, Entry>)
    ensures r.Keys == h.Keys
  {
    if a == [] then h
    else
      var init, last := a[..|a| - 1], a[|a| - 1];
      var before := Recorded(expecting, h, init);
      if last.Some? && last.value.status != Processing && last.value.id in Outstanding(expecting, init)
         && last.value.id in before
      then before[last.value.id := (before[last.value.id].0, last.value.status)]
      else before
  }

  /** Each entry keeps its worker and ends with the status of the first final answer to its id, if expected. */
  lemma {:induction false} RecordedIsFirstConclusion(expecting: set<string>, h: map<string, Entry>, a: seq<Option<Answer>>, x: string)
    requires x in h
    ensures Recorded(expecting, h, a)[x]
         == (h[x].0, if x in expecting && FirstConclusion(a, x).Some? then FirstConclusion(a, x).value else h[x].1)
  {
    if a != [] {
      var init, last := a[..|a| - 1], a[|a| - 1];
      assert a == init + [last];
      RecordedIsFirstConclusion(expecting, h, init, x);
      OutstandingMeans(expecting, init, x);
      FirstConclusionExtend(init, last, x);
    }
  }

  /** One more answer: how the tracking set and the table move on. */
  lemma CollectStep(expecting: set<string>, h0: map<string, Entry>, a: seq<Option<Answer>>, r: Option<Answer>)
    ensures Outstanding(expecting, a + [r]) == Outstanding(expecting, a) - Retired(r)
    ensures var before := Recorded(expecting, h0, a);
      Recorded(expecting, h0, a + [r])
        == if r.Some? && r.value.status != Processing && r.value.id in Outstanding(expecting, a) && r.value.id in before
           then before[r.value.id := (before[r.value.id].0, r.value.status)]
           else before
  {
    assert (a + [r])[..|a|] == a;
  }

  /** The background thread stopped because a read yielded nothing, on which it exits the process. */
  ghost predicate Exited(in0: seq<Option<Answer>>, used: nat)
  {
    0 < used <= |in0| && in0[used - 1].None?
  }

  /** The background thread saw every order conclude, so it left its loop and went on to signal the main thread. */
  ghost predicate Concluded(expecting: set<string>, in0: seq<Option<Answer>>, used: nat)
    requires used <= |in0|
  {
    !Exited(in0, used) && Outstanding(expecting, in0[..used]) == {}
  }

  /**
   * How the background thread ran within the main thread's wait: it read
   * `used` answers, no more than `budget`, never once the set was empty and
   * never past an empty read; unless it exited or concluded, the wait ran out
   * or the answers did.
   */
  ghost predicate ThreadRan(expecting: set<string>, in0: seq<Option<Answer>>, budget: nat, used: nat)
  {
    && used <= budget && used <= |in0|
    && (forall k | 0 <= k < used :: Outstanding(expecting, in0[..k]) != {})
    && (forall k | 0 <= k < used - 1 :: in0[k].Some?)
    && (!Exited(in0, used) && !Concluded(expecting, in0, used) ==> used == budget || used == |in0|)
  }

  /**
   * The background thread, up to the end of the main thread's one-second wait;
   * `budget` is how many reads complete within it.
   */
  method Collect(ch: Channel, expecting0: set<string>, h0: map<string, Entry>, budget: nat)
    returns (exited: bool, concluded: bool, h: map<string, Entry>, used: nat)
    modifies ch`input
    ensures ThreadRan(expecting0, old(ch.input), budget, used)
    ensures ch.input == old(ch.input)[used..]
    ensures exited == Exited(old(ch.input), used)
    ensures concluded == Concluded(expecting0, old(ch.input), used)
    ensures h == Recorded(expecting0, h0, old(ch.input)[..used])
  {
    var expecting := expecting0;
    h := h0;
    ghost var in0 := ch.input;
    used := 0;
    while expecting != {} && used < budget && ch.input != []
      invariant used <= budget && used <= |in0| && ch.input == in0[used..]
      invariant expecting == Outstanding(expecting0, in0[..used])
      invariant h == Recorded(expecting0, h0, in0[..used])
      invariant forall k | 0 <= k < used :: Outstanding(expecting0, in0[..k]) != {}
      invariant forall k | 0 <= k < used :: in0[k].Some?
      decreases budget - used
    {
      var r := ch.Read();
      CollectStep(expecting0, h0, in0[..used], r);
      assert in0[..used + 1] == in0[..used] + [r];
      used := used + 1;
      match r {
        case None =>
          return true, false, h, used;
        case Some(message) =>
          if message.status != Processing && message.id in expecting {
            expecting := expecting - {message.id};
            if message.id in h {
              h := h[message.id := (h[message.id].0, message.status)];
            }
          }
      }
    }
    exited, concluded := false, expecting == {};
  }

  /** The answer column for a status; a pending order reads "timeout" unless the thread finished. */
  function Label(s: MessageStatus, finished: bool): (l: string)
    ensures l == "ok" <==> s == Ok
    ensures l == "error" <==> s == Error
    ensures l == "processing" <==> s == Processing && finished
    ensures l == "timeout" <==> s == Processing && !finished
  {
    match s
    case Processing => if finished then "processing" else "timeout"
    case Error => "error"
    case Ok => "ok"
  }

  /** The workers the entries of `h` name. */
  function WorkersOf(h: map<string, Entry>): set<nat>
  {
    set x | x in h :: h[x].0
  }

  /** `h2` labels every worker named in `h`, and only those, by the status of one of its entries. */
  ghost predicate LabelledBy(h: map<string, Entry>, finished: bool, h2: map<nat, string>)
  {
    && h2.Keys == WorkersOf(h)
    && forall w | w in h2 :: exists x | x in h :: h[x].0 == w && h2[w] == Label(h[x].1, finished)
  }

  /** The per-worker labels, collected from the entries in an unspecified order. */
  method Labels(h: map<string, Entry>, finished: bool) returns (h2: map<nat, string>)
    ensures LabelledBy(h, finished, h2)
  {
    h2 := map[];
    var rest, done := h.Keys, {};
    while rest != {}
      invariant rest + done == h.Keys && rest !! done
      invariant h2.Keys == set x | x in done :: h[x].0
      invariant forall w | w in h2 :: exists x | x in done :: h[x].0 == w && h2[w] == Label(h[x].1, finished)
      decreases rest
    {
      var x :| x in rest;
      h2 := h2[h[x].0 := Label(h[x].1, finished)];
      rest, done := rest - {x}, done + {x};
    }
  }

  /** When no two entries name the same worker, each worker's label is that of its one entry. */
  lemma LabelOfOnlyEntry(h: map<string, Entry>, finished: bool, h2: map<nat, string>, x: string)
    requires LabelledBy(h, finished, h2)
    requires forall y, z | y in h && z in h && h[y].0 == h[z].0 :: y == z
    requires x in h
    ensures h[x].0 in h2 && h2[h[x].0] == Label(h[x].1, finished)
  {
    assert h[x].0 in WorkersOf(h);
  }

  /** The ids drawn from `d` on, `n` of them, are pairwise distinct. */
  ghost predicate DistinctIds(ids: IdSource, d: nat, n: nat)
  {
    forall k, l | d <= k < l < d + n :: ids.Id(k) != ids.Id(l)
  }

  /** With distinct ids, the order with the k-th id drawn has its own entry, naming its worker. */
  lemma {:induction false} PendingTableAt(ids: IdSource, d: nat, rs: seq<Worker>, k: nat)
    requires DistinctIds(ids, d, |rs|)
    requires d <= k < d + |rs|
    ensures ids.Id(k) in PendingTable(ids, d, rs)
    ensures PendingTable(ids, d, rs)[ids.Id(k)] == (rs[k - d].id, Processing)
  {
    var init := rs[..|rs| - 1];
    if k < d + |init| {
      PendingTableAt(ids, d, init, k);
    }
  }

  /** Every entry of the pending table belongs to one of the orders. */
  lemma {:induction false} PendingTableKeys(ids: IdSource, d: nat, rs: seq<Worker>, x: string)
    requires x in PendingTable(ids, d, rs)
    ensures exists k | d <= k < d + |rs| :: x == ids.Id(k)
  {
    var init := rs[..|rs| - 1];
    if x != ids.Id(d + |init|) {
      PendingTableKeys(ids, d, init, x);
    }
  }

  lemma SameWorkerSameEntry(ids: IdSource, d: nat, running: seq<Worker>, E: set<string>, a: seq<Option<Answer>>, y: string, z: string)
    requires DistinctIds(ids, d, |running|)
    requires forall i, j | 0 <= i < j < |running| :: running[i].id != running[j].id
    requires y in PendingTable(ids, d, running) && z in PendingTable(ids, d, running)
    requires Recorded(E, PendingTable(ids, d, running), a)[y].0 == Recorded(E, PendingTable(ids, d, running), a)[z].0
    ensures y == z
  {
    var h := PendingTable(ids, d, running);
    PendingTableKeys(ids, d, running, y);
    PendingTableKeys(ids, d, running, z);
    var i :| d <= i < d + |running| && y == ids.Id(i);
    var j :| d <= j < d + |running| && z == ids.Id(j);
    PendingTableAt(ids, d, running, i);
    PendingTableAt(ids, d, running, j);
    RecordedIsFirstConclusion(E, h, a, y);
    RecordedIsFirstConclusion(E, h, a, z);
    assert h[y].0 == running[i - d].id && h[z].0 == running[j - d].id;
  }

  /** With distinct ids and distinct workers, no two entries of the table name the same worker. */
  lemma OneEntryPerWorker(ids: IdSource, d: nat, running: seq<Worker>, E: set<string>, a: seq<Option<Answer>>)
    requires DistinctIds(ids, d, |running|)
    requires forall i, j | 0 <= i < j < |running| :: running[i].id != running[j].id
    ensures var r := Recorded(E, PendingTable(ids, d, running), a);
      forall y, z | y in r && z in r && r[y].0 == r[z].0 :: y == z
  {
    var r := Recorded(E, PendingTable(ids, d, running), a);
    forall y, z | y in r && z in r && r[y].0 == r[z].0
      ensures y == z
    {
      SameWorkerSameEntry(ids, d, running, E, a, y, z);
    }
  }

  /**
   * What `status` promises once its thread concluded, whether or not its
   * signal came in time: provided the ids drawn and the worker ids are
   * distinct, every Running worker's order got a final answer, and the
   * worker's answer column is "ok" or "error" after the first one.
   */
  lemma ConcludedShowsFirstAnswers(ids: IdSource, d: nat, running: seq<Worker>, a: seq<Option<Answer>>,
                                   finished: bool, h2: map<nat, string>, k: nat)
    requires DistinctIds(ids, d, |running|)
    requires forall i, j | 0 <= i < j < |running| :: running[i].id != running[j].id
    requires Outstanding(IdsOf(StatusRequests(ids, d, running)), a) == {}
    requires LabelledBy(Recorded(IdsOf(StatusRequests(ids, d, running)), PendingTable(ids, d, running), a), finished, h2)
    requires k < |running|
    ensures FirstConclusion(a, ids.Id(d + k)).Some?
    ensures running[k].id in h2
    ensures h2[running[k].id] == Label(FirstConclusion(a, ids.Id(d + k)).value, finished)
    ensures h2[running[k].id] == "ok" || h2[running[k].id] == "error"
  {
    var E := IdsOf(StatusRequests(ids, d, running));
    var h := PendingTable(ids, d, running);
    var x := ids.Id(d + k);
    PendingTableAt(ids, d, running, d + k);
    assert h[x] == (running[k].id, Processing);
    PendingTableHoldsTheOrders(ids, d, running);
    assert x in E;
    OutstandingMeans(E, a, x);
    var first := FirstConclusion(a, x);
    assert first.Some?;
    var r := Recorded(E, h, a);
    RecordedIsFirstConclusion(E, h, a, x);
    assert r[x] == (running[k].id, first.value);
    OneEntryPerWorker(ids, d, running, E, a);
    LabelOfOnlyEntry(r, finished, h2, x);
  }

  /** What a worker without a label shows: nothing if the thread finished, else "timeout". */
  function Placeholder(finished: bool): (p: string)
    ensures p == "" <==> finished
  {
    if finished then "" else "timeout"
  }

  datatype StatusRow = StatusRow(worker: nat, pid: int, runState: RunState, answer: string)

  /** One row per listed worker, Running or not, in list order, with its label or the placeholder. */
  ghost predicate Tabulates(workers: seq<Worker>, h2: map<nat, string>, finished: bool, table: seq<StatusRow>)
  {
    && |table| == |workers|
    && forall i | 0 <= i < |workers| ::
         table[i] == StatusRow(workers[i].id, workers[i].pid, workers[i].runState,
                               if workers[i].id in h2 then h2[workers[i].id] else Placeholder(finished))
  }

  method Report(workers: seq<Worker>, h2: map<nat, string>, finished: bool) returns (table: seq<StatusRow>)
    ensures Tabulates(workers, h2, finished, table)
  {
    var placeholder := Placeholder(finished);
    table := [];
    for i := 0 to |workers|
      invariant Tabulates(workers[..i], h2, finished, table)
    {
      var w := workers[i];
      var answer := if w.id in h2 then h2[w.id] else placeholder;
      table := table + [StatusRow(w.id, w.pid, w.runState, answer)];
    }
    assert workers[..|workers|] == workers;
  }

  /** How `status` ends when the answer to ListWorkers is not a worker list. */
  ghost predicate ListingFails(in0: seq<Option<Answer>>, id: string, o: Outcome)
    requires in0 == [] || !ListsWorkers(in0[0], id)
  {
    if in0 == [] then o == Blocked
    else if Answers(in0[0], id, Ok) then o == Failed(MissingData)
    else o == Exit(1)
  }

  /** List: ask for the workers; anything but an immediate Ok answer exits with status 1. */
  method ListPhase(ch: Channel, ids: IdSource) returns (o: Outcome, workers: Option<seq<Worker>>)
    modifies ch, ids
    ensures var id := ids.Id(old(ids.drawn));
      && ids.drawn == old(ids.drawn) + 1
      && ch.output == old(ch.output) + [ConfigMessage(id, ListWorkers, None)]
      && ch.input == AfterRead(old(ch.input))
      && (workers.Some? <==> old(ch.input) != [] && ListsWorkers(old(ch.input)[0], id))
      && (workers.Some? ==> workers.value == old(ch.input)[0].value.data.value.workers)
      && (workers.None? ==> ListingFails(old(ch.input), id, o))
  {
    workers := None;
    var id := ids.GenerateId();
    ch.Write(ConfigMessage(id, ListWorkers, None));
    if ch.input == [] {
      return Blocked, None;
    }
    var r := ch.Read();
    match r {
      case None => o := Exit(1);
      case Some(message) =>
        if id != message.id {
          return Exit(1), None;
        }
        match message.status {
          case Processing => o := Exit(1);
          case Error => o := Exit(1);
          case Ok =>
            if message.data.Some? && message.data.value.Workers? {
              o, workers := Done, Some(message.data.value.workers);
            } else {
              o := Failed(MissingData);
            }
        }
    }
  }

  /**
   * How surveying `workers` ends, the ids drawn from `d` on. `signalled` is
   * whether a thread that concluded gets its signal to the main thread before
   * the wait ends; the main thread counts as finished only then. `contended`
   * is whether the main thread's try_lock on the table fails, which can only
   * happen while the background thread is still in its loop.
   */
  ghost predicate Surveyed(ids: IdSource, d: nat, workers: seq<Worker>, budget: nat, signalled: bool, contended: bool,
                           in0: seq<Option<Answer>>, out0: seq<ConfigMessage>,
                           in1: seq<Option<Answer>>, out1: seq<ConfigMessage>, drawn1: nat,
                           o: Outcome, table: seq<StatusRow>, used: nat, h2: map<nat, string>)
  {
    var running := RunningWorkers(workers);
    var orders := StatusRequests(ids, d, running);
    var expecting := IdsOf(orders);
    && out1 == out0 + orders && drawn1 == d + |running|
    && ThreadRan(expecting, in0, budget, used) && in1 == in0[used..]
    && if Exited(in0, used) then o == Exit(1) && table == []
       else
         var concluded := Concluded(expecting, in0, used);
         var finished := concluded && signalled;
         && o == Done
         && (if !concluded && contended then h2 == map[]
             else LabelledBy(Recorded(expecting, PendingTable(ids, d, running), in0[..used]), finished, h2))
         && Tabulates(workers, h2, finished, table)
  }

  /**
   * A row reads "timeout" only when the main thread was not signalled in
   * time, and then no row is blank or reads "processing"; this covers the
   * late signal, where every order concluded yet the wait ran out first.
   */
  lemma TimeoutMeansUnsignalled(ids: IdSource, d: nat, workers: seq<Worker>, budget: nat, signalled: bool, contended: bool,
                                in0: seq<Option<Answer>>, out0: seq<ConfigMessage>,
                                in1: seq<Option<Answer>>, out1: seq<ConfigMessage>, drawn1: nat,
                                o: Outcome, table: seq<StatusRow>, used: nat, h2: map<nat, string>)
    requires Surveyed(ids, d, workers, budget, signalled, contended, in0, out0, in1, out1, drawn1, o, table, used, h2)
    requires !Exited(in0, used)
    ensures o == Done && |table| == |workers|
    ensures var finished := Concluded(IdsOf(StatusRequests(ids, d, RunningWorkers(workers))), in0, used) && signalled;
      && (finished ==> forall i | 0 <= i < |table| :: table[i].answer != "timeout")
      && (!finished ==> forall i | 0 <= i < |table| :: table[i].answer != "" && table[i].answer != "processing")
  {
    var running := RunningWorkers(workers);
    var expecting := IdsOf(StatusRequests(ids, d, running));
    var finished := Concluded(expecting, in0, used) && signalled;
    if !Concluded(expecting, in0, used) && contended {
      assert h2 == map[];
    } else {
      LabelsAreLabels(Recorded(expecting, PendingTable(ids, d, running), in0[..used]), finished, h2);
    }
    assert forall i | 0 <= i < |table| :: table[i].answer == Placeholder(finished) || workers[i].id in h2;
  }

  lemma LabelsAreLabels(h: map<string, Entry>, finished: bool, h2: map<nat, string>)
    requires LabelledBy(h, finished, h2)
    ensures forall w | w in h2 :: exists s: MessageStatus :: h2[w] == Label(s, finished)
  {
    forall w | w in h2
      ensures exists s: MessageStatus :: h2[w] == Label(s, finished)
    {
      var x :| x in h && h[x].0 == w && h2[w] == Label(h[x].1, finished);
    }
  }

  /** Send the Status orders, let the thread collect answers, then build the table. */
  method Survey(ch: Channel, ids: IdSource, workers: seq<Worker>, budget: nat, signalled: bool, contended: bool)
    returns (o: Outcome, table: seq<StatusRow>, ghost used: nat, ghost h2: map<nat, string>)
    modifies ch, ids
    ensures Surveyed(ids, old(ids.drawn), workers, budget, signalled, contended, old(ch.input), old(ch.output),
                     ch.input, ch.output, ids.drawn, o, table, used, h2)
  {
    var expecting, h := SendStatusOrders(ch, ids, workers);
    var exited, concluded, recorded, readCount := Collect(ch, expecting, h, budget);
    used := readCount;
    if exited {
      return Exit(1), [], used, map[];
    }
    var finished := concluded && signalled;
    var labels: map<nat, string>;
    if !concluded && contended {
      labels := map[];
    } else {
      labels := Labels(recorded, finished);
    }
    h2 := labels;
    table := Report(workers, labels, finished);
    o := Done;
  }

  /**
   * The whole `status` command. `budget`, `signalled` and `contended` stand
   * for the timing of the background thread; `used` is how many answers it read.
   */
  method Status(ch: Channel, ids: IdSource, budget: nat, signalled: bool, contended: bool)
    returns (o: Outcome, table: seq<StatusRow>, ghost used: nat, ghost h2: map<nat, string>)
    modifies ch, ids
    ensures var in0, d := old(ch.input), old(ids.drawn);
      var listMsg := ConfigMessage(ids.Id(d), ListWorkers, None);
      if in0 != [] && ListsWorkers(in0[0], listMsg.id) then
        Surveyed(ids, d + 1, in0[0].value.data.value.workers, budget, signalled, contended, in0[1..],
                 old(ch.output) + [listMsg], ch.input, ch.output, ids.drawn, o, table, used, h2)
      else
        && ListingFails(in0, listMsg.id, o) && table == []
        && ch.output == old(ch.output) + [listMsg] && ch.input == AfterRead(in0) && ids.drawn == d + 1
  {
    used, h2, table := 0, map[], [];
    var workers;
    o, workers := ListPhase(ch, ids);
    if workers.Some? {
      o, table, used, h2 := Survey(ch, ids, workers.value, budget, signalled, contended);
    }
  }
}
