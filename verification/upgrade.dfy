/**
 * The zero-downtime upgrade of ctl/src/command.rs: list the workers, launch a
 * replacement and soft-stop each Running worker, wait until every one of those
 * commands got a final answer, then ask the master to upgrade itself.
 */
module Upgrade {
  import opened Wrappers
  import opened Messages
  import opened Channels
  import opened Command
  import opened Tracking

  /** Both tracking sets are empty once the answers `a` have been read. */
  ghost predicate DrainedBy(launching: set<string>, stopping: set<string>, a: seq<Option<Answer>>)
  {
    Outstanding(launching, a) == {} && Outstanding(stopping, a) == {}
  }

  /** Both sets are empty exactly when every launch and every soft-stop has received a final answer. */
  lemma DrainedMeans(launching: set<string>, stopping: set<string>, a: seq<Option<Answer>>)
    ensures DrainedBy(launching, stopping, a)
        <==> forall x | x in launching + stopping :: exists j | 0 <= j < |a| :: Concludes(a[j], x)
  {
    if DrainedBy(launching, stopping, a) {
      forall x | x in launching + stopping
        ensures exists j | 0 <= j < |a| :: Concludes(a[j], x)
      {
        OutstandingMeans(launching, a, x);
        OutstandingMeans(stopping, a, x);
      }
    } else {
      assert Outstanding(launching, a) + Outstanding(stopping, a) != {};
      var x :| x in Outstanding(launching, a) + Outstanding(stopping, a);
      OutstandingMeans(launching, a, x);
      OutstandingMeans(stopping, a, x);
      assert x in launching + stopping && forall j | 0 <= j < |a| :: !Concludes(a[j], x);
    }
  }

  /** The launch of a replacement, with the k-th id drawn. */
  function LaunchMessage(ids: IdSource, k: nat): ConfigMessage
  {
    ConfigMessage(ids.TaggedId("LAUNCH-WORKER", k), LaunchWorker("BLAH"), None)
  }

  /** The soft-stop of worker `w`, with the k-th id drawn. */
  function StopMessage(ids: IdSource, k: nat, w: Worker): ConfigMessage
  {
    ConfigMessage(ids.TaggedId("SOFT-STOP-WORKER", k), ProxyConfiguration(Order.SoftStop), Some(w.id))
  }

  /** One untargeted LaunchWorker per replacement, with the ids drawn from `from` on. */
  function LaunchRequests(ids: IdSource, from: nat, n: nat): seq<ConfigMessage>
  {
    seq(n, k requires 0 <= k < n => LaunchMessage(ids, from + k))
  }

  /** One SoftStop per worker, targeted at that worker, with the ids drawn from `from` on. */
  function StopRequests(ids: IdSource, from: nat, ws: seq<Worker>): seq<ConfigMessage>
  {
    seq(|ws|, k requires 0 <= k < |ws| => StopMessage(ids, from + k, ws[k]))
  }

  /** A launch id and a soft-stop id never coincide, so one answer retires an id from at most one set. */
  lemma LaunchAndStopIdsDiffer(ids: IdSource, d: nat, n: nat, e: nat, ws: seq<Worker>)
    ensures IdsOf(LaunchRequests(ids, d, n)) !! IdsOf(StopRequests(ids, e, ws))
  {
    var launches, stops := LaunchRequests(ids, d, n), StopRequests(ids, e, ws);
    forall x, y | x in IdsOf(launches) && y in IdsOf(stops)
      ensures x != y
    {
      IdsOfFrom(launches, x);
      IdsOfFrom(stops, y);
      var i :| 0 <= i < n && launches[i].id == x;
      var j :| 0 <= j < |ws| && stops[j].id == y;
      assert launches[i] == LaunchMessage(ids, d + i);
      assert stops[j] == StopMessage(ids, e + j, ws[j]);
      TaggedIdsDiffer("LAUNCH-WORKER", "SOFT-STOP-WORKER", ids.draw(d + i), ids.draw(e + j));
    }
  }

  /** After `n` launches: what was written and the ids in `launching`. */
  ghost predicate Launched(ids: IdSource, d: nat, n: nat, out0: seq<ConfigMessage>, out: seq<ConfigMessage>, launching: set<string>)
  {
    out == out0 + LaunchRequests(ids, d, n) && launching == IdsOf(LaunchRequests(ids, d, n))
  }

  lemma LaunchedStep(ids: IdSource, d: nat, n: nat, out0: seq<ConfigMessage>, out: seq<ConfigMessage>, launching: set<string>)
    requires Launched(ids, d, n, out0, out, launching)
    ensures var id := ids.TaggedId("LAUNCH-WORKER", d + n);
      Launched(ids, d, n + 1, out0, out + [ConfigMessage(id, LaunchWorker("BLAH"), None)], launching + {id})
  {
    var msg := LaunchMessage(ids, d + n);
    assert LaunchRequests(ids, d, n + 1) == LaunchRequests(ids, d, n) + [msg];
    IdsOfGrow(LaunchRequests(ids, d, n), msg);
  }

  /** For every Running worker, one launch of a replacement; each id joins `launching`. */
  method LaunchAll(ch: Channel, ids: IdSource, workers: seq<Worker>) returns (launching: set<string>)
    modifies ch`output, ids`drawn
    ensures ids.drawn == old(ids.drawn) + |RunningWorkers(workers)|
    ensures Launched(ids, old(ids.drawn), |RunningWorkers(workers)|, old(ch.output), ch.output, launching)
  {
    ghost var d := ids.drawn;
    ghost var out0 := ch.output;
    ghost var running: seq<Worker> := [];
    launching := {};
    for i := 0 to |workers|
      invariant running == RunningWorkers(workers[..i])
      invariant ids.drawn == d + |running|
      invariant Launched(ids, d, |running|, out0, ch.output, launching)
    {
      RunningGrow(workers, i);
      if workers[i].runState == Running {
        LaunchedStep(ids, d, |running|, out0, ch.output, launching);
        var id := ids.GenerateTaggedId("LAUNCH-WORKER");
        ch.Write(ConfigMessage(id, LaunchWorker("BLAH"), None));
        launching := launching + {id};
        running := running + [workers[i]];
      }
    }
    assert workers[..|workers|] == workers;
  }

  /** After the soft-stops of `running`: what was written and the ids in `stopping`. */
  ghost predicate Stopped(ids: IdSource, d: nat, running: seq<Worker>, out0: seq<ConfigMessage>, out: seq<ConfigMessage>, stopping: set<string>)
  {
    out == out0 + StopRequests(ids, d, running) && stopping == IdsOf(StopRequests(ids, d, running))
  }

  lemma StoppedStep(ids: IdSource, d: nat, running: seq<Worker>, out0: seq<ConfigMessage>, out: seq<ConfigMessage>, stopping: set<string>, w: Worker)
    requires Stopped(ids, d, running, out0, out, stopping)
    ensures var id := ids.TaggedId("SOFT-STOP-WORKER", d + |running|);
      Stopped(ids, d, running + [w], out0, out + [ConfigMessage(id, ProxyConfiguration(Order.SoftStop), Some(w.id))], stopping + {id})
  {
    var msg := StopMessage(ids, d + |running|, w);
    assert StopRequests(ids, d, running + [w]) == StopRequests(ids, d, running) + [msg];
    IdsOfGrow(StopRequests(ids, d, running), msg);
  }

  /** For every Running worker, one soft-stop targeted at it; each id joins `stopping`. */
  method StopAll(ch: Channel, ids: IdSource, workers: seq<Worker>) returns (stopping: set<string>)
    modifies ch`output, ids`drawn
    ensures ids.drawn == old(ids.drawn) + |RunningWorkers(workers)|
    ensures Stopped(ids, old(ids.drawn), RunningWorkers(workers), old(ch.output), ch.output, stopping)
  {
    ghost var d := ids.drawn;
    ghost var out0 := ch.output;
    ghost var running: seq<Worker> := [];
    stopping := {};
    for i := 0 to |workers|
      invariant running == RunningWorkers(workers[..i])
      invariant ids.drawn == d + |running|
      invariant Stopped(ids, d, running, out0, ch.output, stopping)
    {
      RunningGrow(workers, i);
      if workers[i].runState == Running {
        StoppedStep(ids, d, running, out0, ch.output, stopping, workers[i]);
        var id := ids.GenerateTaggedId("SOFT-STOP-WORKER");
        ch.Write(ConfigMessage(id, ProxyConfiguration(Order.SoftStop), Some(workers[i].id)));
        stopping := stopping + {id};
        running := running + [workers[i]];
      }
    }
    assert workers[..|workers|] == workers;
  }

  /**
   * Drain: read answers until both sets are empty. Every final answer retires
   * its id from whichever set holds it; an Error does not stop the upgrade.
   * The loop stops at the first point where both sets are empty.
   */
  method Drain(ch: Channel, launching0: set<string>, stopping0: set<string>) returns (drained: bool, ghost used: nat)
    modifies ch`input
    ensures used <= |old(ch.input)| && ch.input == old(ch.input)[used..]
    ensures drained <==> DrainedBy(launching0, stopping0, old(ch.input)[..used])
    ensures !drained ==> ch.input == []
    ensures forall k | 0 <= k < used :: !DrainedBy(launching0, stopping0, old(ch.input)[..k])
  {
    var launching, stopping := launching0, stopping0;
    ghost var in0 := ch.input;
    used := 0;
    while true
      invariant used <= |in0| && ch.input == in0[used..]
      invariant launching == Outstanding(launching0, in0[..used])
      invariant stopping == Outstanding(stopping0, in0[..used])
      invariant forall k | 0 <= k < used :: !DrainedBy(launching0, stopping0, in0[..k])
      decreases |ch.input|
    {
      if launching == {} && stopping == {} {
        return true, used;
      }
      if ch.input == [] {
        return false, used;
      }
      var r := ch.Read();
      assert in0[..used + 1][..used] == in0[..used] && in0[used] == r;
      match r {
        case None =>
        case Some(message) =>
          match message.status {
            case Processing =>
            case Error =>
              if message.id in launching {
                launching := launching - {message.id};
              }
              if message.id in stopping {
                stopping := stopping - {message.id};
              }
            case Ok =>
              if message.id in launching {
                launching := launching - {message.id};
              }
              if message.id in stopping {
                stopping := stopping - {message.id};
              }
          }
      }
      used := used + 1;
    }
  }

  /** While waiting for the master, silence and Processing answers to its id are read past. */
  predicate PromoteGoesOn(r: Option<Answer>, id: string)
  {
    r.None? || Answers(r, id, Processing)
  }

  /** How the promote phase ends: strict id matching, Ok or Error to the master's id ends it. */
  ghost predicate PromoteEnds(in0: seq<Option<Answer>>, in1: seq<Option<Answer>>, used: nat, id: string, o: Outcome)
  {
    && ReadLoop(in0, in1, used, r => PromoteGoesOn(r, id), o == Blocked)
    && (o == Blocked || o == Done || o == Failed(InvalidId) || o == Failed(ErrorAnswer))
    && (o == Done ==> Answers(in0[used - 1], id, Ok))
    && (o == Failed(ErrorAnswer) ==> Answers(in0[used - 1], id, Error))
    && (o == Failed(InvalidId) ==> Foreign(in0[used - 1], id))
  }

  /** Promote: send UpgradeMaster and wait for its final answer; any other id aborts at once. */
  method Promote(ch: Channel, ids: IdSource) returns (o: Outcome, ghost used: nat)
    modifies ch, ids
    ensures ids.drawn == old(ids.drawn) + 1
    ensures ch.output == old(ch.output) + [ConfigMessage(ids.TaggedId("UPGRADE-MASTER", old(ids.drawn)), UpgradeMaster, None)]
    ensures PromoteEnds(old(ch.input), ch.input, used, ids.TaggedId("UPGRADE-MASTER", old(ids.drawn)), o)
  {
    var id := ids.GenerateTaggedId("UPGRADE-MASTER");
    ch.Write(ConfigMessage(id, UpgradeMaster, None));
    ghost var in0 := ch.input;
    ghost var out1 := ch.output;
    used := 0;
    while true
      invariant used <= |in0| && ch.input == in0[used..]
      invariant forall j | 0 <= j < used :: PromoteGoesOn(in0[j], id)
      invariant ch.output == out1 && ids.drawn == old(ids.drawn) + 1
      decreases |ch.input|
    {
      if ch.input == [] {
        return Blocked, used;
      }
      var r := ch.Read();
      used := used + 1;
      match r {
        case None =>
        case Some(message) =>
          if id != message.id {
            return Failed(InvalidId), used;
          }
          match message.status {
            case Processing =>
            case Error => return Failed(ErrorAnswer), used;
            case Ok => return Done, used;
          }
      }
    }
  }

  /** How the upgrade ends when the answer to ListWorkers is not a worker list. */
  ghost predicate ListingFails(in0: seq<Option<Answer>>, id: string, o: Outcome)
    requires in0 == [] || !ListsWorkers(in0[0], id)
  {
    if in0 == [] then o == Blocked
    else
      && (in0[0].None? ==> o == Failed(NoAnswer))
      && (Foreign(in0[0], id) ==> o == Failed(InvalidId))
      && (Answers(in0[0], id, Processing) ==> o == Failed(NotImmediate))
      && (Answers(in0[0], id, Error) ==> o == Failed(ErrorAnswer))
      && (Answers(in0[0], id, Ok) ==> o == Failed(MissingData))
  }

  /** List: ask for the workers and demand an immediate Ok answer carrying them. */
  method ListPhase(ch: Channel, ids: IdSource) returns (o: Outcome, workers: Option<seq<Worker>>)
    modifies ch, ids
    ensures var id := ids.TaggedId("LIST-WORKERS", old(ids.drawn));
      && ids.drawn == old(ids.drawn) + 1
      && ch.output == old(ch.output) + [ConfigMessage(id, ListWorkers, None)]
      && ch.input == AfterRead(old(ch.input))
      && (workers.Some? <==> old(ch.input) != [] && ListsWorkers(old(ch.input)[0], id))
      && (workers.Some? ==> workers.value == old(ch.input)[0].value.data.value.workers)
      && (workers.None? ==> ListingFails(old(ch.input), id, o))
  {
    workers := None;
    var id := ids.GenerateTaggedId("LIST-WORKERS");
    ch.Write(ConfigMessage(id, ListWorkers, None));
    if ch.input == [] {
      return Blocked, None;
    }
    var r := ch.Read();
    match r {
      case None => o := Failed(NoAnswer);
      case Some(message) =>
        if id != message.id {
          return Failed(InvalidId), None;
        }
        match message.status {
          case Processing => o := Failed(NotImmediate);
          case Error => o := Failed(ErrorAnswer);
          case Ok =>
            if message.data.Some? && message.data.value.Workers? {
              o, workers := Done, Some(message.data.value.workers);
            } else {
              o := Failed(MissingData);
            }
        }
    }
  }

  /**
   * How replacing `workers` ends, the ids drawn from `d` on: the fan-out is
   * written, the drain reads no further than the first point where both sets
   * are empty, and only then is UpgradeMaster sent.
   */
  ghost predicate Replaced(ids: IdSource, d: nat, workers: seq<Worker>,
                           in0: seq<Option<Answer>>, out0: seq<ConfigMessage>,
                           in1: seq<Option<Answer>>, out1: seq<ConfigMessage>, drawn1: nat,
                           o: Outcome, drainUsed: nat, promoteUsed: nat)
  {
    var running := RunningWorkers(workers);
    var n := |running|;
    var launches := LaunchRequests(ids, d, n);
    var stops := StopRequests(ids, d + n, running);
    var masterId := ids.TaggedId("UPGRADE-MASTER", d + 2 * n);
    && drainUsed <= |in0|
    && (forall k | 0 <= k < drainUsed :: !DrainedBy(IdsOf(launches), IdsOf(stops), in0[..k]))
    && if DrainedBy(IdsOf(launches), IdsOf(stops), in0[..drainUsed]) then
         && out1 == out0 + launches + stops + [ConfigMessage(masterId, UpgradeMaster, None)]
         && drawn1 == d + 2 * n + 1
         && PromoteEnds(in0[drainUsed..], in1, promoteUsed, masterId, o)
       else
         && o == Blocked && drainUsed == |in0| && in1 == []
         && out1 == out0 + launches + stops
         && drawn1 == d + 2 * n
  }

  /** Replace the listed workers and, once every command has concluded, promote the master. */
  method Replace(ch: Channel, ids: IdSource, workers: seq<Worker>) returns (o: Outcome, ghost drainUsed: nat, ghost promoteUsed: nat)
    modifies ch, ids
    ensures Replaced(ids, old(ids.drawn), workers, old(ch.input), old(ch.output),
                     ch.input, ch.output, ids.drawn, o, drainUsed, promoteUsed)
  {
    promoteUsed := 0;
    var launching := LaunchAll(ch, ids, workers);
    var stopping := StopAll(ch, ids, workers);
    var drained;
    drained, drainUsed := Drain(ch, launching, stopping);
    if drained {
      o, promoteUsed := Promote(ch, ids);
    } else {
      o := Blocked;
    }
  }

  /**
   * The whole upgrade. `drainUsed` and `promoteUsed` are how many answers the
   * drain and promote phases read.
   */
  method Upgrade(ch: Channel, ids: IdSource) returns (o: Outcome, ghost drainUsed: nat, ghost promoteUsed: nat)
    modifies ch, ids
    ensures var in0, d := old(ch.input), old(ids.drawn);
      var listMsg := ConfigMessage(ids.TaggedId("LIST-WORKERS", d), ListWorkers, None);
      if in0 != [] && ListsWorkers(in0[0], listMsg.id) then
        Replaced(ids, d + 1, in0[0].value.data.value.workers, in0[1..], old(ch.output) + [listMsg],
                 ch.input, ch.output, ids.drawn, o, drainUsed, promoteUsed)
      else
        && ListingFails(in0, listMsg.id, o)
        && ch.output == old(ch.output) + [listMsg] && ch.input == AfterRead(in0) && ids.drawn == d + 1
  {
    drainUsed, promoteUsed := 0, 0;
    var workers;
    o, workers := ListPhase(ch, ids);
    if workers.Some? {
      o, drainUsed, promoteUsed := Replace(ch, ids, workers.value);
    }
  }
}
