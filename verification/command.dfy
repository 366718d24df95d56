/**
 * The single-shot commands and the stop loops of ctl/src/command.rs. Each one
 * draws a fresh id, writes one command and correlates the answers it reads
 * with that id.
 */
module Command {
  import opened Wrappers
  import opened Messages
  import opened Channels

  /** The workers the fan-out commands address, in list order. */
  function RunningWorkers(ws: seq<Worker>): (r: seq<Worker>)
    ensures |r| <= |ws|
    ensures forall i | 0 <= i < |r| :: r[i].runState == Running
  {
    if ws == [] then []
    else
      var init := ws[..|ws| - 1];
      assert ws == init + [ws[|ws| - 1]];
      RunningWorkers(init) + (if ws[|ws| - 1].runState == Running then [ws[|ws| - 1]] else [])
  }

  /** Walking the list one worker at a time extends the Running ones by that worker, if it runs. */
  lemma RunningGrow(workers: seq<Worker>, i: nat)
    requires i < |workers|
    ensures RunningWorkers(workers[..i + 1])
         == RunningWorkers(workers[..i]) + (if workers[i].runState == Running then [workers[i]] else [])
  {
    assert workers[..i + 1][..i] == workers[..i];
  }

  /** The fan-out reaches exactly the Running workers of the list, each as often as listed. */
  lemma {:induction false} RunningWorkersAreTheRunning(ws: seq<Worker>)
    ensures forall w :: multiset(RunningWorkers(ws))[w] == if w.runState == Running then multiset(ws)[w] else 0
  {
    if ws != [] {
      var init := ws[..|ws| - 1];
      assert ws == init + [ws[|ws| - 1]];
      RunningWorkersAreTheRunning(init);
    }
  }

  /** An answer to ListWorkers that carries the list: Ok, to its id, with the workers. */
  predicate ListsWorkers(r: Option<Answer>, id: string)
  {
    Answers(r, id, Ok) && r.value.data.Some? && r.value.data.value.Workers?
  }

  /** The single-shot pattern on the channel: `sent` written once, then at most one read. */
  ghost predicate WroteThenReadOnce(
    in0: seq<Option<Answer>>, out0: seq<ConfigMessage>,
    in1: seq<Option<Answer>>, out1: seq<ConfigMessage>, sent: ConfigMessage)
  {
    out1 == out0 + [sent] && in1 == AfterRead(in0)
  }

  /** How `order_command` ends, given the answers it could read and the id it sent. */
  ghost predicate OrderOutcome(in0: seq<Option<Answer>>, id: string, o: Outcome)
  {
    && (in0 == [] <==> o == Blocked)
    && (in0 != [] && in0[0].None? <==> o == Failed(NoAnswer))
    && (in0 != [] && Foreign(in0[0], id) <==> o == Failed(InvalidId))
    && (in0 != [] && Answers(in0[0], id, Processing) <==> o == Pending)
    && (in0 != [] && Answers(in0[0], id, Error) <==> o == Exit(1))
    && (in0 != [] && Answers(in0[0], id, Ok) <==> o == Done)
  }

  /** Sends one configuration order to all workers and reads one answer; Error exits the process. */
  method OrderCommand(ch: Channel, ids: IdSource, order: Order) returns (o: Outcome)
    modifies ch, ids
    ensures ids.drawn == old(ids.drawn) + 1
    ensures WroteThenReadOnce(old(ch.input), old(ch.output), ch.input, ch.output,
                              ConfigMessage(ids.Id(old(ids.drawn)), ProxyConfiguration(order), None))
    ensures OrderOutcome(old(ch.input), ids.Id(old(ids.drawn)), o)
  {
    var id := ids.GenerateId();
    ch.Write(ConfigMessage(id, ProxyConfiguration(order), None));
    if ch.input == [] {
      return Blocked;
    }
    var r := ch.Read();
    match r {
      case None => o := Failed(NoAnswer);
      case Some(message) =>
        if id != message.id {
          return Failed(InvalidId);
        }
        match message.status {
          case Processing => o := Pending;
          case Error => o := Exit(1);
          case Ok => o := Done;
        }
    }
  }

  /**
   * How `save_state` and `load_state` end: silence, a foreign id and an Error
   * answer all exit with status 1; the id is checked before the status.
   */
  ghost predicate StrictOutcome(in0: seq<Option<Answer>>, id: string, o: Outcome)
  {
    && (in0 == [] <==> o == Blocked)
    && (in0 != [] && (in0[0].None? || Foreign(in0[0], id) || Answers(in0[0], id, Error)) <==> o == Exit(1))
    && (in0 != [] && Answers(in0[0], id, Processing) <==> o == Pending)
    && (in0 != [] && Answers(in0[0], id, Ok) <==> o == Done)
  }

  method SaveState(ch: Channel, ids: IdSource, path: string) returns (o: Outcome)
    modifies ch, ids
    ensures ids.drawn == old(ids.drawn) + 1
    ensures WroteThenReadOnce(old(ch.input), old(ch.output), ch.input, ch.output,
                              ConfigMessage(ids.Id(old(ids.drawn)), ConfigCommand.SaveState(path), None))
    ensures StrictOutcome(old(ch.input), ids.Id(old(ids.drawn)), o)
  {
    var id := ids.GenerateId();
    ch.Write(ConfigMessage(id, ConfigCommand.SaveState(path), None));
    if ch.input == [] {
      return Blocked;
    }
    var r := ch.Read();
    match r {
      case None => o := Exit(1);
      case Some(message) =>
        if id != message.id {
          return Exit(1);
        }
        match message.status {
          case Processing => o := Pending;
          case Error => o := Exit(1);
          case Ok => o := Done;
        }
    }
  }

  method LoadState(ch: Channel, ids: IdSource, path: string) returns (o: Outcome)
    modifies ch, ids
    ensures ids.drawn == old(ids.drawn) + 1
    ensures WroteThenReadOnce(old(ch.input), old(ch.output), ch.input, ch.output,
                              ConfigMessage(ids.Id(old(ids.drawn)), ConfigCommand.LoadState(path), None))
    ensures StrictOutcome(old(ch.input), ids.Id(old(ids.drawn)), o)
  {
    var id := ids.GenerateId();
    ch.Write(ConfigMessage(id, ConfigCommand.LoadState(path), None));
    if ch.input == [] {
      return Blocked;
    }
    var r := ch.Read();
    match r {
      case None => o := Exit(1);
      case Some(message) =>
        if id != message.id {
          return Exit(1);
        }
        match message.status {
          case Processing => o := Pending;
          case Error => o := Exit(1);
          case Ok => o := Done;
        }
    }
  }

  /** The answer carries a state dump. */
  predicate HasState(r: Option<Answer>)
  {
    r.Some? && r.value.data.Some? && r.value.data.value.State?
  }

  /** Like save_state, and an Ok answer without a state dump also exits; `state` is what is printed. */
  method DumpState(ch: Channel, ids: IdSource) returns (o: Outcome, state: Option<string>)
    modifies ch, ids
    ensures ids.drawn == old(ids.drawn) + 1
    ensures WroteThenReadOnce(old(ch.input), old(ch.output), ch.input, ch.output,
                              ConfigMessage(ids.Id(old(ids.drawn)), ConfigCommand.DumpState, None))
    ensures var in0, id := old(ch.input), ids.Id(old(ids.drawn));
      && (in0 == [] <==> o == Blocked)
      && (in0 != [] && (|| in0[0].None? || Foreign(in0[0], id) || Answers(in0[0], id, Error)
                        || (Answers(in0[0], id, Ok) && !HasState(in0[0])))
          <==> o == Exit(1))
      && (in0 != [] && Answers(in0[0], id, Processing) <==> o == Pending)
      && (in0 != [] && Answers(in0[0], id, Ok) && HasState(in0[0]) <==> o == Done)
      && (o == Done ==> state == Some(in0[0].value.data.value.state))
      && (o != Done ==> state == None)
  {
    state := None;
    var id := ids.GenerateId();
    ch.Write(ConfigMessage(id, ConfigCommand.DumpState, None));
    if ch.input == [] {
      return Blocked, None;
    }
    var r := ch.Read();
    match r {
      case None => o := Exit(1);
      case Some(message) =>
        if id != message.id {
          return Exit(1), None;
        }
        match message.status {
          case Processing => o := Pending;
          case Error => o := Exit(1);
          case Ok =>
            if message.data.Some? && message.data.value.State? {
              o, state := Done, Some(message.data.value.state);
            } else {
              o := Exit(1);
            }
        }
    }
  }

  /** Asks for one application's configuration, or for all of them; nothing here exits. */
  method QueryApplication(ch: Channel, ids: IdSource, appId: Option<string>) returns (o: Outcome)
    modifies ch, ids
    ensures ids.drawn == old(ids.drawn) + 1
    ensures WroteThenReadOnce(old(ch.input), old(ch.output), ch.input, ch.output,
                              ConfigMessage(ids.Id(old(ids.drawn)),
                                            Query(if appId.Some? then ApplicationQuery(appId.value) else ApplicationsQuery),
                                            None))
    ensures var in0, id := old(ch.input), ids.Id(old(ids.drawn));
      && (in0 == [] <==> o == Blocked)
      && (in0 != [] && in0[0].None? <==> o == Failed(NoAnswer))
      && (in0 != [] && Foreign(in0[0], id) <==> o == Failed(InvalidId))
      && (in0 != [] && Answers(in0[0], id, Processing) <==> o == Pending)
      && (in0 != [] && Answers(in0[0], id, Error) <==> o == Failed(ErrorAnswer))
      && (in0 != [] && Answers(in0[0], id, Ok) <==> o == Done)
  {
    var command := match appId
      case Some(app) => Query(ApplicationQuery(app))
      case None => Query(ApplicationsQuery);
    var id := ids.GenerateId();
    ch.Write(ConfigMessage(id, command, None));
    if ch.input == [] {
      return Blocked;
    }
    var r := ch.Read();
    match r {
      case None => o := Failed(NoAnswer);
      case Some(message) =>
        if id != message.id {
          return Failed(InvalidId);
        }
        match message.status {
          case Processing => o := Pending;
          case Error => o := Failed(ErrorAnswer);
          case Ok => o := Done;
        }
    }
  }

  /**
   * A read loop consumed the first `used` answers of `in0`, leaving `in1`. It went on
   * past every answer but the last one it read, and it stopped on that last one,
   * unless it ran out of answers (`blocked`), in which case it went on past all of them.
   */
  ghost predicate ReadLoop(
    in0: seq<Option<Answer>>, in1: seq<Option<Answer>>, used: nat,
    goesOn: Option<Answer> -> bool, blocked: bool)
  {
    && used <= |in0| && in1 == in0[used..]
    && (forall j | 0 <= j < used - 1 :: goesOn(in0[j]))
    && (blocked ==> used == |in0| && (used > 0 ==> goesOn(in0[used - 1])))
    && (!blocked ==> used > 0 && !goesOn(in0[used - 1]))
  }

  /** soft_stop keeps reading past silence and past Processing or Error answers to its own id. */
  predicate SoftStopGoesOn(r: Option<Answer>, id: string)
  {
    r.None? || (r.value.id == id && r.value.status != Ok)
  }

  /** Asks every worker to stop gracefully; ends on Ok for its id, gives up on any foreign id. */
  method SoftStop(ch: Channel, ids: IdSource) returns (o: Outcome, ghost used: nat)
    modifies ch, ids
    ensures ids.drawn == old(ids.drawn) + 1
    ensures ch.output == old(ch.output) + [ConfigMessage(ids.Id(old(ids.drawn)), ProxyConfiguration(Order.SoftStop), None)]
    ensures ReadLoop(old(ch.input), ch.input, used, r => SoftStopGoesOn(r, ids.Id(old(ids.drawn))), o == Blocked)
    ensures o == Blocked || o == Done || o == Failed(InvalidId)
    ensures o == Done ==> Answers(old(ch.input)[used - 1], ids.Id(old(ids.drawn)), Ok)
    ensures o == Failed(InvalidId) ==> Foreign(old(ch.input)[used - 1], ids.Id(old(ids.drawn)))
  {
    var id := ids.GenerateId();
    ch.Write(ConfigMessage(id, ProxyConfiguration(Order.SoftStop), None));
    ghost var in0 := ch.input;
    ghost var out1 := ch.output;
    used := 0;
    while true
      invariant used <= |in0| && ch.input == in0[used..]
      invariant forall j | 0 <= j < used :: SoftStopGoesOn(in0[j], id)
      invariant ch.output == out1 && ids.drawn == old(ids.drawn) + 1
      decreases |ch.input|
    {
      if ch.input == [] {
        return Blocked, used;
      }
      var r := ch.Read();
      used := used + 1;
      match r {
        case None =>
        case Some(message) =>
          if id != message.id {
            return Failed(InvalidId), used;
          }
          match message.status {
            case Processing =>
            case Error =>
            case Ok => return Done, used;
          }
      }
    }
  }

  /** hard_stop reads past everything except an Ok answer to its own id. */
  predicate HardStopGoesOn(r: Option<Answer>, id: string)
  {
    !Answers(r, id, Ok)
  }

  /** Asks every worker to stop at once; foreign ids never make it give up. */
  method HardStop(ch: Channel, ids: IdSource) returns (o: Outcome, ghost used: nat)
    modifies ch, ids
    ensures ids.drawn == old(ids.drawn) + 1
    ensures ch.output == old(ch.output) + [ConfigMessage(ids.Id(old(ids.drawn)), ProxyConfiguration(Order.HardStop), None)]
    ensures ReadLoop(old(ch.input), ch.input, used, r => HardStopGoesOn(r, ids.Id(old(ids.drawn))), o == Blocked)
    ensures o == Blocked || o == Done
  {
    var id := ids.GenerateId();
    ch.Write(ConfigMessage(id, ProxyConfiguration(Order.HardStop), None));
    ghost var in0 := ch.input;
    ghost var out1 := ch.output;
    used := 0;
    while true
      invariant used <= |in0| && ch.input == in0[used..]
      invariant forall j | 0 <= j < used :: HardStopGoesOn(in0[j], id)
      invariant ch.output == out1 && ids.drawn == old(ids.drawn) + 1
      decreases |ch.input|
    {
      if ch.input == [] {
        return Blocked, used;
      }
      var r := ch.Read();
      used := used + 1;
      match r {
        case None =>
        case Some(message) =>
          match message.status {
            case Processing =>
            case Error =>
            case Ok =>
              if id == message.id {
                return Done, used;
              }
          }
      }
    }
  }

  // The order wrappers: each builds one Order and hands it to OrderCommand.

  method AddApplication(ch: Channel, ids: IdSource, appId: string, stickySession: bool) returns (o: Outcome)
    modifies ch, ids
    ensures ids.drawn == old(ids.drawn) + 1
    ensures WroteThenReadOnce(old(ch.input), old(ch.output), ch.input, ch.output,
              ConfigMessage(ids.Id(old(ids.drawn)), ProxyConfiguration(Order.AddApplication(Application(appId, stickySession))), None))
    ensures OrderOutcome(old(ch.input), ids.Id(old(ids.drawn)), o)
  {
    o := OrderCommand(ch, ids, Order.AddApplication(Application(appId, stickySession)));
  }

  method RemoveApplication(ch: Channel, ids: IdSource, appId: string) returns (o: Outcome)
    modifies ch, ids
    ensures ids.drawn == old(ids.drawn) + 1
    ensures WroteThenReadOnce(old(ch.input), old(ch.output), ch.input, ch.output,
              ConfigMessage(ids.Id(old(ids.drawn)), ProxyConfiguration(Order.RemoveApplication(appId)), None))
    ensures OrderOutcome(old(ch.input), ids.Id(old(ids.drawn)), o)
  {
    o := OrderCommand(ch, ids, Order.RemoveApplication(appId));
  }

  /** The order add_frontend builds: an HTTPS front when a certificate fingerprint is given. */
  function FrontOrder(add: bool, appId: string, hostname: string, pathBegin: string, fingerprint: Option<CertFingerprint>): Order
  {
    match fingerprint
    case None =>
      var front := HttpFront(appId, hostname, pathBegin);
      if add then AddHttpFront(front) else RemoveHttpFront(front)
    case Some(fp) =>
      var front := HttpsFront(appId, hostname, pathBegin, fp);
      if add then AddHttpsFront(front) else RemoveHttpsFront(front)
  }

  /**
   * `certificate` is None when no certificate is given, otherwise what loading the
   * file and computing its fingerprint produced. A failure there writes nothing.
   */
  method AddFrontend(ch: Channel, ids: IdSource, appId: string, hostname: string, pathBegin: string,
                     certificate: Option<Result<CertFingerprint, string>>) returns (o: Outcome)
    modifies ch, ids
    ensures certificate.Some? && certificate.value.Failure? ==>
      o == Failed(CertificateError) && unchanged(ch) && unchanged(ids)
    ensures !(certificate.Some? && certificate.value.Failure?) ==>
      && ids.drawn == old(ids.drawn) + 1
      && WroteThenReadOnce(old(ch.input), old(ch.output), ch.input, ch.output,
           ConfigMessage(ids.Id(old(ids.drawn)),
             ProxyConfiguration(FrontOrder(true, appId, hostname, pathBegin,
               if certificate.Some? then Some(certificate.value.value) else None)), None))
      && OrderOutcome(old(ch.input), ids.Id(old(ids.drawn)), o)
  {
    match certificate {
      case None =>
        o := OrderCommand(ch, ids, FrontOrder(true, appId, hostname, pathBegin, None));
      case Some(Failure(_)) =>
        o := Failed(CertificateError);
      case Some(Success(fp)) =>
        o := OrderCommand(ch, ids, FrontOrder(true, appId, hostname, pathBegin, Some(fp)));
    }
  }

  method RemoveFrontend(ch: Channel, ids: IdSource, appId: string, hostname: string, pathBegin: string,
                        certificate: Option<Result<CertFingerprint, string>>) returns (o: Outcome)
    modifies ch, ids
    ensures certificate.Some? && certificate.value.Failure? ==>
      o == Failed(CertificateError) && unchanged(ch) && unchanged(ids)
    ensures !(certificate.Some? && certificate.value.Failure?) ==>
      && ids.drawn == old(ids.drawn) + 1
      && WroteThenReadOnce(old(ch.input), old(ch.output), ch.input, ch.output,
           ConfigMessage(ids.Id(old(ids.drawn)),
             ProxyConfiguration(FrontOrder(false, appId, hostname, pathBegin,
               if certificate.Some? then Some(certificate.value.value) else None)), None))
      && OrderOutcome(old(ch.input), ids.Id(old(ids.drawn)), o)
  {
    match certificate {
      case None =>
        o := OrderCommand(ch, ids, FrontOrder(false, appId, hostname, pathBegin, None));
      case Some(Failure(_)) =>
        o := Failed(CertificateError);
      case Some(Success(fp)) =>
        o := OrderCommand(ch, ids, FrontOrder(false, appId, hostname, pathBegin, Some(fp)));
    }
  }

  method AddBackend(ch: Channel, ids: IdSource, appId: string, instanceId: string, ip: string, port: nat) returns (o: Outcome)
    modifies ch, ids
    ensures ids.drawn == old(ids.drawn) + 1
    ensures WroteThenReadOnce(old(ch.input), old(ch.output), ch.input, ch.output,
              ConfigMessage(ids.Id(old(ids.drawn)), ProxyConfiguration(AddInstance(Instance(appId, instanceId, ip, port))), None))
    ensures OrderOutcome(old(ch.input), ids.Id(old(ids.drawn)), o)
  {
    o := OrderCommand(ch, ids, AddInstance(Instance(appId, instanceId, ip, port)));
  }

  method RemoveBackend(ch: Channel, ids: IdSource, appId: string, instanceId: string, ip: string, port: nat) returns (o: Outcome)
    modifies ch, ids
    ensures ids.drawn == old(ids.drawn) + 1
    ensures WroteThenReadOnce(old(ch.input), old(ch.output), ch.input, ch.output,
              ConfigMessage(ids.Id(old(ids.drawn)), ProxyConfiguration(RemoveInstance(Instance(appId, instanceId, ip, port))), None))
    ensures OrderOutcome(old(ch.input), ids.Id(old(ids.drawn)), o)
  {
    o := OrderCommand(ch, ids, RemoveInstance(Instance(appId, instanceId, ip, port)));
  }

  /**
   * `loaded` is what loading the certificate, splitting the chain file and loading
   * the key produced together; any failure there writes nothing.
   */
  method AddCertificate(ch: Channel, ids: IdSource, loaded: Result<CertificateAndKey, string>) returns (o: Outcome)
    modifies ch, ids
    ensures loaded.Failure? ==> o == Failed(CertificateError) && unchanged(ch) && unchanged(ids)
    ensures loaded.Success? ==>
      && ids.drawn == old(ids.drawn) + 1
      && WroteThenReadOnce(old(ch.input), old(ch.output), ch.input, ch.output,
           ConfigMessage(ids.Id(old(ids.drawn)), ProxyConfiguration(Order.AddCertificate(loaded.value)), None))
      && OrderOutcome(old(ch.input), ids.Id(old(ids.drawn)), o)
  {
    match loaded {
      case Failure(_) => o := Failed(CertificateError);
      case Success(certificate) => o := OrderCommand(ch, ids, Order.AddCertificate(certificate));
    }
  }

  /** `fingerprint` is what loading the certificate and fingerprinting it produced. */
  method RemoveCertificate(ch: Channel, ids: IdSource, fingerprint: Result<CertFingerprint, string>) returns (o: Outcome)
    modifies ch, ids
    ensures fingerprint.Failure? ==> o == Failed(CertificateError) && unchanged(ch) && unchanged(ids)
    ensures fingerprint.Success? ==>
      && ids.drawn == old(ids.drawn) + 1
      && WroteThenReadOnce(old(ch.input), old(ch.output), ch.input, ch.output,
           ConfigMessage(ids.Id(old(ids.drawn)), ProxyConfiguration(Order.RemoveCertificate(fingerprint.value)), None))
      && OrderOutcome(old(ch.input), ids.Id(old(ids.drawn)), o)
  {
    match fingerprint {
      case Failure(_) => o := Failed(CertificateError);
      case Success(fp) => o := OrderCommand(ch, ids, Order.RemoveCertificate(fp));
    }
  }

  method AddTcpFront(ch: Channel, ids: IdSource, appId: string, ipAddress: string, port: nat) returns (o: Outcome)
    modifies ch, ids
    ensures ids.drawn == old(ids.drawn) + 1
    ensures WroteThenReadOnce(old(ch.input), old(ch.output), ch.input, ch.output,
              ConfigMessage(ids.Id(old(ids.drawn)), ProxyConfiguration(Order.AddTcpFront(TcpFront(appId, ipAddress, port))), None))
    ensures OrderOutcome(old(ch.input), ids.Id(old(ids.drawn)), o)
  {
    o := OrderCommand(ch, ids, Order.AddTcpFront(TcpFront(appId, ipAddress, port)));
  }

  method RemoveTcpFront(ch: Channel, ids: IdSource, appId: string, ipAddress: string, port: nat) returns (o: Outcome)
    modifies ch, ids
    ensures ids.drawn == old(ids.drawn) + 1
    ensures WroteThenReadOnce(old(ch.input), old(ch.output), ch.input, ch.output,
              ConfigMessage(ids.Id(old(ids.drawn)), ProxyConfiguration(Order.RemoveTcpFront(TcpFront(appId, ipAddress, port))), None))
    ensures OrderOutcome(old(ch.input), ids.Id(old(ids.drawn)), o)
  {
    o := OrderCommand(ch, ids, Order.RemoveTcpFront(TcpFront(appId, ipAddress, port)));
  }

  method LoggingFilter(ch: Channel, ids: IdSource, filter: string) returns (o: Outcome)
    modifies ch, ids
    ensures ids.drawn == old(ids.drawn) + 1
    ensures WroteThenReadOnce(old(ch.input), old(ch.output), ch.input, ch.output,
              ConfigMessage(ids.Id(old(ids.drawn)), ProxyConfiguration(Logging(filter)), None))
    ensures OrderOutcome(old(ch.input), ids.Id(old(ids.drawn)), o)
  {
    o := OrderCommand(ch, ids, Logging(filter));
  }
}
