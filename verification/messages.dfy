/**
 * The vocabulary the administrative client exchanges with the supervising
 * process: commands, orders, answers, workers and the metrics snapshot.
 */
module Messages {
  import opened Wrappers

  datatype MessageStatus = Processing | Error | Ok

  datatype Application = Application(appId: string, stickySession: bool)

  datatype CertFingerprint = CertFingerprint(bytes: seq<bv8>)

  datatype HttpFront = HttpFront(appId: string, hostname: string, pathBegin: string)

  datatype HttpsFront = HttpsFront(appId: string, hostname: string, pathBegin: string, fingerprint: CertFingerprint)

  datatype TcpFront = TcpFront(appId: string, ipAddress: string, port: nat)

  datatype Instance = Instance(appId: string, instanceId: string, ipAddress: string, port: nat)

  datatype CertificateAndKey = CertificateAndKey(certificate: string, certificateChain: seq<string>, key: string)

  /** A live configuration change. */
  datatype Order =
    | AddApplication(application: Application)
    | RemoveApplication(appId: string)
    | AddHttpFront(httpFront: HttpFront)
    | RemoveHttpFront(httpFront: HttpFront)
    | AddHttpsFront(httpsFront: HttpsFront)
    | RemoveHttpsFront(httpsFront: HttpsFront)
    | AddTcpFront(tcpFront: TcpFront)
    | RemoveTcpFront(tcpFront: TcpFront)
    | AddInstance(instance: Instance)
    | RemoveInstance(instance: Instance)
    | AddCertificate(certificateAndKey: CertificateAndKey)
    | RemoveCertificate(fingerprint: CertFingerprint)
    | SoftStop
    | HardStop
    | Status
    | Logging(filter: string)

  datatype QueryKind = ApplicationQuery(appId: string) | ApplicationsQuery

  datatype ConfigCommand =
    | ProxyConfiguration(order: Order)
    | SaveState(path: string)
    | LoadState(path: string)
    | DumpState
    | ListWorkers
    | LaunchWorker(tag: string)
    | UpgradeMaster
    | Query(query: QueryKind)
    | Metrics

  /** A command, the id its answers will carry, and the worker it targets (None: all of them). */
  datatype ConfigMessage = ConfigMessage(id: string, command: ConfigCommand, worker: Option<nat>)

  datatype RunState = Running | Stopping | Stopped

  datatype Worker = Worker(id: nat, pid: int, runState: RunState)

  /** A proxy counter; its variants are passed through untouched and are not modelled. */
  datatype FilteredData = FilteredData(value: int)

  datatype Percentiles = Percentiles(
    samples: nat, p50: nat, p90: nat, p99: nat, p99_9: nat, p99_99: nat, p99_999: nat, p100: nat)

  datatype BackendMetrics = BackendMetrics(bytesIn: nat, bytesOut: nat, percentiles: Percentiles)

  datatype WorkerMetrics = WorkerMetrics(
    proxy: map<string, FilteredData>,
    applications: map<string, Percentiles>,
    backends: map<string, BackendMetrics>)

  datatype AnswerData =
    | Workers(workers: seq<Worker>)
    | State(state: string)
    | Metrics(metrics: map<string, WorkerMetrics>)
    | QueryResult(result: string)

  datatype Answer = Answer(id: string, status: MessageStatus, message: string, data: Option<AnswerData>)
}
