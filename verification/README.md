# sozu: readiness, backends and the control client, modelled in Dafny

sozu is a reverse proxy driven over a Unix-socket control channel. This
project models two parts of it.

- **The network core's small records** (`lib/src/network/mod.rs`):
  - `RequiredEvents` has sixteen variants, one per pair of front/back
    interests. Its four readiness predicates ask whether the front or back
    socket needs reading or writing.
  - `Backend` is a mutable record with a lifecycle (`Normal`, `Closing`,
    `Closed`), a connection count, a failure count and a retry policy.
    Its `set_closing`, `can_open`, `inc_connections`, `dec_connections` and
    `try_connect` are modelled as a class whose methods update its fields.
    All of them preserve the invariant that a `Closed` backend holds no
    connection.
- **The command-line client** (`ctl/src/command.rs`):
  - Every client command draws a fresh id (`generate_id`,
    `generate_tagged_id`), writes a `ConfigMessage` on the channel and
    correlates the answers it reads with that id.
  - The single-shot commands (`order_command` and its wrappers,
    `save_state`, `load_state`, `dump_state`, `query_application`) read one
    answer.
  - `soft_stop` loops until its own Ok answer and gives up on the first
    foreign id; `hard_stop` loops until its own Ok answer.
  - `upgrade` does four things in turn. It lists the workers. For every
    Running worker it launches a replacement and soft-stops the worker. It
    then drains the answers until both tracking sets are empty. Last, it
    promotes the master.
  - `status` sends one Status order per Running worker. A background thread
    collects the answers into a table shared with the main thread. The main
    thread waits at most one second for the thread's signal, then labels the
    workers if it can take the table.
  - `metrics` waits for its metrics answer and reshapes it. The result is
    three tables, each with one column block per worker and one row per
    key.

**The channel.** `Channels.Channel` is a class. Its `input` is the sequence
of what successive `read_message` calls return (None when a read yields
nothing), and its `output` is everything written. When the input runs out,
a real client would wait forever; the model reports this as the outcome
`Blocked`.

**Ids.** `Channels.IdSource` holds the random generator: `draw(k)` is the
k-th six-character random part, whichever of `generate_id` and
`generate_tagged_id` asks for it. A call of `generate_id` that makes the k-th
draw therefore returns `"ID-" + draw(k)`.

**How a command ends.** A command's `Outcome` is one of:
- `Done`;
- `Pending`: a Processing answer ended a single-shot command;
- `Failed(reason)`: a diagnostic was printed and the function returned;
- `Exit(code)`: the process exited;
- `Blocked`.

## Model

| member | source | states |
|---|---|---|
| Readiness.Compose | lib/src/network/mod.rs:41-59 | the variant named by a (front, back) pair of interests has exactly those interests; with ComposeOfParts, the sixteen variants are in bijection with the pairs |
| Readiness.ComposeOfParts | lib/src/network/mod.rs:41-59 | every variant is the composition of its own front and back interests |
| Readiness.FrontReadable | lib/src/network/mod.rs:63-75 | true exactly for the variants whose front interest includes reading |
| Readiness.FrontWritable | lib/src/network/mod.rs:77-89 | true exactly for the variants whose front interest includes writing |
| Readiness.BackReadable | lib/src/network/mod.rs:91-103 | true exactly for the variants whose back interest includes reading |
| Readiness.BackWritable | lib/src/network/mod.rs:105-117 | true exactly for the variants whose back interest includes writing |
| Readiness.FacetsIgnoreOtherSide | lib/src/network/mod.rs:63-117 | the front predicates do not depend on the back interest, and the back predicates do not depend on the front interest |
| Readiness.FacetsDetermineEvents | lib/src/network/mod.rs:63-117 | two variants that answer all four predicates alike are the same variant |
| Readiness.InterestFromFacets | lib/src/network/mod.rs:41-59 | an interest is determined by whether it reads and whether it writes |
| Readiness.TruthTable | lib/src/network/mod.rs:63-117 | the four predicates' values for each of the sixteen variants, one row per variant |
| Backends.Backend.constructor | lib/src/network/mod.rs:164-175 | a new backend is Normal, with no connection and no failure, and has a fresh retry policy that permits an attempt |
| Backends.Backend.SetClosing | lib/src/network/mod.rs:177-179 | the status becomes Closing whatever it was; nothing else changes |
| Backends.Backend.CanOpen | lib/src/network/mod.rs:185-191 | true exactly when the backend is Normal and its policy says Okay; false whenever the policy gives no verdict |
| Backends.Backend.IncConnections | lib/src/network/mod.rs:193-200 | in Normal status the count goes up by one and is returned; in any other status nothing changes and None is returned |
| Backends.Backend.DecConnections | lib/src/network/mod.rs:202-224 | at zero connections the backend is forced to Closed and None is returned. Otherwise: Normal counts down and returns the new count; Closed changes nothing and returns None; Closing counts down and becomes Closed, returning None, exactly when the last connection goes. A Closed backend keeps no connection |
| Backends.Backend.TryConnect | lib/src/network/mod.rs:226-266 | a backend that is not Normal refuses with NoBackendAvailable and changes nothing. A successful transport returns the socket for the protocol and counts one more connection. A failed one returns NoBackendAvailable, counts one failure and tells the policy |
| Backends.Lifecycle | lib/src/network/mod.rs:163-266 | whatever sequence of set_closing, inc, dec and connect calls is applied to a new backend, a Closed backend holds no connection |
| Channels.IdShape | ctl/src/command.rs:18-21 | an id is nine characters: "ID-" followed by the six alphanumeric random characters, which can be read back from it |
| Channels.TaggedIdShape | ctl/src/command.rs:23-26 | a tagged id is the tag, a dash and the six random characters, and both parts can be read back from it |
| Channels.TaggedIdInjective | ctl/src/command.rs:23-26 | two tagged ids are equal only if their tags and their random parts are equal |
| Channels.TaggedIdsDiffer | ctl/src/command.rs:23-26 | ids made from tags that start with different letters never collide, whatever their random parts |
| Channels.IdSource.GenerateId | ctl/src/command.rs:18-21 | returns the id of the next random draw and consumes exactly one draw |
| Channels.IdSource.GenerateTaggedId | ctl/src/command.rs:23-26 | returns the tagged id of the next random draw and consumes exactly one draw |
| Command.RunningWorkers | ctl/src/command.rs:240 | the fan-out list is no longer than the worker list, and every worker in it is Running |
| Command.RunningWorkersAreTheRunning | ctl/src/command.rs:240 | the fan-out reaches every Running worker of the list as often as it is listed, and no other worker |
| Command.OrderCommand | ctl/src/command.rs:830-876 | writes the order for all workers, then reads at most one answer. No answer: Failed(NoAnswer). A foreign id: Failed(InvalidId). Processing: Pending. Error: exit 1. Ok: Done. Each outcome occurs exactly in its case |
| Command.SaveState | ctl/src/command.rs:29-63 | writes SaveState(path) and reads one answer. No answer, a foreign id or Error each exit with status 1; Processing is Pending; Ok is Done; each exactly in its case |
| Command.LoadState | ctl/src/command.rs:65-99 | as SaveState, with LoadState(path) |
| Command.DumpState | ctl/src/command.rs:101-140 | as SaveState, and an Ok answer without a state dump also exits. The dump is returned exactly when the outcome is Done |
| Command.QueryApplication | ctl/src/command.rs:789-824 | queries one application or all of them and reads one answer; each failure returns without exiting, and each outcome occurs exactly in its case |
| Command.SoftStop | ctl/src/command.rs:142-175 | reads past silence and past Processing and Error answers to its id; ends Done on its Ok answer; gives up on the first foreign id |
| Command.HardStop | ctl/src/command.rs:177-208 | reads past everything except an Ok answer to its id, foreign ids included |
| Command.AddApplication | ctl/src/command.rs:653-658 | sends AddApplication with the id and sticky flag, as OrderCommand |
| Command.RemoveApplication | ctl/src/command.rs:660-662 | sends RemoveApplication, as OrderCommand |
| Command.AddFrontend | ctl/src/command.rs:664-689 | sends an HTTP front, or an HTTPS front with the certificate's fingerprint; a certificate that fails to load writes nothing |
| Command.RemoveFrontend | ctl/src/command.rs:691-716 | as AddFrontend, with the removal orders |
| Command.AddBackend | ctl/src/command.rs:719-726 | sends AddInstance for the backend's address, as OrderCommand |
| Command.RemoveBackend | ctl/src/command.rs:728-735 | sends RemoveInstance, as OrderCommand |
| Command.AddCertificate | ctl/src/command.rs:737-759 | sends the loaded certificate, chain and key; a loading failure writes nothing |
| Command.RemoveCertificate | ctl/src/command.rs:761-771 | sends the certificate's fingerprint; a loading failure writes nothing |
| Command.AddTcpFront | ctl/src/command.rs:773-779 | sends AddTcpFront, as OrderCommand |
| Command.RemoveTcpFront | ctl/src/command.rs:781-787 | sends RemoveTcpFront, as OrderCommand |
| Command.LoggingFilter | ctl/src/command.rs:826-828 | sends the Logging order with the filter, as OrderCommand |
| Tracking.Outstanding | ctl/src/command.rs:279-296 | what is left of a tracking set is a subset of it |
| Tracking.OutstandingMeans | ctl/src/command.rs:279-296 | an id stays in a tracking set exactly as long as no Ok or Error answer to it has been read |
| Tracking.OutstandingShrinks | ctl/src/command.rs:279-296 | reading more answers never adds an id back to a tracking set |
| Tracking.OutstandingIgnores | ctl/src/command.rs:274-276 | silence, Processing answers and answers to untracked ids leave a tracking set unchanged |
| Tracking.IdsOfFrom | ctl/src/command.rs:249 | every id in a batch's id set belongs to one of its messages |
| Tracking.FirstConclusion | ctl/src/command.rs:406-431 | there is a first final status for an id exactly when some Ok or Error answer to it was read, and it is never Processing |
| Tracking.FirstConclusionExtend | ctl/src/command.rs:411-427 | reading one more answer changes an id's first final status only if it had none |
| Upgrade.DrainedMeans | ctl/src/command.rs:265-301 | both tracking sets are empty exactly when every launch and every soft-stop has received an Ok or Error answer |
| Upgrade.LaunchAndStopIdsDiffer | ctl/src/command.rs:240-262 | no LAUNCH-WORKER id equals a SOFT-STOP-WORKER id, so one answer retires an id from at most one set |
| Upgrade.LaunchAll | ctl/src/command.rs:240-250 | writes one untargeted LaunchWorker("BLAH") per Running worker, in list order; each id joins the launching set; one draw each |
| Upgrade.StopAll | ctl/src/command.rs:252-262 | writes one SoftStop per Running worker, targeted at that worker, in list order; each id joins the stopping set; one draw each |
| Upgrade.Drain | ctl/src/command.rs:265-301 | reads exactly up to the first point where both sets are empty, and no further; if they never empty, it consumes all input |
| Upgrade.Promote | ctl/src/command.rs:304-334 | writes UpgradeMaster with an UPGRADE-MASTER id. It reads past silence and Processing, ends on Ok or Error to its id, and gives up on the first foreign id |
| Upgrade.ListPhase | ctl/src/command.rs:211-236 | writes ListWorkers with a LIST-WORKERS id and demands an immediate Ok answer carrying the workers. Each other first answer ends the upgrade with its own diagnostic |
| Upgrade.Replace | ctl/src/command.rs:237-335 | the whole fan-out is written before any read. UpgradeMaster is sent only once every launch and soft-stop has concluded, and never earlier; otherwise the upgrade blocks |
| Upgrade.Upgrade | ctl/src/command.rs:210-341 | lists the workers, then replaces the Running ones and promotes the master. Anything but an immediate worker list ends it after one read |
| Status.PendingTableHoldsTheOrders | ctl/src/command.rs:373-387 | the shared table's keys are exactly the ids of the Status orders, all Processing at first |
| Status.PendingTableAt | ctl/src/command.rs:376-387 | with distinct ids, each order's id maps to the worker it was sent to |
| Status.PendingTableKeys | ctl/src/command.rs:376-387 | every key of the shared table is the id of one of the orders |
| Status.StatusRequestsGrow | ctl/src/command.rs:376-387 | one more Running worker adds one order, and its id to the expected set |
| Status.SendStatusOrders | ctl/src/command.rs:376-387 | writes one Status order per Running worker, targeted at it, in list order. Each id is expected and entered in the table as (worker, Processing) |
| Status.Recorded | ctl/src/command.rs:406-431 | recording answers never adds or removes an entry of the table |
| Status.RecordedIsFirstConclusion | ctl/src/command.rs:406-431 | each entry keeps its worker. Its status becomes that of the first Ok or Error answer to its id, if the id was expected; otherwise it stays as it was |
| Status.CollectStep | ctl/src/command.rs:394-435 | one more answer retires its id from the expected set and updates the table accordingly |
| Status.Collect | ctl/src/command.rs:393-438 | the background thread reads within the wait's budget. It never reads once the expected set is empty and never past an empty read; the latter exits the process. It concludes, leaving its loop to signal the main thread, exactly when every order has concluded. The table holds the first final status of each order |
| Status.Label | ctl/src/command.rs:447-461 | a worker's label is "ok" exactly for Ok, "error" exactly for Error, and "processing" or "timeout" for Processing depending on whether the thread finished |
| Status.Labels | ctl/src/command.rs:447-461 | the label map covers exactly the workers named in the table, each labelled by one of its entries |
| Status.LabelOfOnlyEntry | ctl/src/command.rs:447-461 | when no two entries name the same worker, each worker's label is its one entry's |
| Status.SameWorkerSameEntry | ctl/src/command.rs:376-387 | with distinct ids and distinct workers, two entries naming the same worker are the same entry |
| Status.OneEntryPerWorker | ctl/src/command.rs:376-387 | with distinct ids and distinct workers, no two entries name the same worker |
| Status.ConcludedShowsFirstAnswers | ctl/src/command.rs:393-461 | when the thread concluded, whether or not its signal came in time, every Running worker is labelled "ok" or "error", after the first final answer to its order |
| Status.Placeholder | ctl/src/command.rs:441-445 | a worker without a label shows nothing exactly when the thread finished |
| Status.Report | ctl/src/command.rs:463-470 | one row per listed worker, Running or not, in list order, with its label or the placeholder |
| Status.ListPhase | ctl/src/command.rs:344-372 | writes ListWorkers and demands an immediate Ok answer carrying the workers; silence, a foreign id, Processing and Error all exit with status 1 |
| Status.Survey | ctl/src/command.rs:373-470 | sends the orders, runs the thread. It exits if the thread did. Otherwise it tabulates the workers, with no label at all when the main thread's lock is contended. The main thread counts as finished only when the thread concluded and its signal came within the wait; a late signal leaves the complete table labelled as unfinished |
| Status.TimeoutMeansUnsignalled | ctl/src/command.rs:437-470 | a survey that did not exit has one row per listed worker. When the main thread got the signal in time, no row reads "timeout". Otherwise no row is blank or reads "processing", even when every order concluded |
| Status.Status | ctl/src/command.rs:343-479 | the whole command: the listing, then the survey of the listed workers, with the same timing parameters as Survey, late signal included |
| Metrics.KeysOfMeans | ctl/src/command.rs:563-599 | a key gets a row exactly when some worker reports it |
| Metrics.ColumnOfUnreported | ctl/src/command.rs:563-599 | a key no worker reports has no cells |
| Metrics.GatheredGrows | ctl/src/command.rs:563-599 | pushing one more worker's entries onto the rows built so far gives the rows of the longer worker list |
| Metrics.Absorb | ctl/src/command.rs:564-598 | each entry of one worker's map is appended to its key's row, creating the row when absent |
| Metrics.RowLength | ctl/src/command.rs:522-599 | a row never has more cells than its header has worker labels, and exactly as many when every worker reports its key |
| Metrics.RowShortWhenUnreported | ctl/src/command.rs:522-599 | when some worker does not report a key, its row is shorter than the header |
| Metrics.ColumnPrefix | ctl/src/command.rs:563-599 | the row built from the first n workers is the start of the row built from all of them |
| Metrics.BlocksPrefix | ctl/src/command.rs:522-559 | the header blocks of the first n workers are the start of the header built from all of them |
| Metrics.RowLengthMissingOne | ctl/src/command.rs:522-599 | when exactly one worker lacks a key, the key's row is shorter than the header by exactly that worker's block |
| Metrics.RowShifted | ctl/src/command.rs:522-599 | when worker i lacks a key and every other worker up to j > i reports it, worker j's cells start worker i's block width before worker j's own labels. They sit under the tail of the labels of the workers before j |
| Metrics.RowAligned | ctl/src/command.rs:522-599 | when every worker reports a key, worker i's cells sit at exactly the position of worker i's labels |
| Metrics.Enumerate | ctl/src/command.rs:524-526 | the worker columns list every process but the master exactly once, in some order |
| Metrics.Headers | ctl/src/command.rs:520-560 | the headers are "key", "application" and "backend", each followed by every worker's block of labels, in column order |
| Metrics.Rows | ctl/src/command.rs:563-599 | every table holds, for each reported key, the cells of the workers that report it, in column order |
| Metrics.Reshape | ctl/src/command.rs:506-599 | removes the master's entry into its own table, then builds the three headers and the three tables' rows for the remaining workers in one column order |
| Metrics.WorkersAreTheOtherProcesses | ctl/src/command.rs:506-559 | there is one worker column per process other than the master. After its first label, the proxy header has one label per worker, the application header eight and the backend header ten |
| Metrics.TableLinesUp | ctl/src/command.rs:520-642 | in any of the tables, when every worker reports a key, worker i's cells sit under worker i's labels |
| Metrics.ApplicationRowLinesUp | ctl/src/command.rs:533-545 | in the application table, worker i's eight percentiles sit under worker i's eight labels when every worker reports the application |
| Metrics.BackendRowLinesUp | ctl/src/command.rs:547-560 | in the backend table, worker i's bytes out, bytes in and eight percentiles sit under worker i's ten labels when every worker reports the backend |
| Metrics.ProxyRowLinesUp | ctl/src/command.rs:520-526 | in the proxy table, worker i's counter sits under worker i's name when every worker reports the counter |
| Metrics.Metrics | ctl/src/command.rs:481-651 | writes Metrics and reads past silence, Processing and Error answers, foreign ids and Ok answers without metrics. It ends on its own Ok answer carrying metrics, whose reshaping is the report |

## Left out

- Sockets, TLS and the event loop: `try_connect` takes whether the transport connects as a parameter. The TCP connect, `set_nodelay`, the TLS handshake and its hard-coded "test.com" domain are not modelled.
- `lib/src/retry.rs` is not part of this model. The policy is reduced to its verdict (`can_try`) and a failure count (`fail`); the verdict after a failure is left open. The backoff parameters of `ExponentialBackoffPolicy::new(10)` and time are not modelled.
- The `retry_policy()` accessor (mod.rs:181-183) only hands out the policy; the model reaches the field directly.
- `usize`/`u32`/`u64` widths: counters and ids are unbounded naturals. `inc_connections` cannot overflow in practice.
- Printing: every `println!` and the rendering of `prettytable` tables are left out. The tables are modelled as headers and rows, and a row is keyed by its first cell. The order rows are printed in follows the hash map's iteration and is not modelled.
- The status command's thread, mutex, channel and one-second timeout are replaced by three parameters. `budget` is how many reads the background thread completes within the wait. `signalled` is whether a thread that left its loop gets its signal to the main thread before the wait ends. `contended` is whether the main thread's `try_lock` fails. Reads the thread makes after the main thread has taken the table, including a read that yields nothing (the source then exits the process from the thread), are not modelled.
- Random ids come from the generator `draw`; the distribution of `thread_rng` is not modelled.
- Loading certificate, chain and key files and computing fingerprints are foreign to this code. Their results are parameters of the commands that need them.
- The hash maps' iteration order is an unspecified order. In `metrics` the workers' column order is chosen nondeterministically, and the same order serves the headers and the rows, as `keys()` and `values()` of one unchanged map do.
- `FilteredData` is passed through untouched, so its variants are not modelled.
- `RunState` keeps only Running, Stopping and Stopped; only Running matters to the fan-outs.
- Status.ListingFails: in `status`, an Ok answer to the listing that carries no worker list makes the source return without printing. The model reports this as `Failed(MissingData)`.
- Upgrade.ListingFails: in `upgrade`, the same answer makes the source print the answer's data and then return. The model reports this as `Failed(MissingData)` and does not model the printing.
- Command.SoftStop, Command.HardStop, Upgrade.Drain, Upgrade.Promote and Metrics.Metrics: the source loops forever while reads yield nothing. The model stops at the end of its finite input and reports `Blocked`.
- The Error branch of `metrics` prints a stop-related message; printed texts are not modelled.
