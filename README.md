# Homelab dashboard: verified model

This project models, in Dafny, the logic of a home-lab dashboard and one manifest fix-up script:

- **The screensaver** (`Screensaver.tsx`):
  - the load-based regime table;
  - the particle pool: particles are constructed, updated each frame, filtered out when dead and refilled by a network-driven batch;
  - the rule that decides which pairs of particles are joined by a line, and how faint that line is.
- **The dashboard page** (`App.tsx`):
  - uptime splitting;
  - the 30-sample CPU and memory histories fed by each WebSocket message;
  - the mean CPU figure;
  - the idle-screensaver flag;
  - the container selection toggle;
  - the disk chart names and the container row strings.
- **The API server** (`main.go`):
  - the architecture and power tables;
  - the Kubernetes node classification from `kubectl` output;
  - the Docker container tally;
  - the multi-arch flag;
  - the container start/stop/restart dispatch with its HTTP replies.
- **`fix-rwx-pvcs.py`**: the rule that switches the storage class of every ReadWriteMany PersistentVolumeClaim on `local-path` to `nfs`. The model includes the Python exceptions the loop can raise and the write back done only when something changed.

## Modules

- `wrappers.dfy`: `Option`, `Result`, `Min`, `Max`.
- `text.dfy` (`Text`): the string operations the sources call. These are Go `strings.Contains`, `TrimSpace`, `TrimPrefix`, the first field of a Go `strings.Split`, and JavaScript's last field of `split('/').pop()` and single `replace('/', '')`.
- `telemetry.dfy` (`Telemetry`): the metrics snapshot as the UI receives it, the CPU mean and the network figure in MB.
- `screensaver.dfy` (`Screensaver`): two classes.
  - `Particle` has the fields that `update` mutates.
  - `Simulation` is one run of the effect. It holds the pool `particles` (a `seq` of `Particle` objects that the frame's methods reassign) and an `active` flag standing for the scheduled animation frame.
- `proximity.dfy` (`Proximity`): the `drawConnections` nested loop as a method, proved equal to the specification function `Pairs`.
- `dashboard.dfy` (`Dashboard`): the page's pure helpers, and a `DashboardState` class with the state fields that the handlers update.
- `server.dfy` (`Server`): `main.go`, with every probe passed in as a parameter:
  - `GOARCH`;
  - `NODE_NAME`;
  - the two `kubectl` outputs;
  - the battery file;
  - the Docker container list;
  - the parsed request;
  - the daemon's error.
- `pvc_fix.dfy` (`PvcFix`): YAML values as a datatype. The rewrite loop works in place on an `array` of documents, and `FixFile` is the whole `fix_rwx_pvcs` function.

Random draws (`Math.random()`) are parameters whose components lie in `[0, 1)`. The constructor takes six draws and `update` takes two.

## Model

| member | source | states |
|---|---|---|
| Screensaver.Classify | apps/dashboard/ui/src/components/Screensaver.tsx:24-28 | exactly one regime per load: idle below 30, normal in [30,50), busy in [50,70), intense from 70 |
| Screensaver.Load | apps/dashboard/ui/src/components/Screensaver.tsx:24 | the load is the mean of the CPU and memory percentages |
| Screensaver.Profile | apps/dashboard/ui/src/components/Screensaver.tsx:25-28 | the regime table: idle #00FF88, speed 0.5, 30 particles; normal #00D9FF, 1, 50; busy #FFD700, 2, 80; intense #FF00FF, 3, 120 |
| Screensaver.GetSystemState | apps/dashboard/ui/src/components/Screensaver.tsx:23-29 | the state is the profile of the regime that the mean of CPU and memory falls in |
| Screensaver.SystemStateMonotone | apps/dashboard/ui/src/components/Screensaver.tsx:23-29 | more load never gives a lower speed or target count |
| Screensaver.SystemStateDependsOnLoadOnly | apps/dashboard/ui/src/components/Screensaver.tsx:24 | inputs with the same cpu+mem sum give the same state |
| Screensaver.SystemStateExamples | apps/dashboard/ui/src/components/Screensaver.tsx:25-28 | sample loads give the whole idle, normal, busy and intense rows |
| Screensaver.Wrap | apps/dashboard/ui/src/components/Screensaver.tsx:71-74 | the result lies in [0,limit]; below 0 it becomes the far edge, beyond the limit it becomes 0, and inside it is unchanged |
| Screensaver.Jitter | apps/dashboard/ui/src/components/Screensaver.tsx:77-78 | the velocity change is 0 when the CPU is 0, and lies within ±0.05·cpu/100 |
| Screensaver.Clamp | apps/dashboard/ui/src/components/Screensaver.tsx:81-83 | the result lies in [-bound,bound]; a value inside is unchanged and one outside becomes the nearer end |
| Screensaver.SpawnBounds | apps/dashboard/ui/src/components/Screensaver.tsx:54-63 | the drawn values give x∈[0,W), y∈[0,H), vx,vy∈[-speed/2,speed/2), size∈[1,4), maxLife∈[100,200) |
| Screensaver.Particle.constructor | apps/dashboard/ui/src/components/Screensaver.tsx:54-63 | each field is its draw scaled as written; life == maxLife; and every field is in its fresh range |
| Screensaver.Particle.Update | apps/dashboard/ui/src/components/Screensaver.tsx:65-84 | the position advances by the old velocity and then wraps; life drops by exactly 1; the velocity gets the jitter and is clamped to ±2·speed; the other fields are untouched |
| Screensaver.NoJitterWhenIdleCpu | apps/dashboard/ui/src/components/Screensaver.tsx:77-83 | at 0% CPU an in-bound velocity is left exactly as it was |
| Screensaver.Alive | apps/dashboard/ui/src/components/Screensaver.tsx:133 | every particle kept by the filter has life > 0 |
| Screensaver.AliveSubsequence | apps/dashboard/ui/src/components/Screensaver.tsx:133 | the survivors are a subsequence of the pool, so their relative order is kept |
| Screensaver.AliveKeepsLive | apps/dashboard/ui/src/components/Screensaver.tsx:133 | every live particle survives the filter |
| Screensaver.SubsequenceDistinct | apps/dashboard/ui/src/components/Screensaver.tsx:133 | filtering a pool of distinct objects keeps them distinct, drawn from the pool and no more numerous |
| Screensaver.Positions | apps/dashboard/ui/src/components/Screensaver.tsx:110-111 | gives the coordinates each particle has at the moment they are read |
| Screensaver.SpawnPositions | apps/dashboard/ui/src/components/Screensaver.tsx:55-56 | the k-th new particle starts at the k-th draw scaled to the canvas |
| Screensaver.ParticlesToAdd | apps/dashboard/ui/src/components/Screensaver.tsx:136-140 | 0 at or above target; below target it is min(floor(net/10)+1, target-len), which is at least 1 and never overshoots target |
| Screensaver.FrameKeepsBound | apps/dashboard/ui/src/components/Screensaver.tsx:136-144 | a pool at or below target is at or below target after the spawn step |
| Screensaver.QuietNetworkAddsOne | apps/dashboard/ui/src/components/Screensaver.tsx:137-140 | with no traffic a short pool grows by exactly one |
| Screensaver.BusyNetworkFillsDeficit | apps/dashboard/ui/src/components/Screensaver.tsx:137-140 | enough traffic refills the whole deficit in one frame |
| Screensaver.Simulation.constructor | apps/dashboard/ui/src/components/Screensaver.tsx:18-20 | the run captures the mean CPU, memory, MB figure and system state, and seeds exactly `target` fresh particles (line 101), the k-th built by the constructor from the k-th draw: position, velocity, size, colour, maxLife and life == maxLife |
| Screensaver.Simulation.RemoveDead | apps/dashboard/ui/src/components/Screensaver.tsx:133 | the pool becomes the filter of the old pool; every survivor has life > 0 and was already in the pool; the pool bound is kept |
| Screensaver.Simulation.Push | apps/dashboard/ui/src/components/Screensaver.tsx:142 | one fresh particle is appended, with every field as the constructor sets it from the draws (life == maxLife); the earlier pool is unchanged |
| Screensaver.Simulation.Spawn | apps/dashboard/ui/src/components/Screensaver.tsx:136-144 | exactly ParticlesToAdd fresh particles are appended after the unchanged old pool, the k-th built by the constructor from the k-th draw, and the pool stays within target |
| Screensaver.Simulation.UpdateAll | apps/dashboard/ui/src/components/Screensaver.tsx:148-151 | every particle of the pool has taken exactly one update step with its own draws |
| Screensaver.Simulation.Refill | apps/dashboard/ui/src/components/Screensaver.tsx:133-144 | the pool is the survivors followed by ParticlesToAdd fresh particles, each built by the constructor from its own draw; the positions are the survivors' then the spawn points |
| Screensaver.Simulation.Advance | apps/dashboard/ui/src/components/Screensaver.tsx:146-151 | the lines are exactly Pairs of the pre-update positions, then every particle is updated once; a particle built from a draw beforehand ends as that draw moved by one update |
| Screensaver.Simulation.Animate | apps/dashboard/ui/src/components/Screensaver.tsx:128-154 | one frame: refill and then draw lines over the refilled positions; each particle spawned in the frame ends as the constructor built it, moved by one update; the pool stays within target and the loop stays scheduled |
| Screensaver.Simulation.Cancel | apps/dashboard/ui/src/components/Screensaver.tsx:158-162 | the cleanup leaves no scheduled frame and leaves the pool alone |
| Proximity.DistSq | apps/dashboard/ui/src/components/Screensaver.tsx:110-112 | the squared distance is non-negative |
| Proximity.Near | apps/dashboard/ui/src/components/Screensaver.tsx:112-114 | a pair is joined when its squared distance is below 150² (the source compares the distance with 150) |
| Proximity.Alpha | apps/dashboard/ui/src/components/Screensaver.tsx:116 | the line opacity (1 - d/150)·0.2 for distance d |
| Proximity.Pairs | apps/dashboard/ui/src/components/Screensaver.tsx:104-125 | the lines drawConnections draws, row by row; specified by PairsMembers, RowsOrdered and PairsOnce |
| Proximity.NearIffWithinDistance | apps/dashboard/ui/src/components/Screensaver.tsx:112-114 | comparing squared distance with 150² decides the same as distance < 150 |
| Proximity.AlphaRange | apps/dashboard/ui/src/components/Screensaver.tsx:116 | a drawn line's alpha (1-d/150)·0.2 lies in (0, 0.2] |
| Proximity.AlphaAtDistance | apps/dashboard/ui/src/components/Screensaver.tsx:116 | the alpha reaches 0 at the connection distance |
| Proximity.AlphaDecreasing | apps/dashboard/ui/src/components/Screensaver.tsx:116 | the alpha strictly decreases with distance |
| Proximity.RowMembers | apps/dashboard/ui/src/components/Screensaver.tsx:109-122 | the inner loop draws (i,j) exactly for the j above i, near i, within the bound |
| Proximity.RowsMembers | apps/dashboard/ui/src/components/Screensaver.tsx:108-124 | the outer loop's first n rows hold exactly the near pairs whose first index is below n |
| Proximity.RowsSound | apps/dashboard/ui/src/components/Screensaver.tsx:108-124 | every line drawn by the first n rows joins a near pair i<j with i below n |
| Proximity.RowsComplete | apps/dashboard/ui/src/components/Screensaver.tsx:108-124 | every near pair i<j with i below n has its line among the first n rows |
| Proximity.PairsMembers | apps/dashboard/ui/src/components/Screensaver.tsx:108-124 | a line is drawn for pair i<j if and only if the two points are near |
| Proximity.RowOrdered | apps/dashboard/ui/src/components/Screensaver.tsx:109 | one row's lines go in strictly increasing j |
| Proximity.RowsOrdered | apps/dashboard/ui/src/components/Screensaver.tsx:108-109 | the lines go in strictly increasing (i,j) order |
| Proximity.PairsOnce | apps/dashboard/ui/src/components/Screensaver.tsx:108-109 | no unordered pair is drawn twice |
| Proximity.LineAlpha | apps/dashboard/ui/src/components/Screensaver.tsx:114-116 | every drawn line has alpha in (0, 0.2] |
| Proximity.DrawConnections | apps/dashboard/ui/src/components/Screensaver.tsx:104-125 | the nested i<j loop emits exactly Pairs(pts) |
| Proximity.DrawRow | apps/dashboard/ui/src/components/Screensaver.tsx:109-123 | the inner loop emits exactly the row of near pairs (i,j), j>i, in increasing j |
| Telemetry.SumBounds | apps/dashboard/ui/src/App.tsx:193 | a sum of n values that lie within [lo,hi] lies within [n·lo, n·hi] |
| Telemetry.Sum | apps/dashboard/ui/src/App.tsx:193 | the `reduce((a, b) => a + b, 0)` sum, added left to right |
| Telemetry.AvgCpu | apps/dashboard/ui/src/App.tsx:322 | the mean times the core count is the sum of the usage list |
| Telemetry.AvgCpuBounds | apps/dashboard/ui/src/App.tsx:193 | the mean of values in [lo,hi] is in [lo,hi] |
| Telemetry.AvgCpuPercent | apps/dashboard/ui/src/components/Screensaver.tsx:18 | percentages average to a percentage |
| Telemetry.NetworkActivity | apps/dashboard/ui/src/components/Screensaver.tsx:20 | the figure is non-negative and equals (sent+received)/10⁶ |
| Telemetry.NetworkActivityMonotone | apps/dashboard/ui/src/components/Screensaver.tsx:20 | more bytes never give a smaller figure |
| Dashboard.FormatUptime | apps/dashboard/ui/src/App.tsx:257-262 | days = s div 86400, hours < 24, minutes < 60, and the parts add up to s less at most 59 seconds |
| Dashboard.UptimeUnique | apps/dashboard/ui/src/App.tsx:257-262 | any split with hours < 24 and minutes < 60 that brackets s is the one formatUptime gives |
| Dashboard.PushHistory | apps/dashboard/ui/src/App.tsx:194-195 | the length becomes min(len+1, 30), the new sample is last, and before it come the latest samples of prev in order |
| Dashboard.Fed | apps/dashboard/ui/src/App.tsx:189-195 | the history after the samples arrive one message at a time from an empty one; FedIsLatest characterises it |
| Dashboard.Latest | apps/dashboard/ui/src/App.tsx:194 | the last min(len, n) elements |
| Dashboard.FedIsLatest | apps/dashboard/ui/src/App.tsx:189-195 | after any number of messages the history is exactly the latest 30 samples |
| Dashboard.AfterIdle | apps/dashboard/ui/src/App.tsx:112-114 | the flag is on afterwards iff it was on already or the user is idle with metrics present |
| Dashboard.AfterIdleTurnsOnOnlyWhenIdle | apps/dashboard/ui/src/App.tsx:112-114 | the effect changes the flag only from off, when idle with metrics; running it again changes nothing |
| Dashboard.Toggle | apps/dashboard/ui/src/App.tsx:710 | clicking selects the id unless it was already selected, in which case it clears the selection |
| Dashboard.ToggleTwice | apps/dashboard/ui/src/App.tsx:710 | two clicks restore the selection exactly when it was empty or that id; a different prior selection ends empty |
| Dashboard.DiskName | apps/dashboard/ui/src/App.tsx:326 | the name is the last `/` field of the path, which holds no `/`, or the whole path when that field is empty |
| Dashboard.DiskNameExamples | apps/dashboard/ui/src/App.tsx:326 | "/"→"/", "/var/lib"→"lib", "/mnt/data/"→"/mnt/data/", ""→"" |
| Dashboard.DiskChartData | apps/dashboard/ui/src/App.tsx:325-329 | one entry each for the first three disks, in order, with their name, used bytes and percent |
| Dashboard.DisplayName | apps/dashboard/ui/src/App.tsx:725 | only the first `/` is removed; a name without one is shown as is |
| Dashboard.DisplayImage | apps/dashboard/ui/src/App.tsx:726 | the image shown is the text before the first `:`, and is the whole image when it has no `:` |
| Dashboard.Row | apps/dashboard/ui/src/App.tsx:705-726 | one rendered row: id, name without its first `/`, image before its first `:`, running light, highlight iff selected |
| Dashboard.ContainerRows | apps/dashboard/ui/src/App.tsx:692-726 | the first five containers, in order, each with its display strings, running light and selection |
| Dashboard.AtMostOneSelected | apps/dashboard/ui/src/App.tsx:705-707 | with distinct ids, at most one listed row is highlighted |
| Dashboard.DashboardState.constructor | apps/dashboard/ui/src/App.tsx:100-105 | starts with no metrics, empty histories, no selection and the screensaver off |
| Dashboard.DashboardState.OnMessage | apps/dashboard/ui/src/App.tsx:189-195 | stores the snapshot and pushes its mean CPU and memory percent onto the histories; nothing else changes |
| Dashboard.DashboardState.IdleEffect | apps/dashboard/ui/src/App.tsx:112-114 | the flag becomes AfterIdle of the old flag; nothing else changes |
| Dashboard.DashboardState.ExitScreensaver | apps/dashboard/ui/src/App.tsx:337-338 | onExit turns the flag off; nothing else changes |
| Dashboard.DashboardState.ClickContainer | apps/dashboard/ui/src/App.tsx:710 | the selection becomes Toggle of the old selection; nothing else changes |
| Dashboard.VisibleIffShown | apps/dashboard/ui/src/App.tsx:334 | the screensaver renders exactly when the flag is on, since the flag implies metrics |
| Text.IndexOf | apps/dashboard/ui/src/App.tsx:725 | the first index of c, or -1 exactly when c does not occur |
| Text.Contains | apps/dashboard/api/cmd/server/main.go:151 | `strings.Contains`: `t` occurs somewhere in `s` |
| Text.RemoveFirst | apps/dashboard/ui/src/App.tsx:725 | the string with its first c cut out, or unchanged when there is none |
| Text.FirstField | apps/dashboard/api/cmd/server/main.go:128-130 | the prefix before the first separator, or the whole string when it has none |
| Text.LastField | apps/dashboard/ui/src/App.tsx:326 | the suffix after the last separator, or the whole string when it has none |
| Text.TrimPrefix | apps/dashboard/api/cmd/server/main.go:130 | prefix + result is the input when the prefix is present; otherwise the input |
| Text.TrimLeft | apps/dashboard/api/cmd/server/main.go:128 | the input without its leading white space |
| Text.TrimRight | apps/dashboard/api/cmd/server/main.go:128 | the input without its trailing white space |
| Text.TrimSpace | apps/dashboard/api/cmd/server/main.go:148 | the result is the infix of the input that starts where TrimLeft's white-space prefix ends and is followed only by white space (`Margined`); it is empty iff the input is all white space, and otherwise neither starts nor ends with white space |
| Server.GetArchitecture | apps/dashboard/api/cmd/server/main.go:108-119 | every branch returns GOARCH unchanged |
| Server.GetPowerInfo | apps/dashboard/api/cmd/server/main.go:174-212 | amd64 → 45 W "medium"; arm64 → 7 W "high"; arm → 2.5 W "ultra-high"; otherwise 25 W "unknown" |
| Server.BatteryIrrelevant | apps/dashboard/api/cmd/server/main.go:199-205 | the battery file never changes the result |
| Server.PowerTableConsistent | apps/dashboard/api/cmd/server/main.go:180-197 | "unknown" exactly off the table; among tabled architectures, higher efficiency means fewer watts |
| Server.NodeRole | apps/dashboard/api/cmd/server/main.go:159-167 | master if "master" or "control-plane" occurs, else edge, else storage, else worker, in both directions |
| Server.ResolveNodeName | apps/dashboard/api/cmd/server/main.go:123-133 | NODE_NAME when set; else the first trimmed kubectl line without `node/`; empty when kubectl fails |
| Server.GetKubernetesInfo | apps/dashboard/api/cmd/server/main.go:121-172 | none iff there is no node name; the labels map is exactly `{"arch": goarch}` when the trimmed labels mention "arch" and empty otherwise; arch flags only with that label; role only for non-empty labels |
| Server.LabelText | apps/dashboard/api/cmd/server/main.go:146-149 | the label text classified: the trimmed kubectl output, or empty when the command fails |
| Server.ArchFlagsExclusive | apps/dashboard/api/cmd/server/main.go:154-155 | a node is never both ARM and AMD64 |
| Server.IsMultiArch | apps/dashboard/api/cmd/server/main.go:289 | true exactly when there is Kubernetes info and its node is flagged ARM or AMD64 |
| Server.MultiArchIff | apps/dashboard/api/cmd/server/main.go:289 | multi-arch iff there is a named node whose labels mention "arch" and whose GOARCH is amd64, arm64 or arm |
| Server.NodeNameFromKubectl | apps/dashboard/api/cmd/server/main.go:123-133 | "node/pi5\n" gives "pi5"; NODE_NAME wins; a failed kubectl gives "" |
| Server.Report | apps/dashboard/api/cmd/server/main.go:263-269 | the reported id is the 12-character prefix of the full id, with the first name and the other fields copied |
| Server.CountRunning | apps/dashboard/api/cmd/server/main.go:271-273 | the number of containers whose state is exactly "running", counted in list order |
| Server.CountRunningBounds | apps/dashboard/api/cmd/server/main.go:271-273 | running ≤ all; equal iff every container runs; zero iff none does |
| Server.CollectDocker | apps/dashboard/api/cmd/server/main.go:258-276 | count = list length; running = entries whose state is exactly "running"; containers reported in order; all zero without a list |
| Server.OperationFor | apps/dashboard/api/cmd/server/main.go:338-362 | start, stop(10) and restart(10) for their own names, nothing for any other action |
| Server.HandleContainerAction | apps/dashboard/api/cmd/server/main.go:325-365 | bind error → 400 with it; unknown action → 400 "invalid action" and no call; 200 "success" iff the call was made and did not error; a daemon error → 500 with it |
| Server.ActionExamples | apps/dashboard/api/cmd/server/main.go:338-361 | each known action calls its own operation on the requested id; "kill" calls nothing |
| PvcFix.Get | fix-rwx-pvcs.py:12-14 | dict.get gives the stored value or the default |
| PvcFix.Truthy | fix-rwx-pvcs.py:12 | Python truthiness: None, False, 0, "", [] and {} are false, every other value is true |
| PvcFix.Selects | fix-rwx-pvcs.py:12-14 | the `if` condition with short-circuit evaluation: AttributeError from `.get` on a value that is not a dict, TypeError from `in` on null, bool or number |
| PvcFix.InModes | fix-rwx-pvcs.py:13 | Python `in` on a list, string or dict, and a TypeError on null, bool or number |
| PvcFix.SelectedIff | fix-rwx-pvcs.py:12-14 | a document is selected iff it is a PVC with a spec mapping whose accessModes mention ReadWriteMany and whose storage class is local-path |
| PvcFix.WithoutAccessModesPassedOver | fix-rwx-pvcs.py:13-14 | without spec, or without accessModes, a dict document is passed over without error |
| PvcFix.Rewrite | fix-rwx-pvcs.py:15 | only spec.storageClassName changes, and it becomes "nfs" |
| PvcFix.Subscript | fix-rwx-pvcs.py:17 | a present key gives its value; a missing one gives KeyError; a value that is not a dict gives TypeError |
| PvcFix.Announce | fix-rwx-pvcs.py:17 | the f-string's `doc['metadata']['namespace']` and `['name']`, read in order, with their KeyError or TypeError |
| PvcFix.AnnounceIff | fix-rwx-pvcs.py:17 | the message can be built iff metadata is a dict with namespace and name |
| PvcFix.Step | fix-rwx-pvcs.py:11-17 | a document changes iff it is selected, and then to its rewrite; it fails exactly on a failing condition or a failing message |
| PvcFix.FixAll | fix-rwx-pvcs.py:10-17 | the loop over all documents as a left fold of Step; FixAllShape, FixAllFailure and FixAllIdempotent characterise it |
| PvcFix.FoldSteps | fix-rwx-pvcs.py:11-16 | a loop without exception keeps count and order, takes each step once, and is modified iff some step changed |
| PvcFix.FoldFailure | fix-rwx-pvcs.py:11-17 | a loop that raises raises the first failing step's error, after every earlier step succeeded |
| PvcFix.FixAllShape | fix-rwx-pvcs.py:8-16 | count and order are kept; each selected document is rewritten and the others are kept; modified iff some document was selected |
| PvcFix.FixAllFailure | fix-rwx-pvcs.py:11-17 | an exception comes from the first document whose condition or message fails, and every earlier one went through |
| PvcFix.RewriteNotReselected | fix-rwx-pvcs.py:14-15 | a rewritten claim is not selected again |
| PvcFix.FixAllIdempotent | fix-rwx-pvcs.py:11-16 | a second run over the output changes nothing and reports no modification |
| PvcFix.FixDocuments | fix-rwx-pvcs.py:10-17 | the in-place loop leaves the rewritten documents and returns modified, or raises the first exception |
| PvcFix.FixFile | fix-rwx-pvcs.py:5-23 | returns True iff something changed and writes exactly then; returns False without writing; raises without writing |

## Left out

- Canvas drawing, React rendering, framer-motion props and the purely visual components. Only the decisions (which lines, their alpha, which row is highlighted) are modelled.
- `requestAnimationFrame` and the effect re-run: scheduling is the `active` flag of `Simulation`, and one `Simulation` object is one run of the effect.
- `Math.random()`: the draws are parameters in `[0, 1)`. The window size is a parameter too.
- `Math.sqrt`: a connection carries the squared distance. `Proximity.NearIffWithinDistance` shows that the squared test decides the same as the source's test on the distance.
- Floating point: all JavaScript and Go numbers are exact reals or unbounded integers. Rounding is not modelled, and neither is NaN, which is what the mean gives for an empty `usage_percent` list. `Telemetry.AvgCpu` therefore requires a non-empty list.
- Screensaver.Simulation.Animate: its contract gives the refill, the lines drawn and the final state of every particle spawned in the frame. For the surviving particles it does not restate their one update step. `Screensaver.Simulation.Advance` and `Screensaver.Simulation.UpdateAll` state that step relative to the refilled pool.
- `formatBytes`, `toFixed`, `toLocaleTimeString` and the `"Xd Yh Zm"` text: the uptime is modelled as its three numbers, and the sample time is a parameter.
- The WebSocket transport, `fetch`, toasts, confetti and the page reload.
- `main.go` I/O is left out: gopsutil, the Docker client, `kubectl`, sysfs, gin routing, CORS and the ticker loop. Each probe's result is a parameter.
- Go nil slices sent as JSON `null`: `main.go` fills `Containers` (258-276) and `Disk` (234-246) only by `append`. Each stays nil, and is sent as `null`, whenever no entry is added: the daemon is unreachable, it lists no container, or no partition is read. On `null`, `metrics.docker.containers.slice(0, 5)` (App.tsx:692) and `metrics.disk.slice(0, 3)` (App.tsx:325) throw a TypeError and the page does not render. The model has no `null` here: `Server.CollectDocker`, `Dashboard.ContainerRows` and `Dashboard.DiskChartData` work on an empty sequence instead, so that failure is not captured.
- Server.Report: requires a full id of at least 12 characters and a non-empty name list, as the Docker daemon guarantees. The Go code would panic when given anything else.
- Server.HandleContainerAction: a nil Docker client (the daemon was unreachable at start-up) is not modelled. The Go code would dereference it.
- YAML loading and dumping, and the printed text. A document is modelled as a YAML value with string keys. Mapping key order, non-string keys, anchors and aliases (shared objects) are not modelled.
- PvcFix.FixDocuments: on an exception the contract states only the exception raised. When the exception comes from the message's subscript, the array is already partly rewritten, but `FixFile` then writes nothing.
- The file list at the end of `fix-rwx-pvcs.py` and its prints.

## Notes on the code

The spawn step adds at most `target - len` particles, so the pool never exceeds `target` (`Screensaver.FrameKeepsBound` and the `Simulation` invariant).

Clicking the same container twice restores the prior selection only when nothing, or that container, was selected before. A different prior selection ends empty. `Dashboard.ToggleTwice` states that exact condition.
