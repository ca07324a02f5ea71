/**
 * The dashboard page: the pure helpers of the App component (uptime, history window,
 * disk and container display strings) and its state cells (latest snapshot, histories,
 * the selected container and the screensaver flag) as one object updated by its event
 * handlers.
 */
module Dashboard {
  import opened Wrappers
  import opened Text
  import opened Telemetry

  // ---------------------------------------------------------------------------------------
  // Uptime

  datatype Uptime = Uptime(days: nat, hours: nat, minutes: nat)

  /** The whole seconds that an uptime reading accounts for. */
  function UptimeSeconds(u: Uptime): nat
  {
    u.days * 86400 + u.hours * 3600 + u.minutes * 60
  }

  /**
   * `formatUptime`: whole days, then whole hours of the rest of the day, then whole minutes
   * of the rest of the hour; the seconds left over are fewer than 60.
   */
  function FormatUptime(seconds: nat): (u: Uptime)
    ensures u.days == seconds / 86400 && u.hours < 24 && u.minutes < 60
    ensures UptimeSeconds(u) <= seconds < UptimeSeconds(u) + 60
  {
    var days := seconds / 86400;
    var hours := (seconds % 86400) / 3600;
    var minutes := (seconds % 3600) / 60;
    UptimeSplit(seconds);
    Uptime(days, hours, minutes)
  }

  /** The arithmetic behind FormatUptime: `seconds % 3600` is the remainder of the day's rest. */
  lemma UptimeSplit(seconds: nat)
    ensures var rest := seconds % 86400;
      && seconds == (seconds / 86400) * 86400 + (rest / 3600) * 3600 + ((seconds % 3600) / 60) * 60
                    + (seconds % 60)
      && rest / 3600 < 24 && (seconds % 3600) / 60 < 60
  {
    var d, rest := seconds / 86400, seconds % 86400;
    var h, r := rest / 3600, rest % 3600;
    DivideBy(seconds, 3600, d * 24 + h, r);
    var m, sec := r / 60, r % 60;
    DivideBy(seconds, 60, (d * 24 + h) * 60 + m, sec);
  }

  /** Quotient and remainder are determined by any split with the remainder below the divisor. */
  lemma DivideBy(n: nat, b: nat, q: nat, r: nat)
    requires b == 60 || b == 3600
    requires n == q * b + r && r < b
    ensures n / b == q && n % b == r
  {
    if b == 60 {
      assert n == q * 60 + r;
    } else {
      assert n == q * 3600 + r;
    }
  }

  /** A reading with hours below 24 and minutes below 60 that brackets `seconds` is the one formatUptime gives. */
  lemma UptimeUnique(seconds: nat, u: Uptime)
    requires u.hours < 24 && u.minutes < 60
    requires UptimeSeconds(u) <= seconds < UptimeSeconds(u) + 60
    ensures u == FormatUptime(seconds)
  {
    var v := FormatUptime(seconds);
    var hours := u.days * 24 + u.hours;
    assert seconds / 60 == hours * 60 + u.minutes;
    assert seconds / 3600 == hours;
    assert seconds / 86400 == u.days;
  }

  // ---------------------------------------------------------------------------------------
  // The 30-sample history window

  const HistoryLength := 30

  /** One point of a history chart: the local time of the message and the value shown. */
  datatype Sample = Sample(time: string, value: real)

  /** `[...prev.slice(-29), x]`: keep the latest 29 samples at most and append the new one. */
  function PushHistory<T>(prev: seq<T>, x: T): (r: seq<T>)
    ensures |r| == Min(|prev| + 1, HistoryLength)
    ensures r[|r| - 1] == x
    ensures r[..|r| - 1] == prev[|prev| - (|r| - 1)..]
  {
    var kept := if |prev| <= HistoryLength - 1 then prev else prev[|prev| - (HistoryLength - 1)..];
    assert (kept + [x])[..|kept|] == kept;
    kept + [x]
  }

  /** The last `n` elements of `s` (all of it when it is shorter). */
  function Latest<T>(s: seq<T>, n: nat): (r: seq<T>)
    ensures |r| == Min(|s|, n) && r == s[|s| - |r|..]
  {
    if |s| <= n then s else s[|s| - n..]
  }

  /** The history after feeding `samples` one message at a time into an empty chart. */
  function Fed<T>(samples: seq<T>): seq<T>
  {
    if samples == [] then [] else PushHistory(Fed(samples[..|samples| - 1]), samples[|samples| - 1])
  }

  /** Pushing onto the latest 30 of a stream gives the latest 30 of the longer stream. */
  lemma PushLatest<T>(s: seq<T>, x: T, longer: seq<T>)
    requires longer == s + [x]
    ensures PushHistory(Latest(s, HistoryLength), x) == Latest(longer, HistoryLength)
  {
    var r, l := PushHistory(Latest(s, HistoryLength), x), Latest(longer, HistoryLength);
    assert |r| == |l|;
    forall k | 0 <= k < |r| ensures r[k] == l[k] {
      if k < |r| - 1 {
        assert r[k] == r[..|r| - 1][k];
      }
    }
  }

  /** Whatever the stream of messages, the chart holds exactly its latest 30 samples, in order. */
  lemma {:induction false} FedIsLatest<T>(samples: seq<T>)
    ensures Fed(samples) == Latest(samples, HistoryLength)
    decreases |samples|
  {
    if samples != [] {
      var init, x := samples[..|samples| - 1], samples[|samples| - 1];
      assert samples == init + [x];
      FedIsLatest(init);
      PushLatest(init, x, samples);
    }
  }

  // ---------------------------------------------------------------------------------------
  // The screensaver flag and the container selection

  /** The idle effect: the flag is raised when the user is idle and a snapshot has arrived. */
  function AfterIdle(shown: bool, isIdle: bool, hasMetrics: bool): (r: bool)
    ensures r <==> shown || (isIdle && hasMetrics)
  {
    if isIdle && hasMetrics && !shown then true else shown
  }

  /** The effect turns the flag on only from off, when idle with metrics, and re-running it changes nothing. */
  lemma AfterIdleTurnsOnOnlyWhenIdle(shown: bool, isIdle: bool, hasMetrics: bool)
    ensures AfterIdle(shown, isIdle, hasMetrics) != shown <==> !shown && isIdle && hasMetrics
    ensures AfterIdle(AfterIdle(shown, isIdle, hasMetrics), isIdle, hasMetrics) == AfterIdle(shown, isIdle, hasMetrics)
  {
  }

  /** `selectedContainer === id ? null : id`. */
  function Toggle(selected: Option<string>, id: string): (r: Option<string>)
    ensures r == Some(id) <==> selected != Some(id)
    ensures r == None <==> selected == Some(id)
  {
    if selected == Some(id) then None else Some(id)
  }

  /**
   * Clicking the same container twice restores the prior selection exactly when nothing or
   * that very container was selected; from another container's selection it clears it.
   */
  lemma ToggleTwice(selected: Option<string>, id: string)
    ensures Toggle(Toggle(selected, id), id) == selected <==> selected == None || selected == Some(id)
    ensures selected != None && selected != Some(id) ==> Toggle(Toggle(selected, id), id) == None
  {
  }

  // ---------------------------------------------------------------------------------------
  // Disk chart and container list

  /** `disk.path.split('/').pop() || disk.path`: the last path segment, or the path when that is empty. */
  function DiskName(path: string): (name: string)
    ensures LastField(path, '/') != [] ==> name == LastField(path, '/')
    ensures LastField(path, '/') == [] ==> name == path
    ensures |name| <= |path|
  {
    var segment := LastField(path, '/');
    if segment != [] then segment else path
  }

  lemma DiskNameExamples()
    ensures DiskName("/") == "/"
    ensures DiskName("/var/lib") == "lib"
    ensures DiskName("/mnt/data/") == "/mnt/data/"
    ensures DiskName("") == ""
  {
    LastFieldAfter("/var", '/', "lib");
    assert "/var" + ['/'] + "lib" == "/var/lib";
  }

  datatype ChartEntry = ChartEntry(name: string, value: nat, percent: real)

  /** `metrics.disk.slice(0, 3).map(...)`: one pie slice for each of the first three disks. */
  function DiskChartData(disks: seq<DiskMetrics>): (chart: seq<ChartEntry>)
    ensures |chart| == Min(|disks|, 3)
    ensures forall k :: 0 <= k < |chart| ==>
      chart[k] == ChartEntry(DiskName(disks[k].path), disks[k].used, disks[k].usedPercent)
  {
    var n := Min(|disks|, 3);
    seq(n, k requires 0 <= k < n => ChartEntry(DiskName(disks[k].path), disks[k].used, disks[k].usedPercent))
  }

  /** `container.name.replace('/', '')`. */
  function DisplayName(name: string): (shown: string)
    ensures '/' !in name ==> shown == name
    ensures '/' in name ==> |shown| == |name| - 1 && var k := IndexOf(name, '/');
      '/' !in shown[..k] && name == shown[..k] + "/" + shown[k..]
  {
    RemoveFirst(name, '/')
  }

  /** `container.image.split(':')[0]`: the repository without its tag. */
  function DisplayImage(image: string): (shown: string)
    ensures ':' !in shown && IsPrefix(shown, image)
    ensures |shown| == |image| || image[|shown|] == ':'
    ensures shown == image <==> ':' !in image
  {
    FirstField(image, ':')
  }

  /** One entry of the container list as it is rendered. */
  datatype ContainerRow = ContainerRow(id: string, name: string, image: string, running: bool, selected: bool)

  function Row(c: ContainerInfo, selected: Option<string>): ContainerRow
  {
    ContainerRow(c.id, DisplayName(c.name), DisplayImage(c.image), c.state == "running", selected == Some(c.id))
  }

  /** `metrics.docker.containers.slice(0, 5).map(...)`. */
  function ContainerRows(containers: seq<ContainerInfo>, selected: Option<string>): (rows: seq<ContainerRow>)
    ensures |rows| == Min(|containers|, 5)
    ensures forall k :: 0 <= k < |rows| ==> rows[k] == Row(containers[k], selected)
  {
    var n := Min(|containers|, 5);
    seq(n, k requires 0 <= k < n => Row(containers[k], selected))
  }

  /** With distinct ids, at most one listed container shows as selected, and only the selected id. */
  lemma AtMostOneSelected(containers: seq<ContainerInfo>, selected: Option<string>, a: nat, b: nat)
    requires forall i, j :: 0 <= i < j < |containers| ==> containers[i].id != containers[j].id
    requires a < b < |ContainerRows(containers, selected)|
    ensures !(ContainerRows(containers, selected)[a].selected && ContainerRows(containers, selected)[b].selected)
  {
    var rows := ContainerRows(containers, selected);
    assert rows[a] == Row(containers[a], selected) && rows[b] == Row(containers[b], selected);
  }

  // ---------------------------------------------------------------------------------------
  // The page state

  class DashboardState {
    var metrics: Option<Snapshot>
    var cpuHistory: seq<Sample>
    var memoryHistory: seq<Sample>
    var selectedContainer: Option<string>
    var showScreensaver: bool

    /**
     * Both charts are fed by the same messages, the window holds at most 30 samples,
     * the latest CPU sample is the average of the latest snapshot, and the screensaver
     * is only up once a snapshot exists.
     */
    ghost predicate Valid()
      reads this
    {
      && |cpuHistory| == |memoryHistory| <= HistoryLength
      && (showScreensaver ==> metrics.Some?)
      && (metrics.None? <==> cpuHistory == [])
      && (metrics.Some? ==>
            && |metrics.value.cpuUsage| > 0
            && cpuHistory[|cpuHistory| - 1].value == AvgCpu(metrics.value.cpuUsage)
            && memoryHistory[|memoryHistory| - 1].value == metrics.value.memoryUsedPercent)
    }

    /** The initial state cells: no snapshot, empty charts, nothing selected, no screensaver. */
    constructor ()
      ensures Valid()
      ensures metrics == None && cpuHistory == [] && memoryHistory == []
      ensures selectedContainer == None && !showScreensaver
    {
      metrics := None;
      cpuHistory := [];
      memoryHistory := [];
      selectedContainer := None;
      showScreensaver := false;
    }

    /** `ws.onmessage`: store the snapshot and push one sample onto each chart, stamped `time`. */
    method OnMessage(data: Snapshot, time: string)
      requires Valid() && |data.cpuUsage| > 0
      modifies this
      ensures Valid()
      ensures metrics == Some(data)
      ensures cpuHistory == PushHistory(old(cpuHistory), Sample(time, AvgCpu(data.cpuUsage)))
      ensures memoryHistory == PushHistory(old(memoryHistory), Sample(time, data.memoryUsedPercent))
      ensures selectedContainer == old(selectedContainer) && showScreensaver == old(showScreensaver)
    {
      metrics := Some(data);
      var avgCpu := AvgCpu(data.cpuUsage);
      cpuHistory := PushHistory(cpuHistory, Sample(time, avgCpu));
      memoryHistory := PushHistory(memoryHistory, Sample(time, data.memoryUsedPercent));
    }

    /** The idle effect, run with the current value of `isIdle`. */
    method IdleEffect(isIdle: bool)
      requires Valid()
      modifies this
      ensures Valid()
      ensures showScreensaver == AfterIdle(old(showScreensaver), isIdle, metrics.Some?)
      ensures metrics == old(metrics) && cpuHistory == old(cpuHistory) && memoryHistory == old(memoryHistory)
      ensures selectedContainer == old(selectedContainer)
    {
      if isIdle && metrics.Some? && !showScreensaver {
        showScreensaver := true;
      }
    }

    /** The screensaver's `onExit`. */
    method ExitScreensaver()
      requires Valid()
      modifies this
      ensures Valid() && !showScreensaver
      ensures metrics == old(metrics) && cpuHistory == old(cpuHistory) && memoryHistory == old(memoryHistory)
      ensures selectedContainer == old(selectedContainer)
    {
      showScreensaver := false;
    }

    /** A click on the container with id `id`. */
    method ClickContainer(id: string)
      requires Valid()
      modifies this
      ensures Valid() && selectedContainer == Toggle(old(selectedContainer), id)
      ensures metrics == old(metrics) && cpuHistory == old(cpuHistory) && memoryHistory == old(memoryHistory)
      ensures showScreensaver == old(showScreensaver)
    {
      selectedContainer := Toggle(selectedContainer, id);
    }

    /** `showScreensaver && metrics`: the screensaver is rendered. */
    predicate ScreensaverVisible()
      reads this
    {
      showScreensaver && metrics.Some?
    }
  }

  /** In every valid state the flag alone decides whether the screensaver is rendered. */
  lemma VisibleIffShown(d: DashboardState)
    requires d.Valid()
    ensures d.ScreensaverVisible() <==> d.showScreensaver
  {
  }
}
