/** The scheduler service: two jobs in a background scheduler, one that
    refreshes the black-and-white panel every N seconds and one that
    refreshes the colour panel once a day at a configured "HH:MM".  The
    scheduler's job store is a map from job id to job, so adding a job with
    an id already present replaces it. */
module Scheduler {
  import opened Wrappers
  import opened PyText
  import opened ConfigService
  import opened DisplayService

  /** When a job fires: every `seconds` seconds, or daily at `hour:minute`. */
  datatype Trigger = Interval(seconds: int) | Cron(hour: int, minute: int)

  /** The service method a job calls. */
  datatype Callback = RefreshBw | RefreshColor

  datatype Job = Job(id: string, name: string, trigger: Trigger, func: Callback)

  const BwJobId := "bw_display_refresh"
  const ColorJobId := "color_display_refresh"
  /** Fallback refresh interval for the B&W panel: 30 minutes. */
  const DefaultInterval := 1800
  const DefaultColorTime := "06:00"

  function BwJob(seconds: int): Job {
    Job(BwJobId, "Refresh B&W Display", Interval(seconds), RefreshBw)
  }

  function ColorJob(hour: int, minute: int): Job {
    Job(ColorJobId, "Refresh Color Display", Cron(hour, minute), RefreshColor)
  }

  /** Every job is stored under its own id. */
  predicate Keyed(jobs: map<string, Job>) {
    forall id :: id in jobs ==> jobs[id].id == id
  }

  /** `add_job(..., replace_existing=True)`: the job takes its id's slot,
      whatever was there before. */
  function AddJob(jobs: map<string, Job>, job: Job): (r: map<string, Job>)
    ensures r.Keys == jobs.Keys + {job.id}
    ensures r[job.id] == job
    ensures forall id :: id in jobs && id != job.id ==> r[id] == jobs[id]
    ensures Keyed(jobs) ==> Keyed(r)
  {
    jobs[job.id := job]
  }

  /** The seconds an interval trigger accepts: an integer, or a boolean
      counted as 0 or 1; anything else is a TypeError (`None`). */
  function IntervalSeconds(v: Value): (r: Option<int>)
    ensures v.Number? ==> r == Some(v.n)
    ensures r.None? <==> !(v.Number? || v.Flag?)
  {
    match v
    case Number(n) => Some(n)
    case Flag(b) => Some(if b then 1 else 0)
    case _ => None
  }

  predicate IsClock(hour: int, minute: int) {
    0 <= hour < 24 && 0 <= minute < 60
  }

  /** What reading the colour refresh time gives: a time of day; a
      ValueError that the setup catches (`Invalid`); or an AttributeError
      that it does not, because the value is not text (`NotText`). */
  datatype TimeOfDay = At(hour: int, minute: int) | Invalid | NotText

  /** Splitting the configured time on ':' into exactly two integers, then
      the cron trigger's range check on hour and minute. */
  function ParseTime(v: Value): (t: TimeOfDay)
    ensures t.NotText? <==> !v.Text?
    ensures t.At? ==> IsClock(t.hour, t.minute)
  {
    match v
    case Text(s) =>
      var parts := SplitOn(s, ':');
      if |parts| != 2 then Invalid
      else
        var hour := ParseInt(parts[0]);
        var minute := ParseInt(parts[1]);
        if hour.Some? && minute.Some? && IsClock(hour.value, minute.value)
        then At(hour.value, minute.value)
        else Invalid
    case _ => NotText
  }

  lemma IntToStringHasNoColon(i: int)
    ensures ':' !in IntToString(i)
  {
    var n: nat := if i < 0 then -i else i;
    assert forall k :: 0 <= k < |NatToString(n)| ==> IsDigit(NatToString(n)[k]);
  }

  /** Writing a valid hour and minute as "H:M" and reading it back gives
      the same time of day. */
  lemma TimeRoundTrip(hour: int, minute: int)
    requires IsClock(hour, minute)
    ensures ParseTime(Text(IntToString(hour) + ":" + IntToString(minute))) == At(hour, minute)
  {
    IntToStringHasNoColon(hour);
    IntToStringHasNoColon(minute);
    ParseIntOfIntToString(hour);
    ParseIntOfIntToString(minute);
    TimeOfPieces(IntToString(hour), IntToString(minute), hour, minute);
  }

  /** A time that reads as `At(h, m)` is two integer texts for `h` and `m`
      around a single colon. */
  lemma ParsedTimeShape(s: string)
    requires ParseTime(Text(s)).At?
    ensures exists a, b ::
      && s == a + ":" + b && ':' !in a && ':' !in b
      && ParseInt(a) == Some(ParseTime(Text(s)).hour) && ParseInt(b) == Some(ParseTime(Text(s)).minute)
  {
    var parts := SplitOn(s, ':');
    SplitOnJoin(s, ':');
    JoinCons([':'], parts[0], parts[1..]);
    assert parts[1..] == [parts[1]];
    assert ':' !in parts[0] && ':' !in parts[1];
    assert s == parts[0] + ":" + parts[1];
  }

  /** A time without a colon is invalid, not an error. */
  lemma NoColonIsInvalid(s: string)
    requires ':' !in s
    ensures ParseTime(Text(s)) == Invalid
  {
    SplitOnNoSep(s, ':');
  }

  /** A time with more than one colon is invalid. */
  lemma ManyColonsInvalid(a: string, b: string, c: string)
    ensures ParseTime(Text(a + ":" + b + ":" + c)) == Invalid
  {
    assert a + ":" + b + ":" + c == a + [':'] + (b + [':'] + c);
    SplitOnSep(a, b + [':'] + c, ':');
    SplitOnSep(b, c, ':');
  }

  /** Integer texts outside the clock range are invalid. */
  lemma OutOfRangeInvalid(a: string, b: string)
    requires ':' !in a && ':' !in b
    requires ParseInt(a).Some? && ParseInt(b).Some?
    requires !IsClock(ParseInt(a).value, ParseInt(b).value)
    ensures ParseTime(Text(a + ":" + b)) == Invalid
  {
    SplitOnPair(a, b, ':');
  }

  lemma ParseSixText()
    ensures ParseInt("06") == Some(6)
  {
    assert IsDecimalLiteral("06");
    ParseIntOfLiteral("06");
    assert "06"[..1] == "0";
    assert DecimalValue("0") == 0 by {
      assert "0"[..0] == "";
    }
    assert DecimalValue("06") == DecimalValue("0") * 10 + DigitValue('6');
  }

  lemma ParseZeroText()
    ensures ParseInt("00") == Some(0)
  {
    assert IsDecimalLiteral("00");
    ParseIntOfLiteral("00");
    assert "00"[..1] == "0";
    assert DecimalValue("0") == 0 by {
      assert "0"[..0] == "";
    }
    assert DecimalValue("00") == DecimalValue("0") * 10 + DigitValue('0');
  }

  /** Two integer texts in the clock range around one colon read as that
      time of day. */
  lemma TimeOfPieces(a: string, b: string, hour: int, minute: int)
    requires ':' !in a && ':' !in b
    requires ParseInt(a) == Some(hour) && ParseInt(b) == Some(minute)
    requires IsClock(hour, minute)
    ensures ParseTime(Text(a + ":" + b)) == At(hour, minute)
  {
    SplitOnPair(a, b, ':');
    var parts := SplitOn(a + ":" + b, ':');
    assert parts[0] == a && parts[1] == b;
  }

  /** The default refresh time reads as six o'clock. */
  lemma DefaultTimeParses()
    ensures ParseTime(Text(DefaultColorTime)) == At(6, 0)
  {
    assert DefaultColorTime == "06" + ":" + "00";
    ParseSixText();
    ParseZeroText();
    TimeOfPieces("06", "00", 6, 0);
  }

  /** The job table after `_setup_jobs`, and the exception it raised. */
  datatype Setup = Setup(jobs: map<string, Job>, raised: Option<string>)

  function IntervalOf(config: map<string, Value>): Option<int> {
    IntervalSeconds(GetOr(config, "display_refresh_interval", Number(DefaultInterval)))
  }

  function TimeOf(config: map<string, Value>): TimeOfDay {
    ParseTime(GetOr(config, "color_display_refresh_time", Text(DefaultColorTime)))
  }

  /** `_setup_jobs` on the job table: the B&W job is (re)placed first, then
      the colour job when the configured time reads; an unreadable time is
      reported and skipped, a non-text time raises after the B&W job is in. */
  function Scheduled(jobs: map<string, Job>, config: map<string, Value>): (r: Setup)
    ensures IntervalOf(config).None? ==> r == Setup(jobs, Some("invalid display refresh interval"))
    ensures IntervalOf(config).Some? ==>
      BwJobId in r.jobs && r.jobs[BwJobId] == BwJob(IntervalOf(config).value)
    ensures r.raised.None? <==> IntervalOf(config).Some? && !TimeOf(config).NotText?
    ensures IntervalOf(config).Some? && TimeOf(config).At? ==>
      ColorJobId in r.jobs && r.jobs[ColorJobId] == ColorJob(TimeOf(config).hour, TimeOf(config).minute)
    ensures !(IntervalOf(config).Some? && TimeOf(config).At?) ==>
      && (ColorJobId in r.jobs <==> ColorJobId in jobs)
      && (ColorJobId in jobs ==> r.jobs[ColorJobId] == jobs[ColorJobId])
    ensures jobs.Keys <= r.jobs.Keys <= jobs.Keys + {BwJobId, ColorJobId}
    ensures forall id :: id in jobs && id != BwJobId && id != ColorJobId ==> r.jobs[id] == jobs[id]
    ensures Keyed(jobs) ==> Keyed(r.jobs)
  {
    match IntervalOf(config)
    case None => Setup(jobs, Some("invalid display refresh interval"))
    case Some(seconds) =>
      var withBw := AddJob(jobs, BwJob(seconds));
      assert BwJobId != ColorJobId by {
        assert BwJobId[0] != ColorJobId[0];
      }
      match TimeOf(config)
      case At(h, m) => Setup(AddJob(withBw, ColorJob(h, m)), None)
      case Invalid => Setup(withBw, None)
      case NotText => Setup(withBw, Some("color display refresh time is not text"))
  }

  /** Adding a job that is already in its slot changes nothing. */
  lemma AddJobPresent(jobs: map<string, Job>, job: Job)
    requires job.id in jobs && jobs[job.id] == job
    ensures AddJob(jobs, job) == jobs
  {
  }

  /** Running the setup twice with the same configuration is the same as
      running it once: replacing by id never duplicates a job. */
  lemma SetupIdempotent(jobs: map<string, Job>, config: map<string, Value>)
    ensures Scheduled(Scheduled(jobs, config).jobs, config).jobs == Scheduled(jobs, config).jobs
  {
    var once := Scheduled(jobs, config).jobs;
    match IntervalOf(config)
    case None =>
    case Some(seconds) =>
      AddJobPresent(once, BwJob(seconds));
      if TimeOf(config).At? {
        AddJobPresent(once, ColorJob(TimeOf(config).hour, TimeOf(config).minute));
      }
  }

  /** Without a configured interval the B&W job runs every 1800 seconds. */
  lemma DefaultIntervalApplies(jobs: map<string, Job>, config: map<string, Value>)
    requires "display_refresh_interval" !in config
    ensures BwJobId in Scheduled(jobs, config).jobs
    ensures Scheduled(jobs, config).jobs[BwJobId].trigger == Interval(1800)
  {
  }

  /** A colour time that does not read adds no colour job and raises
      nothing, while the B&W job is in place; a colour job from an earlier
      setup stays as it was. */
  lemma BadTimeSkipsColorJob(jobs: map<string, Job>, config: map<string, Value>)
    requires IntervalOf(config).Some? && TimeOf(config).Invalid?
    ensures Scheduled(jobs, config).raised.None?
    ensures BwJobId in Scheduled(jobs, config).jobs
    ensures ColorJobId in Scheduled(jobs, config).jobs <==> ColorJobId in jobs
    ensures ColorJobId in jobs ==> Scheduled(jobs, config).jobs[ColorJobId] == jobs[ColorJobId]
  {
  }

  /** Starting from an empty table with the default configuration gives
      exactly the two jobs: B&W every 30 minutes, colour daily at 06:00. */
  lemma DefaultSchedule(openWeatherKey: string, geminiKey: string, template: string)
    ensures var config := Merged(DefaultConfig(openWeatherKey, geminiKey, template), None);
      Scheduled(map[], config) ==
        Setup(map[BwJobId := BwJob(1800), ColorJobId := ColorJob(6, 0)], None)
  {
    DefaultConfigKeys(openWeatherKey, geminiKey, template);
    DefaultTimeParses();
  }

  /** What a refresh callback logs after the panel update: completion, or
      the failure with the exception's text.  The callback itself never
      raises. */
  function RefreshLog(panel: string, raised: Option<string>): (line: string)
    ensures raised.None? ==> line == panel + " display refresh completed"
    ensures raised.Some? ==>
      && |raised.value| <= |line|
      && line[..|line| - |raised.value|] == panel + " display refresh failed: "
      && line[|line| - |raised.value|..] == raised.value
  {
    match raised
    case None => panel + " display refresh completed"
    case Some(e) => panel + " display refresh failed: " + e
  }

  /** One job's entry in the status report. */
  datatype JobEntry = JobEntry(id: string, name: string, nextRun: Option<string>, trigger: Trigger)

  datatype JobStatus = JobStatus(running: bool, jobs: map<string, JobEntry>)

  class SchedulerService {
    const config: Config
    const display: Display
    var running: bool
    /** The scheduler's job store, by job id. */
    var jobs: map<string, Job>

    ghost predicate Valid()
      reads this
    {
      Keyed(jobs)
    }

    constructor(config: Config, display: Display)
      ensures this.config == config && this.display == display
      ensures !running && jobs == map[]
      ensures Valid()
    {
      this.config := config;
      this.display := display;
      running := false;
      jobs := map[];
    }

    /** `_setup_jobs` with the current configuration. */
    method SetupJobs() returns (raised: Option<string>)
      requires Valid()
      modifies this`jobs
      ensures Valid()
      ensures jobs == Scheduled(old(jobs), config.GetConfig()).jobs
      ensures raised == Scheduled(old(jobs), config.GetConfig()).raised
    {
      var cfg := config.GetConfig();
      var setup := Scheduled(jobs, cfg);
      jobs := setup.jobs;
      raised := setup.raised;
    }

    /** `start`: nothing happens when already running; otherwise the jobs
        are set up and the scheduler runs, unless the setup raised. */
    method Start() returns (raised: Option<string>)
      requires Valid()
      modifies this`jobs, this`running
      ensures Valid()
      ensures old(running) ==> running && jobs == old(jobs) && raised.None?
      ensures !old(running) ==>
        && jobs == Scheduled(old(jobs), config.GetConfig()).jobs
        && raised == Scheduled(old(jobs), config.GetConfig()).raised
        && (running <==> raised.None?)
    {
      raised := None;
      if !running {
        raised := SetupJobs();
        if raised.None? {
          running := true;
        }
      }
    }

    /** `stop`: afterwards the scheduler is not running; the job store is
        left as it was. */
    method Stop()
      requires Valid()
      modifies this`running
      ensures Valid()
      ensures !running
      ensures jobs == old(jobs)
    {
      if running {
        running := false;
      }
    }

    /** `update_schedule`: the setup is re-run only while running. */
    method UpdateSchedule() returns (raised: Option<string>)
      requires Valid()
      modifies this`jobs
      ensures Valid()
      ensures old(running) ==>
        jobs == Scheduled(old(jobs), config.GetConfig()).jobs &&
        raised == Scheduled(old(jobs), config.GetConfig()).raised
      ensures !old(running) ==> jobs == old(jobs) && raised.None?
    {
      raised := None;
      if running {
        raised := SetupJobs();
      }
    }

    /** `_refresh_bw_display`: update the B&W panel and log the outcome;
        a failure is logged, not raised. */
    method RefreshBwDisplay(fault: Option<string>, now: string) returns (log: string)
      modifies display
      ensures log == RefreshLog("B&W", Raised("B&W", fault))
      ensures display.bwStamp == (if fault.None? then Some(now) else old(display.bwStamp))
      ensures display.colorStamp == old(display.colorStamp)
      ensures display.colorPanel == old(display.colorPanel)
    {
      var raised := display.UpdateBwDisplay(fault, now);
      log := RefreshLog("B&W", raised);
    }

    /** `_refresh_color_display`, the colour counterpart. */
    method RefreshColorDisplay(fault: Option<string>, now: string) returns (log: string)
      modifies display
      ensures log == RefreshLog("Color", Raised("Color", fault))
      ensures display.colorStamp == (if fault.None? then Some(now) else old(display.colorStamp))
      ensures display.bwStamp == old(display.bwStamp)
      ensures display.colorPanel == old(display.colorPanel)
    {
      var raised := display.UpdateColorDisplay(fault, now);
      log := RefreshLog("Color", raised);
    }

    /** `get_job_status`: whether the scheduler runs, and one entry per
        job with its name, trigger and next run time, the latter absent
        when the scheduler has none for it (`nextRuns` holds the ISO
        texts of the times it has). */
    function GetJobStatus(nextRuns: map<string, string>): (s: JobStatus)
      reads this
      ensures s.running == running
      ensures s.jobs.Keys == jobs.Keys
      ensures forall id :: id in s.jobs ==>
        && s.jobs[id].id == jobs[id].id
        && s.jobs[id].name == jobs[id].name
        && s.jobs[id].trigger == jobs[id].trigger
        && (s.jobs[id].nextRun.Some? <==> id in nextRuns)
        && (id in nextRuns ==> s.jobs[id].nextRun == Some(nextRuns[id]))
    {
      JobStatus(running, map id | id in jobs ::
        JobEntry(jobs[id].id, jobs[id].name,
                 if id in nextRuns then Some(nextRuns[id]) else None, jobs[id].trigger))
    }
  }

  /** The status of a running scheduler set up from the defaults lists
      both jobs, each under its own id. */
  lemma StatusAfterDefaultSetup(s: SchedulerService, nextRuns: map<string, string>,
                                openWeatherKey: string, geminiKey: string, template: string)
    requires s.jobs == Scheduled(map[], Merged(DefaultConfig(openWeatherKey, geminiKey, template), None)).jobs
    ensures s.GetJobStatus(nextRuns).jobs.Keys == {BwJobId, ColorJobId}
    ensures s.GetJobStatus(nextRuns).jobs[BwJobId].name == "Refresh B&W Display"
    ensures s.GetJobStatus(nextRuns).jobs[ColorJobId].trigger == Cron(6, 0)
  {
    DefaultSchedule(openWeatherKey, geminiKey, template);
  }
}
