/** JobConfigurationService: the job_configuration table, keyed by job
 *  name, whose cron schedules are picked from named presets or given as a
 *  custom six-field cron expression. */
module JobConfiguration {
  import opened Common
  import opened Calendar

  // ---------------------------------------------------------------- cron text

  /** The characters of the regular expression class `\s`. */
  predicate IsSpace(c: char)
  {
    c == ' ' || c == '\t' || c == '\n' || c == '\U{000B}' || c == '\U{000C}' || c == '\r'
  }

  /** The leading run of non-space characters. */
  function Word(s: string): (r: string)
    ensures r <= s
    ensures forall i :: 0 <= i < |r| ==> !IsSpace(r[i])
    ensures |r| < |s| ==> IsSpace(s[|r|])
  {
    if s == [] || IsSpace(s[0]) then [] else [s[0]] + Word(s[1..])
  }

  /** The fields of a text split at runs of `\s` characters. On a trimmed
   *  text this is `split("\\s+")`: the text neither starts nor ends with a
   *  separator, so no empty field arises. */
  function Words(s: string): (r: seq<string>)
    ensures forall k :: 0 <= k < |r| ==> r[k] != [] && forall i :: 0 <= i < |r[k]| ==> !IsSpace(r[k][i])
    decreases |s|
  {
    if s == [] then []
    else if IsSpace(s[0]) then Words(s[1..])
    else var w := Word(s); [w] + Words(s[|w|..])
  }

  lemma WordOf(w: string, t: string)
    requires forall i :: 0 <= i < |w| ==> !IsSpace(w[i])
    requires t == [] || IsSpace(t[0])
    ensures Word(w + t) == w
  {
    if w != [] {
      assert (w + t)[1..] == w[1..] + t;
      WordOf(w[1..], t);
    }
  }

  /** isValidCronExpression: present, not blank, and exactly six fields
   *  once trimmed. */
  predicate IsValidCron(cron: Option<string>)
  {
    cron.Some? && Trim(cron.value) != [] && |Words(Trim(cron.value))| == 6
  }

  /** A non-empty field free of white space and control characters. */
  predicate Solid(w: string)
  {
    w != [] && forall i :: 0 <= i < |w| ==> w[i] > ' '
  }

  /** A cron expression written out from its six fields. */
  function Fields6(a: string, b: string, c: string, d: string, e: string, f: string): string
  {
    a + " " + (b + " " + (c + " " + (d + " " + (e + " " + f))))
  }

  /** A field followed by a space and more text splits off as the first
   *  word. */
  lemma WordsCons(w: string, rest: string)
    requires Solid(w)
    ensures Words(w + " " + rest) == [w] + Words(rest)
  {
    var s := w + " " + rest;
    assert s == w + (" " + rest);
    WordOf(w, " " + rest);
    assert s[|w|..] == " " + rest;
    assert (" " + rest)[1..] == rest;
  }

  /** A single field is one word. */
  lemma WordsOne(w: string)
    requires Solid(w)
    ensures Words(w) == [w]
  {
    WordOf(w, []);
    assert w + [] == w;
    assert w[|w|..] == [];
  }

  /** A text that starts and ends with a printable character is its own
   *  trim. */
  lemma TrimOfSolidEnds(s: string)
    requires s != [] && s[0] > ' ' && s[|s| - 1] > ' '
    ensures Trim(s) == s
  {
    assert TrimStart(s) == s;
  }

  /** A field put in front of a text with a space adds one word, and that
   *  word comes first. */
  lemma WordsPrepend(w: string, rest: string, n: nat)
    requires Solid(w) && |Words(rest)| == n
    ensures |Words(w + " " + rest)| == n + 1 && Words(w + " " + rest)[0] == w
  {
    WordsCons(w, rest);
  }

  /** Two texts joined by a space start as the first and end as the second. */
  lemma JoinEnds(x: string, y: string)
    requires x != [] && y != []
    ensures var s := x + " " + y; s != [] && s[0] == x[0] && s[|s| - 1] == y[|y| - 1]
  {
  }

  /** Six fields free of white space, joined by single spaces, make a valid
   *  cron expression whose first word is the first field. */
  lemma SixFieldCron(a: string, b: string, c: string, d: string, e: string, f: string)
    requires Solid(a) && Solid(b) && Solid(c) && Solid(d) && Solid(e) && Solid(f)
    ensures |Words(Fields6(a, b, c, d, e, f))| == 6 && Words(Fields6(a, b, c, d, e, f))[0] == a
    ensures IsValidCron(Some(Fields6(a, b, c, d, e, f)))
  {
    var s4 := e + " " + f;
    var s3 := d + " " + s4;
    var s2 := c + " " + s3;
    var s1 := b + " " + s2;
    var s := a + " " + s1;
    WordsOne(f);
    WordsPrepend(e, f, 1);
    WordsPrepend(d, s4, 2);
    WordsPrepend(c, s3, 3);
    WordsPrepend(b, s2, 4);
    WordsPrepend(a, s1, 5);
    JoinEnds(e, f);
    JoinEnds(d, s4);
    JoinEnds(c, s3);
    JoinEnds(b, s2);
    JoinEnds(a, s1);
    TrimOfSolidEnds(s);
  }

  // ---------------------------------------------------------------- presets

  /** SCHEDULE_PRESETS, as a lookup; each expression is written out from
   *  its six fields ("0 0 6 * * *" and so on). */
  function PresetCron(name: string): Option<string>
  {
    match name
    case "DAILY_6AM" => Some(Fields6("0", "0", "6", "*", "*", "*"))
    case "DAILY_MIDNIGHT" => Some(Fields6("0", "0", "0", "*", "*", "*"))
    case "HOURLY" => Some(Fields6("0", "0", "*", "*", "*", "*"))
    case "EVERY_30_MINUTES" => Some(Fields6("0", "*/30", "*", "*", "*", "*"))
    case "EVERY_15_MINUTES" => Some(Fields6("0", "*/15", "*", "*", "*", "*"))
    case "EVERY_5_MINUTES" => Some(Fields6("0", "*/5", "*", "*", "*", "*"))
    case "EVERY_MINUTE" => Some(Fields6("0", "*", "*", "*", "*", "*"))
    case "WEEKLY_SUNDAY_6AM" => Some(Fields6("0", "0", "6", "*", "*", "SUN"))
    case _ => None
  }

  const PresetNames: set<string> := {"DAILY_6AM", "DAILY_MIDNIGHT", "HOURLY", "EVERY_30_MINUTES", "EVERY_15_MINUTES",
                                     "EVERY_5_MINUTES", "EVERY_MINUTE", "WEEKLY_SUNDAY_6AM"}

  /** getPresetDescription. */
  function PresetDescription(preset: string): string
  {
    match preset
    case "DAILY_6AM" => "Daily at 6:00 AM"
    case "DAILY_MIDNIGHT" => "Daily at midnight (12:00 AM)"
    case "HOURLY" => "Every hour at the top of the hour"
    case "EVERY_30_MINUTES" => "Every 30 minutes"
    case "EVERY_15_MINUTES" => "Every 15 minutes"
    case "EVERY_5_MINUTES" => "Every 5 minutes"
    case "EVERY_MINUTE" => "Every minute"
    case "WEEKLY_SUNDAY_6AM" => "Weekly on Sunday at 6:00 AM"
    case _ => "Custom schedule"
  }

  /** The presets are exactly the eight names, and each has its own
   *  description; any other name is described as a custom schedule. */
  lemma PresetDescriptionsCover(name: string)
    ensures PresetCron(name).Some? <==> name in PresetNames
    ensures PresetCron(name).Some? <==> PresetDescription(name) != "Custom schedule"
  {
  }

  /** The same, for every name at once. */
  lemma PresetNamesCover()
    ensures forall name :: PresetCron(name).Some? <==> name in PresetNames
    ensures forall name :: PresetCron(name).Some? <==> PresetDescription(name) != "Custom schedule"
  {
    forall name
      ensures PresetCron(name).Some? <==> name in PresetNames
      ensures PresetCron(name).Some? <==> PresetDescription(name) != "Custom schedule"
    {
      PresetDescriptionsCover(name);
    }
  }

  /** Every preset's cron expression is valid. */
  lemma PresetsAreValid(name: string)
    requires PresetCron(name).Some?
    ensures IsValidCron(PresetCron(name))
  {
    match name
    case "DAILY_6AM" => SixFieldCron("0", "0", "6", "*", "*", "*");
    case "DAILY_MIDNIGHT" => SixFieldCron("0", "0", "0", "*", "*", "*");
    case "HOURLY" => SixFieldCron("0", "0", "*", "*", "*", "*");
    case "EVERY_30_MINUTES" => SixFieldCron("0", "*/30", "*", "*", "*", "*");
    case "EVERY_15_MINUTES" => SixFieldCron("0", "*/15", "*", "*", "*", "*");
    case "EVERY_5_MINUTES" => SixFieldCron("0", "*/5", "*", "*", "*", "*");
    case "EVERY_MINUTE" => SixFieldCron("0", "*", "*", "*", "*", "*");
    case "WEEKLY_SUNDAY_6AM" => SixFieldCron("0", "0", "6", "*", "*", "SUN");
  }

  /** The preset listing getSchedulePresets returns: every preset with its
   *  cron and description, and the custom option. */
  datatype PresetEntry = PresetEntry(name: string, cronExpression: string, description: string)

  /** The listing's custom option: a name and a description, no expression. */
  datatype CustomOption = CustomOption(name: string, description: string)

  function SchedulePresets(): (r: (set<PresetEntry>, CustomOption))
    ensures forall e :: e in r.0 ==>
              PresetCron(e.name) == Some(e.cronExpression) && e.description == PresetDescription(e.name)
    ensures forall e :: e in r.0 ==> e.description != "Custom schedule"
    ensures forall name :: PresetCron(name).Some? ==>
              PresetEntry(name, PresetCron(name).value, PresetDescription(name)) in r.0
    ensures r.1 == CustomOption("CUSTOM", "Use custom cron expression")
  {
    PresetNamesCover();
    (set name | name in PresetNames :: PresetEntry(name, PresetCron(name).value, PresetDescription(name)),
     CustomOption("CUSTOM", "Use custom cron expression"))
  }

  /** The cron expression and the preset name a request stands for: a
   *  custom expression under CUSTOM, or a known preset's expression; none
   *  otherwise (an unknown or missing preset, or CUSTOM without an
   *  expression). */
  function Resolve(preset: Option<string>, customCron: Option<string>): (r: Option<(string, string)>)
    ensures r.Some? <==> (preset == Some("CUSTOM") && customCron.Some?) || (preset.Some? && PresetCron(preset.value).Some?)
    ensures r.Some? && preset == Some("CUSTOM") && customCron.Some? ==> r.value == (customCron.value, "CUSTOM")
    ensures r.Some? && preset != Some("CUSTOM") ==> r.value == (PresetCron(preset.value).value, preset.value)
  {
    if preset == Some("CUSTOM") && customCron.Some? then Some((customCron.value, "CUSTOM"))
    else if preset.Some? && PresetCron(preset.value).Some? then Some((PresetCron(preset.value).value, preset.value))
    else None
  }

  // ---------------------------------------------------------------- the table

  datatype JobConfig = JobConfig(
    description: Option<string>,
    cronExpression: string,
    scheduleType: string,
    schedulePreset: string,
    enabled: bool,
    createdBy: Option<string>,
    updatedBy: Option<string>,
    createdAt: Instant,
    updatedAt: Instant)

  type JobTable = map<string, JobConfig>

  /** updateJobSchedule: false with nothing written for an unresolvable
   *  request or an unknown job; otherwise the job's schedule, flag and
   *  audit columns are set. The custom expression is not validated. */
  function UpdateJobSchedule(t: JobTable, jobName: string, preset: Option<string>, customCron: Option<string>,
                             enabled: bool, updatedBy: Option<string>, now: Instant): (r: (bool, JobTable))
    ensures r.0 <==> Resolve(preset, customCron).Some? && jobName in t
    ensures !r.0 ==> r.1 == t
    ensures r.0 ==> r.1.Keys == t.Keys
                    && (forall other :: other in t && other != jobName ==> r.1[other] == t[other])
                    && var c := Resolve(preset, customCron).value;
                       r.1[jobName] == t[jobName].(cronExpression := c.0, schedulePreset := c.1, enabled := enabled,
                                                   updatedBy := updatedBy, updatedAt := now)
  {
    var resolved := Resolve(preset, customCron);
    if resolved.None? || jobName !in t then (false, t)
    else
      var (cron, actual) := resolved.value;
      (true, t[jobName := t[jobName].(cronExpression := cron, schedulePreset := actual, enabled := enabled,
                                       updatedBy := updatedBy, updatedAt := now)])
  }

  /** Whether createOrUpdate accepts the schedule: it resolves, and a custom
   *  expression is a valid cron. */
  predicate Accepts(preset: Option<string>, customCron: Option<string>)
  {
    Resolve(preset, customCron).Some? && !(preset == Some("CUSTOM") && customCron.Some? && !IsValidCron(customCron))
  }

  /** The row the upsert leaves: a new job gets schedule type CRON and its
   *  creation columns; an existing one keeps those and has its
   *  description, schedule, flag and updated columns replaced. */
  function Upserted(t: JobTable, jobName: string, description: Option<string>, cron: string, actual: string,
                    enabled: bool, author: Option<string>, now: Instant): (r: JobConfig)
    ensures r.description == description && r.cronExpression == cron && r.schedulePreset == actual
            && r.enabled == enabled && r.updatedBy == author && r.updatedAt == now
    ensures jobName in t ==> r.createdAt == t[jobName].createdAt && r.createdBy == t[jobName].createdBy
                             && r.scheduleType == t[jobName].scheduleType
    ensures jobName !in t ==> r.createdAt == now && r.createdBy == author && r.scheduleType == "CRON"
  {
    if jobName in t then
      t[jobName].(description := description, cronExpression := cron, schedulePreset := actual, enabled := enabled,
                  updatedBy := author, updatedAt := now)
    else JobConfig(description, cron, "CRON", actual, enabled, author, author, now, now)
  }

  /** createOrUpdateJobConfiguration: a custom expression must be a valid
   *  cron; a refused request writes nothing; an accepted one upserts the
   *  job by name. */
  function CreateOrUpdate(t: JobTable, jobName: string, description: Option<string>, preset: Option<string>,
                          customCron: Option<string>, enabled: bool, createdBy: Option<string>, now: Instant)
    : (r: (bool, JobTable))
    ensures r.0 <==> Accepts(preset, customCron)
    ensures !r.0 ==> r.1 == t
    ensures r.0 ==> var c := Resolve(preset, customCron).value;
                    r.1 == t[jobName := Upserted(t, jobName, description, c.0, c.1, enabled, createdBy, now)]
  {
    if preset == Some("CUSTOM") && customCron.Some? && !IsValidCron(customCron) then (false, t)
    else
      var resolved := Resolve(preset, customCron);
      if resolved.None? then (false, t)
      else (true, t[jobName := Upserted(t, jobName, description, resolved.value.0, resolved.value.1, enabled,
                                        createdBy, now)])
  }

  /** Every expression createOrUpdate writes is a valid cron: a custom one
   *  was checked, a preset's is valid by construction. */
  lemma CreateWritesValidCron(t: JobTable, jobName: string, description: Option<string>, preset: Option<string>,
                              customCron: Option<string>, enabled: bool, createdBy: Option<string>, now: Instant)
    requires CreateOrUpdate(t, jobName, description, preset, customCron, enabled, createdBy, now).0
    ensures IsValidCron(Some(CreateOrUpdate(t, jobName, description, preset, customCron, enabled, createdBy, now)
                               .1[jobName].cronExpression))
  {
    if !(preset == Some("CUSTOM") && customCron.Some?) {
      PresetsAreValid(preset.value);
    }
  }

  /** A single word is not a valid cron. */
  lemma OneWordInvalid(w: string)
    requires Solid(w)
    ensures !IsValidCron(Some(w))
  {
    TrimOfSolidEnds(w);
    WordsOne(w);
  }

  /** The update path does not check a custom expression: any text is
   *  stored, a one-field one included. */
  lemma UpdateStoresInvalidCron(t: JobTable, jobName: string, enabled: bool, updatedBy: Option<string>, now: Instant)
    requires jobName in t
    ensures var r := UpdateJobSchedule(t, jobName, Some("CUSTOM"), Some("nightly"), enabled, updatedBy, now);
            r.0 && r.1[jobName].cronExpression == "nightly" && !IsValidCron(Some("nightly"))
  {
    OneWordInvalid("nightly");
  }

  /** Running createOrUpdate twice with the same request changes nothing the
   *  second time. */
  lemma CreateOrUpdateIdempotent(t: JobTable, jobName: string, description: Option<string>, preset: Option<string>,
                                 customCron: Option<string>, enabled: bool, createdBy: Option<string>, now: Instant)
    ensures var t1 := CreateOrUpdate(t, jobName, description, preset, customCron, enabled, createdBy, now).1;
            CreateOrUpdate(t1, jobName, description, preset, customCron, enabled, createdBy, now).1 == t1
  {
  }

  // ---------------------------------------------------------------- the service

  class Service {
    var jobs: JobTable

    constructor(t: JobTable)
      ensures jobs == t
    {
      jobs := t;
    }

    method UpdateSchedule(jobName: string, preset: Option<string>, customCron: Option<string>, enabled: bool,
                          updatedBy: Option<string>, now: Instant) returns (updated: bool)
      modifies this
      ensures (updated, jobs) == UpdateJobSchedule(old(jobs), jobName, preset, customCron, enabled, updatedBy, now)
    {
      var resolved := Resolve(preset, customCron);
      if resolved.None? || jobName !in jobs {
        return false;
      }
      var (cron, actual) := resolved.value;
      jobs := jobs[jobName := jobs[jobName].(cronExpression := cron, schedulePreset := actual, enabled := enabled,
                                              updatedBy := updatedBy, updatedAt := now)];
      updated := true;
    }

    method CreateOrUpdateJob(jobName: string, description: Option<string>, preset: Option<string>,
                             customCron: Option<string>, enabled: bool, createdBy: Option<string>, now: Instant)
      returns (written: bool)
      modifies this
      ensures (written, jobs) == CreateOrUpdate(old(jobs), jobName, description, preset, customCron, enabled,
                                                createdBy, now)
    {
      if preset == Some("CUSTOM") && customCron.Some? && !IsValidCron(customCron) {
        return false;
      }
      var resolved := Resolve(preset, customCron);
      if resolved.None? {
        return false;
      }
      var (cron, actual) := resolved.value;
      if jobName in jobs {
        jobs := jobs[jobName := jobs[jobName].(description := description, cronExpression := cron,
                                                schedulePreset := actual, enabled := enabled,
                                                updatedBy := createdBy, updatedAt := now)];
      } else {
        jobs := jobs[jobName := JobConfig(description, cron, "CRON", actual, enabled, createdBy, createdBy, now, now)];
      }
      written := true;
    }
  }
}
