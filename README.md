# paulander services, modelled in Dafny

paulander drives two e-paper panels from a Raspberry Pi. A colour panel shows a
daily AI-generated picture, and a black-and-white panel shows weather and
calendar text. This project models the logic of the six service modules
behind those panels:

- **Translations.** The German translation tables for OpenWeatherMap
  condition texts and interface labels, and their two case- and
  whitespace-insensitive lookups (`WeatherTranslations`).
- **Display service.** The greedy word wrapper, the refresh of one or both
  panels with its success flag and messages, the last-refresh stamps, and
  the status report (`DisplayService`).
- **Weather service.** The API-key check and the failure fallbacks; the
  forecast loop that groups three-hourly items into days and keeps the
  first `days` of them; the daily summary (temperature range and the most
  frequent condition, ties to the first seen); and the one-line summary for
  the image prompt (`WeatherService`).
- **Calendar service.** The credential check of the CalDAV client, and the
  lazily cached client and calendar. Also the per-event reading, the
  upcoming filter (start strictly after now), the stable sort by start
  (start-less events first in today's list), the date-time normalisation
  and the all-day test (`CalendarService`).
- **Config service.** The defaults, the merge with the stored file, the
  update and `get` with a default (`ConfigService`).
- **Scheduler service.** The running flag, the job table keyed by id where
  adding replaces, the `"HH:MM"` parsing of the colour refresh time, the
  refresh callbacks that never raise, and the job status report
  (`Scheduler`).

Some modules model the Python built-ins the services rely on:

- `PyText`: `lower`, `strip`, `split`, `join`, `title`, `replace`, `int()`
  and `str(int)`.
- `Sequences`: grouping a list into maximal runs, and a filtering map.
- `StableSort`: `list.sort(key=...)`, as insertion sort, proved sorted, a
  permutation and stable.
- `Wrappers`: `Option` and `Result`.

The model follows each module's own form:

- Objects whose fields change become classes: `Display`, `Config`,
  `Calendar` and `SchedulerService`.
- Loops that build lists become methods with loop invariants, each proved
  equal to a function that specifies it: `WrapText`, `ProcessDailyForecast`,
  `GroupForecast`, `CollectUpcoming` and `CollectToday`.
- Lookups and calculations become functions, with lemmas about them.

Exceptions are modelled as `Result`/`Option` values. Each input from outside
is a parameter:

- an HTTP response, the error the request raised, or a response the service
  cannot read (`Fetch`);
- the CalDAV calendars and search results;
- the fault a panel update raises;
- `datetime.now()`;
- `datetime.fromisoformat`;
- the contents of files.

## Model

| member | source | states |
|---|---|---|
| WeatherTranslations.Lookup | src/services/weather_translations.py:133-137 | a dict lookup finds a value only from an entry with that key, and finds nothing exactly when no entry has the key |
| WeatherTranslations.LookupUnique | src/services/weather_translations.py:133-137 | a key whose entries all carry one translation finds that translation |
| WeatherTranslations.ScanMatchesLookup | src/services/weather_translations.py:139-142 | over a table with lower-case keys, the fallback scan comparing `key.lower()` finds exactly what the direct lookup finds |
| WeatherTranslations.MatchKeyOfTrimmed | src/services/weather_translations.py:133 | the match key of a text whose lower-cased form has no surrounding whitespace is that lower-cased form |
| WeatherTranslations.SettledIntro | src/services/weather_translations.py:7-100 | per-entry checks (lower-case keys, non-empty trimmed translations that are no key or map to themselves) make a table settled: a translation looked up again misses or finds itself |
| WeatherTranslations.DescriptionInKnown | src/services/weather_translations.py:129-137 | a non-empty description whose lowered, stripped form is a key translates to a value stored under that key |
| WeatherTranslations.DescriptionInUnknown | src/services/weather_translations.py:129-145 | an empty description, or one whose key is absent, is returned verbatim (not lowered, not stripped) |
| WeatherTranslations.DescriptionInIdempotent | src/services/weather_translations.py:123-145 | over a settled table, translating a description twice gives the same as once |
| WeatherTranslations.LabelInKnown | src/services/weather_translations.py:153-161 | a non-empty label whose key is in the table translates to that key's value |
| WeatherTranslations.LabelInUnknown | src/services/weather_translations.py:153-164 | an empty label or a miss comes back verbatim |
| WeatherTranslations.LabelInIdempotent | src/services/weather_translations.py:147-164 | over a settled table, label translation is idempotent |
| WeatherTranslations.WeatherKeysChecked | src/services/weather_translations.py:7-100 | every key of `WEATHER_TRANSLATIONS` is lower case and is no translation's lower-cased form |
| WeatherTranslations.WeatherValuesChecked | src/services/weather_translations.py:7-100 | every translation is non-empty and trimmed once lowered; it is not a key, unless it is one of "Sand" and "Tornado" |
| WeatherTranslations.WeatherFixedPoints | src/services/weather_translations.py:7-100 | the keys "sand" and "tornado" map to "Sand" and "Tornado" |
| WeatherTranslations.WeatherFixedLowered | src/services/weather_translations.py:7-100 | "Sand" and "Tornado" lower-case to the keys "sand" and "tornado" |
| WeatherTranslations.WeatherFixedStored | src/services/weather_translations.py:7-100 | looking up "sand" and "tornado" gives "Sand" and "Tornado" |
| WeatherTranslations.WeatherTableSettled | src/services/weather_translations.py:7-100 | the weather table has lower-case keys and is settled |
| WeatherTranslations.WeatherScanUnreachable | src/services/weather_translations.py:136-142 | for the weather table the scan loop never finds anything the direct lookup missed |
| WeatherTranslations.TranslateWeatherKnown | src/services/weather_translations.py:129-137 | a hit in `WEATHER_TRANSLATIONS` returns that table's value for the lowered, stripped key |
| WeatherTranslations.TranslateWeatherCaseInsensitive | src/services/weather_translations.py:133-137 | two descriptions that differ only in case or surrounding whitespace and hit the table translate identically |
| WeatherTranslations.TranslateWeatherUnknown | src/services/weather_translations.py:129-130 | empty input or a miss returns the input unchanged |
| WeatherTranslations.TranslateWeatherIdempotent | src/services/weather_translations.py:123-145 | translating a translated description changes nothing more |
| WeatherTranslations.UiFixedLowered | src/services/weather_translations.py:103-121 | "Wind" lower-cases to the key "wind" |
| WeatherTranslations.UiFixedStored | src/services/weather_translations.py:103-121 | looking up "wind" in `UI_TRANSLATIONS` gives "Wind" |
| WeatherTranslations.UiTableSettled | src/services/weather_translations.py:103-121 | every interface translation, looked up again, misses or finds itself |
| WeatherTranslations.TranslateUiKnown | src/services/weather_translations.py:157-161 | a hit returns the value that `UI_TRANSLATIONS` stores under the key |
| WeatherTranslations.TranslateUiUnknown | src/services/weather_translations.py:153-154 | empty input or a miss in `UI_TRANSLATIONS` returns the input unchanged, whatever the weather table holds |
| WeatherTranslations.TranslateUiIdempotent | src/services/weather_translations.py:147-164 | translating a translated label changes nothing more |
| DisplayService.Lines | src/services/display_service.py:361 | one line per word group, its words joined by single spaces |
| DisplayService.PackGood | src/services/display_service.py:354-374 | greedy packing emits only non-empty groups of words, and a group of two or more words passed the width test |
| DisplayService.PackConcat | src/services/display_service.py:354-377 | packing keeps the words in order, dropping and repeating none |
| DisplayService.WordsOfLines | src/services/display_service.py:376-379 | splitting the emitted lines again gives back the packed words |
| DisplayService.WrapText | src/services/display_service.py:348-379 | the loop returns exactly the lines of the greedy packing of `text.split()` under the font's measure (`getsize`, or 10 per character without it) |
| DisplayService.WrapGroupsGood | src/services/display_service.py:350-377 | the wrapped groups are good, concatenate to `text.split()`, and exist whenever there is a word |
| DisplayService.WrapKeepsWords | src/services/display_service.py:350-377 | the words of the output lines, in order, are exactly `text.split()` |
| DisplayService.WrapLineShape | src/services/display_service.py:355-374 | every line is non-empty; a line that fails the width test is a single word |
| DisplayService.WrapBlank | src/services/display_service.py:350-379 | the result is empty exactly when the text is empty or all whitespace |
| DisplayService.LastRefreshTime | src/services/display_service.py:104-113 | "Never" without a readable stamp file, otherwise a trimmed slice of its content with only whitespace before and after it, and the content itself when already trimmed |
| PyText.StripInside | src/services/display_service.py:110 | what `strip()` keeps is a slice of the text with only whitespace before and after it |
| PyText.StripUnique | src/services/display_service.py:110 | the slice `strip()` keeps is unique: any trimmed slice with only whitespace on either side is `Strip` of the text |
| DisplayService.Display.constructor | src/services/display_service.py:72-90 | the colour panel is present exactly when its driver was found |
| DisplayService.Display.UpdateColorDisplay | src/services/display_service.py:146-170 | on success the colour stamp becomes now; a fault is re-raised as "Color display update failed: …" with the stamp kept; the B&W stamp is untouched |
| DisplayService.Display.UpdateBwDisplay | src/services/display_service.py:172-187 | the B&W counterpart, prefix "B&W display update failed: " |
| DisplayService.Display.RefreshDisplay | src/services/display_service.py:124-144 | success iff no requested update raised; one message per requested panel, colour before B&W; a panel that was not requested is untouched; an unknown type gives success and no messages |
| DisplayService.Display.GetStatus | src/services/display_service.py:92-102 | colour "active" when its driver is present and "unavailable" otherwise, B&W always "active", both last-refresh times from the stamps |
| WeatherService.Request | src/services/weather_service.py:22-34 | a body only with a non-empty API key and a successful, readable response; otherwise the key error, the request error with its prefix, or the unprefixed KeyError/IndexError text of a body the caller cannot read |
| WeatherService.GetCurrentWeather | src/services/weather_service.py:36-69 | on success location, country, temperature, feels-like, humidity, title-cased description, main and icon of the response and no error; on any failure location "Unknown", zero readings, "Weather data unavailable", the error text, and no country, main or icon |
| WeatherService.CountAbsent | src/services/weather_service.py:128-130 | a condition no item carries is counted zero times |
| WeatherService.FirstIndex | src/services/weather_service.py:135-138 | the index of the first item with a condition, or the length when none has it |
| WeatherService.LeaderUnique | src/services/weather_service.py:132 | at most one item carries the day's leading condition at its first appearance |
| WeatherService.LeaderIsFirst | src/services/weather_service.py:132-138 | the leading item is the first item with its condition |
| WeatherService.BestFromLeader | src/services/weather_service.py:132 | the reference scan (strictly greater count replaces) ends on the leader |
| WeatherService.LeaderIndexLeads | src/services/weather_service.py:132 | every non-empty day has a leader: no condition more frequent, every earlier condition strictly less frequent |
| WeatherService.MinOf | src/services/weather_service.py:141 | a member of the list no greater than any member |
| WeatherService.MaxOf | src/services/weather_service.py:142 | a member of the list no smaller than any member |
| WeatherService.SummaryMeaning | src/services/weather_service.py:124-147 | a day's summary has `temp_min <= temp_max`, both attained and bounding every temperature, and main, icon and title-cased description of the leading item |
| WeatherService.TallyEntry | src/services/weather_service.py:127-130 | after the counting loop every condition of the day is in the count dict, with its true count, in first-appearance order |
| WeatherService.TallyLeader | src/services/weather_service.py:132-138 | the first maximal entry in key order is the day's leading condition, at its first item |
| WeatherService.MaxKey | src/services/weather_service.py:132 | `max(counts, key=counts.get)`: an entry with the greatest count, every earlier entry strictly smaller (ties to the first key) |
| WeatherService.FirstWith | src/services/weather_service.py:135-138 | the condition of the first item with the given main, or the first item's condition |
| WeatherService.ProcessDailyForecast | src/services/weather_service.py:118-149 | nothing for an empty day; otherwise exactly the day's summary (range and leading condition) |
| WeatherService.DateKey | src/services/weather_service.py:84 | the date key is a prefix of `dt_txt` without a space |
| WeatherService.ForecastsAt | src/services/weather_service.py:89-91 | each forecast is dated by its run's first item and summarizes that run |
| WeatherService.CloseDay | src/services/weather_service.py:87-91 | closing a day appends that day's forecast to the forecasts of the days closed before |
| WeatherService.GroupForecast | src/services/weather_service.py:79-102 | the loop returns one forecast per maximal run of same-date items, in order |
| WeatherService.GetForecast | src/services/weather_service.py:71-116 | the city and the first `days` grouped forecasts, or location "Unknown", no forecasts and the error |
| WeatherService.ForecastDays | src/services/weather_service.py:83-107 | the reported list is a prefix of the grouped list, at most `days` long; every item of a run has its forecast's date; neighbouring dates differ |
| WeatherService.WeatherSummaryForAi | src/services/weather_service.py:151-167 | the current line, then ". " and today's line when the forecast has a day |
| Sequences.Runs | src/services/weather_service.py:83-102 | the runs concatenate to the items, are non-empty, share one key each, and neighbouring runs have different keys |
| Sequences.FilterMapMembers | src/services/calendar_service.py:96-118 | an entry is kept exactly when the step accepts some input that yields it |
| Sequences.FilterMapAppend | src/services/calendar_service.py:96-118 | the filtering loop over two pieces is the loop over each, concatenated |
| StableSort.SortByKeySpec | src/services/calendar_service.py:121 | `list.sort(key=...)` gives a list sorted by key, a permutation of the input, and for each key the same order as before |
| CalendarService.Localized | src/services/calendar_service.py:132-134 | a naive datetime gets UTC with its wall time kept; an aware one is unchanged |
| CalendarService.IsoText | src/services/calendar_service.py:139 | the text handed to `fromisoformat` contains no 'Z' and is the input when it had none |
| CalendarService.ParseDatetime | src/services/calendar_service.py:129-146 | aware datetimes unchanged, naive ones as UTC, strings through `fromisoformat` after the 'Z' rewrite, keeping their wall time and their own offset or UTC when naive (None when it fails), anything else None; every result is aware |
| CalendarService.UpcomingEntry | src/services/calendar_service.py:97-110 | an event is read unless it has no VEVENT or a present property has no value; title ("No Title" when missing), id, start and end as parsed, location and description (none when missing) and all-day, as the dictionary builds them |
| CalendarService.TodayEntry | src/services/calendar_service.py:174-181 | skipped exactly when there is no VEVENT or a summary, start or location without a value; otherwise the title ("No Title" when missing), the parsed start, the location (none when missing) and the all-day flag |
| CalendarService.AllDayHasNoStart | src/services/calendar_service.py:148-152 | for a start that is not text, the event is all-day iff the start is present and parses to nothing |
| CalendarService.AcceptUpcoming | src/services/calendar_service.py:113-114 | an event is appended iff it was read and has a start strictly after now |
| CalendarService.CollectUpcoming | src/services/calendar_service.py:94-118 | the loop appends exactly the accepted events, in search order |
| CalendarService.UpcomingEventsSorted | src/services/calendar_service.py:113-121 | the upcoming list is ascending by start, and every entry has a start after now |
| CalendarService.UpcomingExactly | src/services/calendar_service.py:96-121 | an event is listed exactly when some search result reads as it and starts after now |
| CalendarService.UpcomingSkipsUnreadable | src/services/calendar_service.py:116-118 | an event that fails to be read is skipped and nothing else changes |
| CalendarService.AllDayNeverUpcoming | src/services/calendar_service.py:105-113 | an event dated by a date value, not a datetime, never counts as upcoming |
| CalendarService.CollectToday | src/services/calendar_service.py:171-186 | the loop appends every event that reads, in search order |
| CalendarService.TodayEventsSorted | src/services/calendar_service.py:189 | today's list is ascending by start with start-less events keyed as `datetime.min`; they precede every later start, and equal keys keep search order |
| CalendarService.TodayExactly | src/services/calendar_service.py:173-189 | an event is listed exactly when some search result reads as it |
| CalendarService.TodaySkipsUnreadable | src/services/calendar_service.py:185-186 | an unreadable event is skipped and nothing else changes |
| CalendarService.Calendar.constructor | src/services/calendar_service.py:8-11 | no client and no calendar cached yet |
| CalendarService.Calendar.Credential | src/services/calendar_service.py:15-18 | a truthy argument is used, otherwise the configured value |
| CalendarService.Calendar.GetClient | src/services/calendar_service.py:13-32 | fails with "Apple ID and App Password are required" iff a credential is still falsy; otherwise a client for the iCloud CalDAV URL with those credentials |
| CalendarService.Calendar.GetCalendar | src/services/calendar_service.py:60-75 | the cached calendar, else the first listed calendar, now cached; fails when no client can be made, the listing fails or no calendar exists |
| CalendarService.Calendar.GetUpcomingEvents | src/services/calendar_service.py:77-127 | `[]` on any failure before or during the search, otherwise the filtered, sorted upcoming list; the client and calendar are cached as `_get_calendar` leaves them, even when the search then fails |
| CalendarService.Calendar.GetTodayEvents | src/services/calendar_service.py:154-195 | `[]` on any failure, otherwise today's sorted list; the client and calendar are cached as `_get_calendar` leaves them |
| ConfigService.DefaultConfigKeys | src/services/config_service.py:8-29 | the default keys exactly; no refresh interval; colour time "06:00"; empty Apple ID and password |
| ConfigService.Merged | src/services/config_service.py:31-43 | every default key is present; stored keys override and extra stored keys are kept; without a usable file exactly the defaults |
| ConfigService.GetOr | src/services/config_service.py:56 | the merged value, and the default only when the key is absent |
| ConfigService.MergeOfMerged | src/services/config_service.py:45-51 | what `update_config` writes is what the next `get_config` reads |
| ConfigService.DefaultArgumentUnused | src/services/config_service.py:53-56 | the default argument has no effect when the key is present |
| ConfigService.Config.constructor | src/services/config_service.py:6-29 | the defaults carry the two API keys from the environment |
| ConfigService.Config.GetConfig | src/services/config_service.py:31-43 | the merge of the defaults with the stored file, holding every default key |
| ConfigService.Config.UpdateConfig | src/services/config_service.py:45-51 | the file holds the previous merged config overridden by the new one; keys not mentioned keep their value |
| ConfigService.Config.Get | src/services/config_service.py:53-56 | `get(key, default)` on the merged config |
| PyText.SplitJoin | src/services/display_service.py:350-361 | joining words with single spaces and splitting again gives the words back |
| PyText.SplitOnJoin | src/services/scheduler.py:47 | joining the pieces of `split(':')` with ':' gives the text back |
| PyText.SplitOnSep | src/services/scheduler.py:47 | splitting around a separator splits the two sides separately |
| PyText.ParseIntOfIntToString | src/services/scheduler.py:47 | `int(str(i)) == i` |
| Scheduler.AddJob | src/services/scheduler.py:37-43 | replace-on-add: the job takes its id's slot, every other job stays, and jobs stay stored under their own ids |
| Scheduler.IntervalSeconds | src/services/scheduler.py:36-39 | an integer interval is taken as given; a value that is neither integer nor boolean is a TypeError |
| Scheduler.ParseTime | src/services/scheduler.py:46-57 | a non-text time is the uncaught error; a time that reads is always a valid clock time |
| Scheduler.TimeRoundTrip | src/services/scheduler.py:46-55 | "H:M" written from a valid hour and minute reads back as that time |
| Scheduler.ParsedTimeShape | src/services/scheduler.py:47 | a time that reads is two integer texts for its hour and minute around a single colon |
| Scheduler.NoColonIsInvalid | src/services/scheduler.py:46-57 | a time without a colon is skipped, not raised |
| Scheduler.ManyColonsInvalid | src/services/scheduler.py:46-57 | a time with two or more colons is skipped |
| Scheduler.OutOfRangeInvalid | src/services/scheduler.py:48-57 | integers outside 0-23 / 0-59 are the cron trigger's ValueError, so the colour job is skipped |
| Scheduler.DefaultTimeParses | src/services/scheduler.py:46 | the default "06:00" reads as six o'clock |
| Scheduler.Scheduled | src/services/scheduler.py:30-57 | a bad interval raises with the table unchanged; otherwise the B&W job is in place; the colour job is added when the time reads, and otherwise the colour slot is left exactly as it was; only a non-text time raises; other jobs are untouched and ids stay keyed |
| Scheduler.SetupIdempotent | src/services/scheduler.py:37-55 | setting up twice with the same configuration equals once: no job is duplicated |
| Scheduler.DefaultIntervalApplies | src/services/scheduler.py:36 | without a configured interval the B&W job runs every 1800 seconds |
| Scheduler.BadTimeSkipsColorJob | src/services/scheduler.py:44-57 | a time that does not read adds no colour job and raises nothing; the B&W job is registered; an earlier colour job stays as it was |
| Scheduler.DefaultSchedule | src/services/scheduler.py:30-57 | from the default configuration the table is exactly B&W every 1800 s and colour daily at 06:00 |
| Scheduler.RefreshLog | src/services/scheduler.py:64-80 | without a fault the line is "<panel> display refresh completed"; with one it is "<panel> display refresh failed: " followed by the exception's text |
| Scheduler.SchedulerService.constructor | src/services/scheduler.py:9-13 | not running, no jobs |
| Scheduler.SchedulerService.SetupJobs | src/services/scheduler.py:30-62 | the job table becomes the setup's table for the current configuration, and its error is returned |
| Scheduler.SchedulerService.Start | src/services/scheduler.py:15-21 | no-op when running; otherwise jobs are set up and running becomes true unless the setup raised |
| Scheduler.SchedulerService.Stop | src/services/scheduler.py:23-28 | afterwards not running (a no-op when already stopped); jobs unchanged, so the keyed-by-id invariant is kept |
| Scheduler.SchedulerService.UpdateSchedule | src/services/scheduler.py:82-86 | the setup is re-run only while running |
| Scheduler.SchedulerService.RefreshBwDisplay | src/services/scheduler.py:64-71 | updates the B&W panel and logs completion or the failure; never raises |
| Scheduler.SchedulerService.RefreshColorDisplay | src/services/scheduler.py:73-80 | the colour counterpart |
| Scheduler.SchedulerService.GetJobStatus | src/services/scheduler.py:88-103 | the running flag and one entry per job with its id, name and trigger, `next_run` absent exactly when there is no next run time and otherwise that time's ISO text |
| Scheduler.StatusAfterDefaultSetup | src/services/scheduler.py:88-103 | for any environment keys and prompt template, after the default setup the status lists both jobs under their ids |

## Left out

- Dithering, ESP32 frame packing, I2C transfer and a data/send timing gate
  appear in callers only. `display_service.py` has no such code, so they
  are not part of this model.
- Flask routes, start-up code, GPIO/SPI access and the hardware test script
  are not modelled.
- Driver detection at import time is not modelled. The colour panel's
  presence is a constructor argument.
- The EPD calls and image saving are not modelled, and neither is image
  generation. This covers `generate_daily_image`,
  `_create_fallback_color_image`, `create_bw_display_image`, PIL drawing
  and fonts. A panel update is modelled as an optional fault.
- The font measure is an abstract function. Without `getsize` it is
  10 per character.
- Network clients are inputs: OpenWeather HTTP, the CalDAV principal and
  search, and Gemini.
- The search window (`days_ahead`, start and end of day) belongs to the
  server's search. Its result is the input list.
- `test_connection` is not modelled.
- The exception `DAVClient` may raise while constructing a client is not
  modelled.
- File I/O is modelled by values:
  - a stamp file or config file is its content, or `None` when it is missing
    or cannot be opened;
  - a config file that is not valid UTF-8 is not modelled: the source's
    UnicodeDecodeError is not caught and escapes `get_config`;
  - bad JSON becomes `None`;
  - JSON that is not an object is not modelled: for `null`, a number or a
    string the source's `update` raises out of `get_config`, and a list of
    pairs is merged key by key; the model's file content is an object;
  - a write error in `update_config` is not modelled;
  - a failed stamp write in `_set_last_refresh_time` is not modelled: the
    model always sets the stamp to `now` after a successful update, where
    the source swallows the error and leaves the old file, or an empty
    file when `open` succeeded and `write` failed;
  - JSON indentation is not modelled.
- `print` output is left out. This covers the "Scheduled jobs" listing, the
  invalid-time message and the time-stamped "Refreshing …" lines. The
  callbacks return their completion or failure line instead.
- Floating point is left out:
  - the daily averages (temperature, humidity, wind), and the current
    pressure, wind speed and visibility, are not modelled;
  - temperatures are the integers `round()` gives.
- `get_current_weather`'s `wind_direction`, `uv_index` (always `None`)
  and `timestamp` (`data['dt']`) fields are not modelled; the model's
  current report carries location, country, temperature, feels-like,
  humidity, description, main and icon only.
- Dict order of the merged configuration is not modelled. The configuration
  is a map.
- The two translators take text only: the falsy `None` they return
  unchanged is not modelled, since their signatures declare `str`.
- `Lower` and `Title` map case for ASCII letters only, and `ParseInt`
  accepts ASCII digits only, where `int()` takes any Unicode decimal digit.
  `WeatherTranslations` and `Scheduler.ParseTime` inherit this.
- `fromisoformat` is a parameter. Date-times are integers counting from
  `datetime.min`.
- APScheduler internals are left out:
  - the background thread, trigger arithmetic and next-run computation are
    not modelled; next run times are a parameter of the status report;
  - `str(job.trigger)` is the `Trigger` value itself;
  - the order `get_jobs()` lists jobs in is not modelled; the status is a map
    keyed by id.
- Scheduler.IntervalSeconds: does not model floats, nor APScheduler's
  replacement of a zero interval by one second, nor the OverflowError
  `timedelta` raises beyond 999999999 days, because all three are library
  behaviour outside the service.
