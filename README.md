# cdb_rrdtool — a Dafny model of the rrdtool database binding

This project models the class `cdb_rrdtool` of `HT3/sw/lib/db_rrdtool.py`. The class connects the
heating-system logger to round-robin databases (one rrdtool file per system part). It does not call
rrdtool itself. Instead it writes Perl scripts that use RRDTool::OO, runs them, and checks the
resulting files.

The model covers:

- **Configuration** (`RrdConfig`). An `rrdtool-db` block becomes the effective options. The enable
  text is upper-cased and compared with `ON` and `1`. The step is raised to at least 60 seconds. A
  start time outside [1344000000, 1999999999] is replaced by 1344000000. The last block wins. Without
  any block the defaults are disabled, 60 and 0.
- **Shortname maps** (`RrdConfig`, `DbRrdtool.CdbRrdtool.FillupMapping`). These are the two
  class-level dictionaries shared by every instance. `SharedMappings` models them as one shared
  object. Each maps a shortname to the part's name and to the part's database file
  `<fullpathname>_<name>.rrd`. A later part with the same shortname overwrites an earlier one.
- **Availability.** `isavailable` does a substring search for the basename in a directory listing
  and appends every hit to the instance's file list. `is_rrdtool_db_available` checks readability.
- **Update script** (`RrdScripts`, `DbRrdtool.CdbRrdtool.Update`). The script is a header, a handle
  block carrying the timestamp, one `name=>value` line per pair, and a trailer. It is run, and the
  result reports failure as `True`. Each script is a sequence of lines, and a decoder proves that
  the script carries exactly the timestamp and the pairs.
- **Create script** (`RrdScripts`, `DbRrdtool.CdbRrdtool.CreateDb`). The script holds:
  - one handle per part;
  - the start-time block;
  - per part, a `create(` heading with `start => $start_time - 600`;
  - one data source for each log item whose `datause` is GAUGE, COUNTER, DERIVE, ABSOLUTE or COMPUTE;
  - the four fixed archives.
- **Accessors** for the database name and the three options.

The file system, the exit status of the executed script and the clock are parameters:

- `readable` is the set of files `os.access` accepts.
- `listing` is the result of `os.listdir`. `None` means the call raised.
- `exitStatus` is the result of `os.system`.
- `now` is `int(time.time())`.

Mutable state follows the source. `CdbRrdtool` is a class whose `databasefiles`, `rrdfileh` and
`rrdtoolh` fields change. `ScriptFile` models an open script file as a sequence of lines that its
methods append to.

Where the code does something other than its names and messages suggest, the model follows the code:

- `os.access(f, os.W_OK and os.R_OK)` checks only readability, since `os.W_OK and os.R_OK` is
  `os.R_OK`. The model asks only whether a file is in `readable`.
- `is_rrdtool_db_available` builds filenames from `dbname` as configured (lines 394-398). The
  scripts use `fullpathname` (lines 128, 204, 305). `ReadableCount` applies `DbFileName` to `dbname`
  and the script writers apply it to `fullpathname`, which keeps the two apart.
- When a database is still missing after `createdb_rrdtool`, the method raises and catches its own
  error and only prints it (lines 287-292). `CreateDb` returns `NotCreated` and raises nothing.
- An empty batch passed to `update` fails in `values[0]` with an IndexError that `update` does not
  catch (lines 218 and 189). `Update` returns `IndexErrorRaised`.
- A failed update script is left on disk with two error lines appended (lines 174-183). Only a
  successful run removes it.
- A `step_seconds` or `timestamp` given to `createdb_rrdtool` is truncated with `int()` but not
  clamped (lines 240-248).
- A log-item name of more than 18 characters aborts an update after the earlier lines were written
  (line 221).

## Model

| member | source | states |
|---|---|---|
| Text.IntToStringRoundTrip | HT3/sw/lib/db_rrdtool.py:209 | a timestamp written into a script with `format` reads back as the same integer |
| Text.IntToStringInjective | HT3/sw/lib/db_rrdtool.py:177-179 | different status codes or timestamps are written as different text |
| Text.TruncToInt | HT3/sw/lib/db_rrdtool.py:158-161 | `int()` of a timestamp truncates toward zero for both signs: within one of the argument and never further from zero |
| RrdConfig.EnableFlag | HT3/sw/lib/db_rrdtool.py:102-106 | the enable flag is set exactly for the spellings `on`, `oN`, `On`, `ON` and `1` |
| RrdConfig.ClampStepSeconds | HT3/sw/lib/db_rrdtool.py:108-110 | the step is at least 60, equals the configured value when that is at least 60, and is 60 otherwise |
| RrdConfig.ClampStartTime | HT3/sw/lib/db_rrdtool.py:112-114 | the start time lies in [1344000000, 1999999999], is unchanged inside it and becomes 1344000000 outside it |
| RrdConfig.NormalizeBlock | HT3/sw/lib/db_rrdtool.py:101-114 | one block gives the decoded flag, a step of at least 60 that keeps a configured value of at least 60, and a start time in range; a step under 60 becomes 60, a configured start time in range is kept and one out of range becomes 1344000000 |
| RrdConfig.EffectiveOptions | HT3/sw/lib/db_rrdtool.py:101-114 | without a block the defaults of lines 72-74 stay; otherwise the last block alone decides, and the options always satisfy the bounds |
| RrdConfig.EffectiveOptionsValid | HT3/sw/lib/db_rrdtool.py:72-74 | the effective options always have a step of at least 60 and a start time of 0 (no block) or in range |
| RrdConfig.NormalizeIdempotent | HT3/sw/lib/db_rrdtool.py:108-114 | clamping the step and the start time a second time changes nothing |
| RrdConfig.ReadRrdOptions | HT3/sw/lib/db_rrdtool.py:101-114 | the loop over the `rrdtool-db` blocks yields the options of the last block, or the defaults without one |
| RrdConfig.DbFileName | HT3/sw/lib/db_rrdtool.py:128 | a part's file is the full path name, an underscore, the part name and `.rrd` |
| RrdConfig.DbFileNameInjective | HT3/sw/lib/db_rrdtool.py:128 | different part names get different database files |
| RrdConfig.SyspartNames | HT3/sw/lib/db_rrdtool.py:124-129 | the shortname-to-name map filled part by part; its keys are exactly the declared shortnames |
| RrdConfig.DbNameMapping | HT3/sw/lib/db_rrdtool.py:124-130 | the shortname-to-file map filled in the same loop; its keys are exactly the declared shortnames, and every file lies under the full path name |
| RrdConfig.LastIndexOf | HT3/sw/lib/db_rrdtool.py:124-130 | finds the last part carrying a shortname, or -1 when none does |
| RrdConfig.SyspartNamesLastWins | HT3/sw/lib/db_rrdtool.py:123-129 | a shortname is mapped iff some part carries it, and it maps to the name of the last such part |
| RrdConfig.MappingsAgree | HT3/sw/lib/db_rrdtool.py:123-130 | both shortname maps have the same keys, and each filename is the database file of the part name mapped under the same key |
| RrdConfig.OneAliasPerPart | HT3/sw/lib/db_rrdtool.py:124-129 | with distinct shortnames there is exactly one map entry per part |
| RrdConfig.DbAvailable | HT3/sw/lib/db_rrdtool.py:392-402 | the database counts as available iff the readable count is positive and equals the number of parts, counting the files named by the filename formula on `dbname` rather than `fullpathname` (line 396) |
| RrdConfig.ReadableCount | HT3/sw/lib/db_rrdtool.py:394-400 | the number of readable part files, each named by the filename formula on `dbname` rather than `fullpathname` (line 396), never exceeds the number of parts |
| RrdConfig.ReadableCountFull | HT3/sw/lib/db_rrdtool.py:398-402 | the readable count equals the part count iff every part file is readable |
| RrdConfig.MatchingEntries | HT3/sw/lib/db_rrdtool.py:146-149 | keeps exactly the listing entries that contain the basename, and no more than the listing has |
| RrdScripts.DbVariableLine | HT3/sw/lib/db_rrdtool.py:204-205 | the `$DB_<name>` line holds exactly the part's database file, read back between its affixes |
| RrdScripts.HandleLine | HT3/sw/lib/db_rrdtool.py:206 | the RRDTool::OO handle of a part opens the `$DB_` variable of that same part |
| RrdScripts.UpdateHandleLines | HT3/sw/lib/db_rrdtool.py:203-210 | six lines: the part's database file and handle read back from the first two, the part's name read back from the `$<name>_rrdh->update (` call line, and the timestamp read back as an integer from the time line |
| RrdScripts.ErrorLines | HT3/sw/lib/db_rrdtool.py:176-179 | the error banner and a comment line from which both the exit status and the timestamp read back as integers |
| RrdScripts.UpdatePreamble | HT3/sw/lib/db_rrdtool.py:194-210 | the header and handle block are twelve lines with the time line at index 10 |
| RrdScripts.ValueLines | HT3/sw/lib/db_rrdtool.py:220-222 | one `name=>value` line per pair, in order |
| RrdScripts.FirstLongName | HT3/sw/lib/db_rrdtool.py:220-221 | the index of the first log-item name longer than 18 characters, or the batch length when none is |
| RrdScripts.UpdateScriptRoundTrip | HT3/sw/lib/db_rrdtool.py:202-224 | decoding an update script gives back its timestamp and every pair, in order |
| RrdScripts.ValueLinesRoundTrip | HT3/sw/lib/db_rrdtool.py:220-222 | decoding the value lines gives back the pairs |
| RrdScripts.UpdateScriptLayout | HT3/sw/lib/db_rrdtool.py:194-224 | an update script is 14 lines longer than the batch, with the database-file line at index 6, the update call of the named part at index 9, the timestamp line at index 10, pair i at index 12+i and the closing two lines last |
| RrdScripts.CreateHandleLines | HT3/sw/lib/db_rrdtool.py:305-307 | two lines: the part's database file read back from the first, and a handle on that part's file variable |
| RrdScripts.StartTimeLines | HT3/sw/lib/db_rrdtool.py:320-335 | sixteen lines from which the start time and the step read back as integers at lines 2 and 3 |
| RrdScripts.HeadingLines | HT3/sw/lib/db_rrdtool.py:344-347 | the `create(` call on the part's handle, then the start line (600 seconds before the start time) and the step line |
| RrdScripts.DataSourceLines | HT3/sw/lib/db_rrdtool.py:372-375 | four lines that open and close a data source, with the name and the kind read back from the middle two |
| RrdScripts.SourceIndices | HT3/sw/lib/db_rrdtool.py:268-275 | the positions of the log items whose upper-cased `datause` is one of the five kinds, strictly increasing, and every such item's position among them |
| RrdScripts.LogItemSources | HT3/sw/lib/db_rrdtool.py:268-275 | every declared kind is one of the five, and every log item whose upper-cased `datause` is one of them is declared with its name and that kind |
| RrdScripts.LogItemSourcesInOrder | HT3/sw/lib/db_rrdtool.py:268-275 | one data source per accepted log item and no other: the k-th source is the name and upper-cased kind of the k-th accepted item, so the items' order is kept |
| RrdScripts.LogItemSourcesFromItems | HT3/sw/lib/db_rrdtool.py:268-275 | every declared data source is the name and upper-cased kind of some log item of the list with an accepted kind |
| RrdScripts.LogItemLinesRoundTrip | HT3/sw/lib/db_rrdtool.py:372-375 | decoding the data-source lines gives back the name and kind of every accepted log item |
| RrdScripts.DataSourceOpensOnce | HT3/sw/lib/db_rrdtool.py:372-375 | a data source opens with exactly one `data_source => {` line |
| RrdScripts.ArchiveTrailerRendersArchives | HT3/sw/lib/db_rrdtool.py:349-369 | the trailer written is the rendering of the four archives LAST/1051200/5, AVERAGE/525600/1, MAX/105120/5, MIN/105120/5, followed by `);` |
| RrdScripts.ArchiveLinesRoundTrip | HT3/sw/lib/db_rrdtool.py:349-368 | decoding rendered archive blocks gives back the archives |
| RrdScripts.ArchiveTrailerArchives | HT3/sw/lib/db_rrdtool.py:349-369 | the trailer decodes to exactly the four fixed archives and ends the call with `);` |
| RrdScripts.PartLinesStartOnce | HT3/sw/lib/db_rrdtool.py:343-347 | each part's block has exactly one `start => $start_time - 600` line |
| RrdScripts.CreateScriptStartLines | HT3/sw/lib/db_rrdtool.py:256-277 | the create script has one start line per system part |
| RrdScripts.LogItemLinesDataSources | HT3/sw/lib/db_rrdtool.py:268-275 | the number of data sources written equals the number of accepted log items |
| RrdScripts.PartLinesDataSources | HT3/sw/lib/db_rrdtool.py:263-277 | a part's block opens one data source per accepted log item and no other |
| DbRrdtool.ResolveInt | HT3/sw/lib/db_rrdtool.py:240-248 | an absent argument takes the configured value; a given one is truncated toward zero, within one of the argument |
| DbRrdtool.SharedMappings.constructor | HT3/sw/lib/db_rrdtool.py:66-67 | both class-level dictionaries start empty, with the same (empty) key set |
| DbRrdtool.CdbRrdtool.constructor | HT3/sw/lib/db_rrdtool.py:68-118 | stores the configuration and the effective options, starts with no database files and no open scripts, and extends the shared maps with every part |
| DbRrdtool.Open | HT3/sw/lib/db_rrdtool.py:86-88 | an empty database name is refused (NameError) and leaves the shared maps untouched; otherwise it gives a fresh, valid instance |
| DbRrdtool.CdbRrdtool.FillupMapping | HT3/sw/lib/db_rrdtool.py:123-130 | the shared maps become the old maps overridden by the shortname maps of this configuration, keeping the same keys |
| DbRrdtool.CdbRrdtool.Syspartnames | HT3/sw/lib/db_rrdtool.py:132-133 | returns exactly the shared shortname-to-name map, whose keys are those of the filename map |
| DbRrdtool.CdbRrdtool.DbFilenames | HT3/sw/lib/db_rrdtool.py:135-139 | without a key, the whole filename map; with a key in the map, exactly that key's filename; with a missing key, KeyError |
| DbRrdtool.CdbRrdtool.IsAvailable | HT3/sw/lib/db_rrdtool.py:142-151 | appends every listing entry containing the basename to the file list; true iff there was one |
| DbRrdtool.CdbRrdtool.IsRrdtoolDbAvailable | HT3/sw/lib/db_rrdtool.py:383-404 | with a name: true iff that file is readable; without one: true iff there is a part and every part file under `dbname` is readable |
| DbRrdtool.CdbRrdtool.DefineRrdUpdateFileheader | HT3/sw/lib/db_rrdtool.py:194-200 | appends the Perl header |
| DbRrdtool.CdbRrdtool.DefineRrdUpdateFilehandle | HT3/sw/lib/db_rrdtool.py:202-214 | appends the handle block with the part's database file and the timestamp |
| DbRrdtool.CdbRrdtool.DefineRrdUpdateDetails | HT3/sw/lib/db_rrdtool.py:216-229 | an empty batch writes nothing; a long name stops after the lines before it; otherwise all value lines and the trailer |
| DbRrdtool.CdbRrdtool.WriteUpdateScript | HT3/sw/lib/db_rrdtool.py:164-167 | the fresh script file ends up holding the preamble and the details outcome above |
| DbRrdtool.CdbRrdtool.Update | HT3/sw/lib/db_rrdtool.py:153-192 | no listing or no database gives `True` without running anything; an empty batch raises IndexError; a long name gives `True`; otherwise the whole script runs, a non-zero status appends the error lines and gives `True`, and success removes the script and gives `False` |
| DbRrdtool.CdbRrdtool.DefineRrdFileheader | HT3/sw/lib/db_rrdtool.py:294-301 | appends the Perl header and `my $rc = 0;`; the script file is not deleted |
| DbRrdtool.CdbRrdtool.DefineRrdFilehandle | HT3/sw/lib/db_rrdtool.py:303-311 | appends the part's database variable and RRDTool::OO handle; the script file is not deleted |
| DbRrdtool.CdbRrdtool.DefineRrdStarttime | HT3/sw/lib/db_rrdtool.py:313-339 | appends the start-time block with the given start time and step; the script file is not deleted |
| DbRrdtool.CdbRrdtool.DefineRrdDetails | HT3/sw/lib/db_rrdtool.py:341-381 | appends the heading, the archive trailer or one data source, according to the flags; the script file is not deleted |
| DbRrdtool.CdbRrdtool.WriteFilehandles | HT3/sw/lib/db_rrdtool.py:256-258 | appends one handle block per system part, in order; the script file is not deleted |
| DbRrdtool.CdbRrdtool.WriteLogItem | HT3/sw/lib/db_rrdtool.py:269-275 | appends a data source for a log item whose upper-cased `datause` is accepted, and nothing otherwise; the script file is not deleted |
| DbRrdtool.CdbRrdtool.WriteLogItems | HT3/sw/lib/db_rrdtool.py:268-275 | appends the data sources of the accepted log items of one part; the script file is not deleted |
| DbRrdtool.CdbRrdtool.WritePart | HT3/sw/lib/db_rrdtool.py:264-277 | appends one part's heading, its data sources and the archive trailer; the script file is not deleted |
| DbRrdtool.CdbRrdtool.WriteDetails | HT3/sw/lib/db_rrdtool.py:263-277 | appends heading, data sources and archive trailer for every part, in order; the script file is not deleted |
| DbRrdtool.CdbRrdtool.WriteCreateScript | HT3/sw/lib/db_rrdtool.py:251-278 | an empty script file ends up holding exactly the create script for these parts, start time and step, and is not deleted |
| DbRrdtool.CdbRrdtool.CreateDb | HT3/sw/lib/db_rrdtool.py:232-292 | an available database is left alone; without the Perl interface it raises; otherwise it writes the create script with the given or configured start and step, leaves it on disk, and reports Created or NotCreated from the files readable afterwards |
| DbRrdtool.CdbRrdtool.DbRrdtoolFilename | HT3/sw/lib/db_rrdtool.py:409-411 | the configured database name, never empty |
| DbRrdtool.CdbRrdtool.IsRrdtoolDbEnabled | HT3/sw/lib/db_rrdtool.py:413-414 | true iff there is an `rrdtool-db` block and the last one's flag is `ON` or `1` in any case |
| DbRrdtool.CdbRrdtool.DbRrdtoolStepseconds | HT3/sw/lib/db_rrdtool.py:416-417 | the step of the effective options read from the configured blocks: at least 60, and the last block's value when that is at least 60 |
| DbRrdtool.CdbRrdtool.DbRrdtoolStarttimeUtc | HT3/sw/lib/db_rrdtool.py:419-420 | the start time of the effective options read from the configured blocks: 0 iff no block was configured, otherwise inside the accepted range |

## Left out

- XML parsing is not modelled. The configuration arrives as a `Config` of system parts and
  `rrdtool-db` blocks. This leaves out several source errors:
  - the TypeError for a non-string file name;
  - a missing element failing with AttributeError;
  - a ValueError from `int()` on option text.
- `os.path` resolution is not modelled. `path`, `basename` and `fullpathname` are given in the
  `Config`.
- The temporary file name, `chmod`, flushing and closing of the script files are not modelled.
  Neither are write errors (EnvironmentError) inside the script builders. A script file is a
  sequence of lines, and "removed" is a flag.
- rrdtool itself and the Perl interpreter are not modelled. Running a script is reduced to its
  exit status and to the set of readable files afterwards.
- The messages printed on errors and the module's `__main__` block are not modelled.
- DbRrdtool.CdbRrdtool.Update: a value is taken as already formatted text, so Python's `str()` of
  arbitrary objects is not modelled. A batch that is not a list of tuples cannot be expressed in
  the typed model.
- Text.Upper: upper-casing is ASCII-only, while Python's `str.upper` is full Unicode.
- DbRrdtool.CdbRrdtool.DefineRrdStarttime: the `None` default that falls back to `time.time()` is
  not modelled. The only caller always passes a start time.
- RrdScripts.LogItemSources: a log item's `maxvalue` and `default` are read by the source but never
  written into the script, so the model does not carry them into the script.
- DbRrdtool.CdbRrdtool.IsAvailable takes a listing that exists. Its OSError for a missing directory
  is modelled only where it matters, in `Update`, as `listing == None`.
- DbRrdtool.CdbRrdtool.constructor requires a non-empty database name. `Open` models the NameError
  raised otherwise.
- The `EnvironmentError` handler of `is_rrdtool_db_available` is not modelled, because `os.access`
  does not raise.
- DbRrdtool.Open takes the Perl-interface flag as an argument. The default `PerlIF=True` of `__init__`
  (line 68) is left to the caller.
- DbRrdtool.CdbRrdtool.CreateDb ignores the exit status of the create script, as the source does.
- DbRrdtool.CdbRrdtool.Update and CreateDb take a given timestamp as a number (`Option<real>`) and
  truncate it with `TruncToInt`. Python's `int()` can also fail. NaN or text that is not a number
  raises ValueError, which `update` catches and turns into `True` (line 189); `createdb_rrdtool`
  catches only EnvironmentError and TypeError (line 290), so there it escapes. An infinity raises
  OverflowError, which escapes both. None of these failures is modelled.
- DbRrdtool.CdbRrdtool.Syspartnames and DbFilenames return the maps as values. The source returns
  the live class-level dicts (lines 133 and 139), so a caller that changes the returned dict
  changes the shared maps; that aliasing is not modelled.
- RrdScripts.UpdateScriptRoundTrip is stated for log-item names without `=`, because the decoder
  splits a value line at its first `=`. `UpdateScriptLayout` states the layout for every batch.
