/**
  The class `cdb_rrdtool`: one object per configuration, holding the database
  name, the systemparts and the effective options, a list of database files
  found so far, and the handles of the two scripts it writes. The class-level
  dictionaries are a separate object shared by every instance.

  What the object asks of the outside world is passed in: the directory
  listing of the database directory, the set of readable paths before and
  after the create script runs, the exit status of the update script and the
  current time.
*/
module DbRrdtool {
  import opened Wrappers
  import opened Seqs
  import opened Text
  import opened RrdConfig
  import opened RrdScripts

  /** A script file on disk: the lines written so far, and whether it was deleted. */
  class ScriptFile {
    var lines: seq<string>
    var removed: bool

    constructor ()
      ensures lines == [] && !removed
    {
      lines := [];
      removed := false;
    }

    method Write(chunk: seq<string>)
      modifies this
      ensures lines == old(lines) + chunk
      ensures removed == old(removed)
    {
      lines := lines + chunk;
    }

    method Remove()
      modifies this
      ensures removed
      ensures lines == old(lines)
    {
      removed := true;
    }
  }

  /** The class-level dictionaries `shortname -> syspartname` and `shortname -> filename`. */
  class SharedMappings {
    var syspartnames: map<string, string>
    var dbnameMapping: map<string, string>

    ghost predicate Valid()
      reads this
    {
      syspartnames.Keys == dbnameMapping.Keys
    }

    constructor ()
      ensures Valid()
      ensures syspartnames == map[] && dbnameMapping == map[]
    {
      syspartnames := map[];
      dbnameMapping := map[];
    }
  }

  /** The configuration after XML parsing and path resolution. */
  datatype Config = Config(
    dbname: string,
    path: string,
    basename: string,
    fullpathname: string,
    systemparts: seq<SystemPart>,
    rrdBlocks: seq<RrdBlock>)

  /** `update` returns its error flag (true = failure) or lets an IndexError escape. */
  datatype UpdateOutcome = Returned(error: bool) | IndexErrorRaised

  /** How `createdb_rrdtool` ends; it returns nothing in every case but PerlInterfaceMissing, which raises. */
  datatype CreateOutcome = AlreadyCreated | PerlInterfaceMissing | Created | NotCreated

  /** How `__define_rrd_update_details` ends. */
  datatype DetailsOutcome = DetailsWritten | EmptyValues | NameTooLong(index: nat)

  /** The answer of `dbfilenames`: the whole map, one filename, or a KeyError. */
  datatype FilenameLookup = AllFilenames(filenames: map<string, string>) | Filename(filename: string) | KeyError

  /** `int(x)` of an optional argument, or the fallback when it is None. */
  function ResolveInt(given: Option<real>, fallback: int): (r: int)
    ensures given.None? ==> r == fallback
    ensures given.Some? && 0.0 <= given.value ==> 0 <= r && r as real <= given.value < r as real + 1.0
    ensures given.Some? && given.value < 0.0 ==> r <= 0 && r as real - 1.0 < given.value <= r as real
  {
    match given
    case None => fallback
    case Some(x) => TruncToInt(x)
  }

  /** `isavailable` finds a file iff some entry of the listing contains the basename. */
  ghost predicate ListingHasDatabase(listing: seq<string>, basename: string) {
    exists e :: e in listing && ContainsSubstring(e, basename)
  }

  class CdbRrdtool {
    const dbname: string
    const path: string
    const basename: string
    const fullpathname: string
    const systemparts: seq<SystemPart>
    const rrdBlocks: seq<RrdBlock>
    const perlIF: bool
    const rrdtoolEnable: bool
    const rrdtoolStepseconds: int
    const rrdtoolStarttimeUtc: int
    const shared: SharedMappings
    var databasefiles: seq<string>
    var rrdfileh: ScriptFile?
    var rrdtoolh: ScriptFile?

    ghost predicate Valid() {
      && |dbname| > 0
      && Options(rrdtoolEnable, rrdtoolStepseconds, rrdtoolStarttimeUtc) == EffectiveOptions(rrdBlocks)
    }

    /** The constructor once the database name is known to be non-empty (Open checks that). */
    constructor (cfg: Config, perlIF: bool, shared: SharedMappings)
      requires |cfg.dbname| > 0
      requires shared.Valid()
      modifies shared
      ensures Valid()
      ensures dbname == cfg.dbname && path == cfg.path && basename == cfg.basename
      ensures fullpathname == cfg.fullpathname && systemparts == cfg.systemparts && rrdBlocks == cfg.rrdBlocks
      ensures this.perlIF == perlIF && this.shared == shared
      ensures databasefiles == [] && rrdfileh == null && rrdtoolh == null
      ensures shared.Valid()
      ensures shared.syspartnames == old(shared.syspartnames) + SyspartNames(cfg.systemparts)
      ensures shared.dbnameMapping == old(shared.dbnameMapping) + DbNameMapping(cfg.fullpathname, cfg.systemparts)
    {
      dbname := cfg.dbname;
      path := cfg.path;
      basename := cfg.basename;
      fullpathname := cfg.fullpathname;
      systemparts := cfg.systemparts;
      rrdBlocks := cfg.rrdBlocks;
      this.perlIF := perlIF;
      this.shared := shared;
      var options := ReadRrdOptions(cfg.rrdBlocks);
      rrdtoolEnable := options.enable;
      rrdtoolStepseconds := options.stepSeconds;
      rrdtoolStarttimeUtc := options.starttimeUtc;
      databasefiles := [];
      rrdfileh := null;
      rrdtoolh := null;
      new;
      FillupMapping();
    }

    /** `__fillup_mapping`: adds every systempart to both shared maps, in order. */
    method FillupMapping()
      requires shared.Valid()
      modifies shared
      ensures shared.Valid()
      ensures shared.syspartnames == old(shared.syspartnames) + SyspartNames(systemparts)
      ensures shared.dbnameMapping == old(shared.dbnameMapping) + DbNameMapping(fullpathname, systemparts)
    {
      ghost var names0, files0 := shared.syspartnames, shared.dbnameMapping;
      var i := 0;
      while i < |systemparts|
        invariant 0 <= i <= |systemparts|
        invariant shared.Valid()
        invariant shared.syspartnames == names0 + SyspartNames(systemparts[..i])
        invariant shared.dbnameMapping == files0 + DbNameMapping(fullpathname, systemparts[..i])
      {
        var sp := systemparts[i];
        var filename := fullpathname + "_" + sp.name + ".rrd";
        MappingsSnoc(fullpathname, systemparts, i);
        UnionUpdate(names0, SyspartNames(systemparts[..i]), sp.shortname, sp.name);
        UnionUpdate(files0, DbNameMapping(fullpathname, systemparts[..i]), sp.shortname, filename);
        shared.syspartnames := shared.syspartnames[sp.shortname := sp.name];
        shared.dbnameMapping := shared.dbnameMapping[sp.shortname := filename];
        i := i + 1;
      }
      assert systemparts[..i] == systemparts;
    }

    /** `syspartnames()`: the shared shortname map, whose keys are those of the filename map. */
    function Syspartnames(): (names: map<string, string>)
      requires shared.Valid()
      reads shared
      ensures names == shared.syspartnames
      ensures names.Keys == shared.dbnameMapping.Keys
    {
      shared.syspartnames
    }

    /** `dbfilenames(syspartname=None)`: the whole filename map, one entry, or a KeyError. */
    function DbFilenames(shortname: Option<string>): (r: FilenameLookup)
      reads shared
      ensures shortname.None? ==> r == AllFilenames(shared.dbnameMapping)
      ensures shortname.Some? ==> (r.KeyError? <==> shortname.value !in shared.dbnameMapping)
      ensures r.Filename? ==> shortname.Some? && r.filename == shared.dbnameMapping[shortname.value]
      ensures shortname.Some? && shortname.value in shared.dbnameMapping ==>
                r == Filename(shared.dbnameMapping[shortname.value])
    {
      match shortname
      case None => AllFilenames(shared.dbnameMapping)
      case Some(k) => if k in shared.dbnameMapping then Filename(shared.dbnameMapping[k]) else KeyError
    }

    /**
      `isavailable`: scans the listing, remembering every entry that contains
      the basename. `listing` stands for `os.listdir(path)`.
    */
    method IsAvailable(listing: seq<string>) returns (found: bool)
      modifies this`databasefiles
      ensures databasefiles == old(databasefiles) + MatchingEntries(listing, basename)
      ensures found <==> ListingHasDatabase(listing, basename)
    {
      var filefound := 0;
      var i := 0;
      while i < |listing|
        invariant 0 <= i <= |listing|
        invariant databasefiles == old(databasefiles) + MatchingEntries(listing[..i], basename)
        invariant filefound == |MatchingEntries(listing[..i], basename)|
      {
        var content := listing[i];
        assert listing[..i + 1][..i] == listing[..i];
        if ContainsSubstring(content, basename) {
          AppendAssociative(old(databasefiles), MatchingEntries(listing[..i], basename), [content]);
          databasefiles := databasefiles + [content];
          filefound := filefound + 1;
        }
        i := i + 1;
      }
      assert listing[..i] == listing;
      found := filefound != 0;
      var matching := MatchingEntries(listing, basename);
      if found {
        assert matching[0] in matching;
      }
    }

    /**
      `is_rrdtool_db_available(dbname="")`: a given name is checked alone; without one,
      every systempart's file must be readable and there must be at least one.
    */
    method IsRrdtoolDbAvailable(name: string, readable: set<string>) returns (available: bool)
      ensures |name| > 0 ==> (available <==> name in readable)
      ensures |name| == 0 ==> (available <==> DbAvailable(dbname, systemparts, readable))
    {
      available := false;
      if |name| > 0 {
        if name in readable {
          available := true;
        }
      } else {
        var syspartcount := 0;
        var dbfilescount := 0;
        while syspartcount < |systemparts|
          invariant 0 <= syspartcount <= |systemparts|
          invariant dbfilescount == ReadableCount(dbname, systemparts[..syspartcount], readable)
        {
          var filename := dbname + "_" + systemparts[syspartcount].name + ".rrd";
          assert systemparts[..syspartcount + 1][..syspartcount] == systemparts[..syspartcount];
          if filename in readable {
            dbfilescount := dbfilescount + 1;
          }
          syspartcount := syspartcount + 1;
        }
        assert systemparts[..syspartcount] == systemparts;
        ReadableCountFull(dbname, systemparts, readable);
        if dbfilescount > 0 && dbfilescount == syspartcount {
          available := true;
        }
      }
    }

    /** `__define_rrd_update_fileheader`. */
    method DefineRrdUpdateFileheader()
      requires rrdfileh != null
      modifies rrdfileh
      ensures rrdfileh.lines == old(rrdfileh.lines) + PerlHeader
      ensures rrdfileh.removed == old(rrdfileh.removed)
    {
      var chunk := PerlHeader;
      rrdfileh.Write(chunk);
    }

    /** `__define_rrd_update_filehandle`. */
    method DefineRrdUpdateFilehandle(syspartname: string, timestamp: int)
      requires rrdfileh != null
      modifies rrdfileh
      ensures rrdfileh.lines == old(rrdfileh.lines) + UpdateHandleLines(fullpathname, syspartname, timestamp)
      ensures rrdfileh.removed == old(rrdfileh.removed)
    {
      var chunk := UpdateHandleLines(fullpathname, syspartname, timestamp);
      rrdfileh.Write(chunk);
    }

    /**
      `__define_rrd_update_details`: an empty batch fails before anything is
      written; otherwise one line per pair until a name longer than 18
      characters stops it, and the closing lines when every name fits.
    */
    method DefineRrdUpdateDetails(syspartname: string, values: seq<(string, string)>) returns (d: DetailsOutcome)
      requires rrdfileh != null
      modifies rrdfileh
      ensures rrdfileh.removed == old(rrdfileh.removed)
      ensures values == [] ==> d == EmptyValues && rrdfileh.lines == old(rrdfileh.lines)
      ensures values != [] && FirstLongName(values) < |values| ==>
                d == NameTooLong(FirstLongName(values))
                && rrdfileh.lines == old(rrdfileh.lines) + ValueLines(values[..FirstLongName(values)])
      ensures values != [] && FirstLongName(values) == |values| ==>
                d == DetailsWritten && rrdfileh.lines == old(rrdfileh.lines) + ValueLines(values) + UpdateTrailer
    {
      if |values| == 0 {
        return EmptyValues;
      }
      var i := 0;
      while i < |values|
        invariant 0 <= i <= FirstLongName(values)
        invariant rrdfileh.lines == old(rrdfileh.lines) + ValueLines(values[..i])
        invariant rrdfileh.removed == old(rrdfileh.removed)
      {
        var (logitem, value) := values[i];
        if |logitem| > 18 {
          return NameTooLong(i);
        }
        assert values[..i + 1][..i] == values[..i];
        var chunk := [ValueLine(logitem, value)];
        AppendAssociative(old(rrdfileh.lines), ValueLines(values[..i]), chunk);
        rrdfileh.Write(chunk);
        i := i + 1;
      }
      assert values[..i] == values;
      var chunk := UpdateTrailer;
      AppendAssociative(old(rrdfileh.lines), ValueLines(values), chunk);
      rrdfileh.Write(chunk);
      d := DetailsWritten;
    }

    /** The script-writing part of `update`, into a fresh file. */
    method WriteUpdateScript(syspartname: string, timestamp: int, values: seq<(string, string)>)
      returns (d: DetailsOutcome)
      requires rrdfileh != null && rrdfileh.lines == [] && !rrdfileh.removed
      modifies rrdfileh
      ensures !rrdfileh.removed
      ensures values == [] ==> d == EmptyValues && rrdfileh.lines == UpdatePreamble(fullpathname, syspartname, timestamp)
      ensures values != [] && FirstLongName(values) < |values| ==>
                d == NameTooLong(FirstLongName(values))
                && rrdfileh.lines == UpdatePreamble(fullpathname, syspartname, timestamp)
                                     + ValueLines(values[..FirstLongName(values)])
      ensures values != [] && FirstLongName(values) == |values| ==>
                d == DetailsWritten && rrdfileh.lines == UpdateScript(fullpathname, syspartname, timestamp, values)
    {
      DefineRrdUpdateFileheader();
      DefineRrdUpdateFilehandle(syspartname, timestamp);
      ghost var preamble := UpdatePreamble(fullpathname, syspartname, timestamp);
      assert rrdfileh.lines == preamble;
      d := DefineRrdUpdateDetails(syspartname, values);
    }

    /**
      `update`: writes the script for one batch and runs it (its exit status is
      `exitStatus`). True means failure; an empty batch raises IndexError.
    */
    method Update(syspartname: string, values: seq<(string, string)>, timestamp: Option<real>, now: int,
                  listing: Option<seq<string>>, exitStatus: int)
      returns (outcome: UpdateOutcome, executed: bool)
      modifies this`databasefiles, this`rrdfileh
      ensures listing.None? ==> outcome == Returned(true) && !executed && unchanged(this)
      ensures listing.Some? ==> databasefiles == old(databasefiles) + MatchingEntries(listing.value, basename)
      ensures listing.Some? && !ListingHasDatabase(listing.value, basename) ==>
                outcome == Returned(true) && !executed && rrdfileh == old(rrdfileh)
      ensures listing.Some? && ListingHasDatabase(listing.value, basename) ==>
                var ts := ResolveInt(timestamp, now);
                var k := FirstLongName(values);
                && rrdfileh != null && fresh(rrdfileh)
                && (values == [] ==>
                      outcome == IndexErrorRaised && !executed
                      && rrdfileh.lines == UpdatePreamble(fullpathname, syspartname, ts) && !rrdfileh.removed)
                && (values != [] && k < |values| ==>
                      outcome == Returned(true) && !executed
                      && rrdfileh.lines == UpdatePreamble(fullpathname, syspartname, ts) + ValueLines(values[..k])
                      && !rrdfileh.removed)
                && (values != [] && k == |values| ==>
                      executed
                      && outcome == Returned(exitStatus != 0)
                      && rrdfileh.lines == UpdateScript(fullpathname, syspartname, ts, values)
                                           + (if exitStatus != 0 then ErrorLines(exitStatus, syspartname, ts) else [])
                      && rrdfileh.removed == (exitStatus == 0))
    {
      executed := false;
      if listing.None? {
        return Returned(true), false;
      }
      var found := IsAvailable(listing.value);
      if !found {
        return Returned(true), false;
      }
      var itimestamp := ResolveInt(timestamp, now);
      var file := new ScriptFile();
      rrdfileh := file;
      var d := WriteUpdateScript(syspartname, itimestamp, values);
      match d
      case EmptyValues =>
        outcome := IndexErrorRaised;
      case NameTooLong(_) =>
        outcome := Returned(true);
      case DetailsWritten =>
        executed := true;
        if exitStatus != 0 {
          var chunk := ErrorLines(exitStatus, syspartname, itimestamp);
          file.Write(chunk);
          outcome := Returned(true);
        } else {
          file.Remove();
          outcome := Returned(false);
        }
    }

    /** `__define_rrd_fileheader`. */
    method DefineRrdFileheader()
      requires rrdtoolh != null
      modifies rrdtoolh
      ensures rrdtoolh.lines == old(rrdtoolh.lines) + CreateHeader
      ensures rrdtoolh.removed == old(rrdtoolh.removed)
    {
      var chunk := CreateHeader;
      rrdtoolh.Write(chunk);
    }

    /** `__define_rrd_filehandle`. */
    method DefineRrdFilehandle(syspartname: string)
      requires rrdtoolh != null
      modifies rrdtoolh
      ensures rrdtoolh.lines == old(rrdtoolh.lines) + CreateHandleLines(fullpathname, syspartname)
      ensures rrdtoolh.removed == old(rrdtoolh.removed)
    {
      var chunk := CreateHandleLines(fullpathname, syspartname);
      rrdtoolh.Write(chunk);
    }

    /** `__define_rrd_starttime` as `createdb_rrdtool` calls it, with both values given. */
    method DefineRrdStarttime(starttime: int, iterations: int)
      requires rrdtoolh != null
      modifies rrdtoolh
      ensures rrdtoolh.lines == old(rrdtoolh.lines) + StartTimeLines(starttime, iterations)
      ensures rrdtoolh.removed == old(rrdtoolh.removed)
    {
      var chunk := StartTimeLines(starttime, iterations);
      rrdtoolh.Write(chunk);
    }

    /** `__define_rrd_details`: the heading, the archive trailer, or one data source. */
    method DefineRrdDetails(syspartname: string, logitem: string, datause: string, default: string,
                            heading: bool, tail: bool)
      requires rrdtoolh != null
      modifies rrdtoolh
      ensures rrdtoolh.lines == old(rrdtoolh.lines) +
                (if heading then HeadingLines(syspartname)
                 else if tail then ArchiveTrailer
                 else DataSourceLines(logitem, datause))
      ensures rrdtoolh.removed == old(rrdtoolh.removed)
    {
      if heading {
        var chunk := HeadingLines(syspartname);
        rrdtoolh.Write(chunk);
      } else if tail {
        var chunk := ArchiveTrailer;
        rrdtoolh.Write(chunk);
      } else {
        var chunk := DataSourceLines(logitem, datause);
        rrdtoolh.Write(chunk);
      }
    }

    /** The first loop of `createdb_rrdtool`: the handle lines of every systempart. */
    method WriteFilehandles()
      requires rrdtoolh != null
      modifies rrdtoolh
      ensures rrdtoolh.lines == old(rrdtoolh.lines) + AllHandleLines(fullpathname, systemparts)
      ensures rrdtoolh.removed == old(rrdtoolh.removed)
    {
      ghost var before := rrdtoolh.lines;
      var i := 0;
      while i < |systemparts|
        invariant 0 <= i <= |systemparts|
        invariant rrdtoolh.lines == before + AllHandleLines(fullpathname, systemparts[..i])
        invariant rrdtoolh.removed == old(rrdtoolh.removed)
      {
        DefineRrdFilehandle(systemparts[i].name);
        AppendAssociative(before, AllHandleLines(fullpathname, systemparts[..i]),
                          CreateHandleLines(fullpathname, systemparts[i].name));
        assert systemparts[..i + 1][..i] == systemparts[..i];
        i := i + 1;
      }
      assert systemparts[..i] == systemparts;
    }

    /** One pass of the inner loop of `createdb_rrdtool`: a data source for a logitem of an accepted kind. */
    method WriteLogItem(syspartname: string, item: LogItem)
      requires rrdtoolh != null
      modifies rrdtoolh
      ensures rrdtoolh.lines == old(rrdtoolh.lines) + LogItemEntry(item)
      ensures rrdtoolh.removed == old(rrdtoolh.removed)
    {
      var datause := Upper(item.datause);
      if datause in DsKinds {
        DefineRrdDetails(syspartname, item.name, datause, item.default, false, false);
      }
    }

    /** The inner loop of `createdb_rrdtool`: every logitem of one systempart in turn. */
    method WriteLogItems(sp: SystemPart)
      requires rrdtoolh != null
      modifies rrdtoolh
      ensures rrdtoolh.lines == old(rrdtoolh.lines) + LogItemLines(sp.logitems)
      ensures rrdtoolh.removed == old(rrdtoolh.removed)
    {
      ghost var before := rrdtoolh.lines;
      var j := 0;
      while j < |sp.logitems|
        invariant 0 <= j <= |sp.logitems|
        invariant rrdtoolh.lines == before + LogItemLines(sp.logitems[..j])
        invariant rrdtoolh.removed == old(rrdtoolh.removed)
      {
        WriteLogItem(sp.name, sp.logitems[j]);
        AppendAssociative(before, LogItemLines(sp.logitems[..j]), LogItemEntry(sp.logitems[j]));
        assert sp.logitems[..j + 1][..j] == sp.logitems[..j];
        j := j + 1;
      }
      assert sp.logitems[..j] == sp.logitems;
    }

    /** One pass of the second loop of `createdb_rrdtool`: heading, data sources and archives of one systempart. */
    method WritePart(sp: SystemPart)
      requires rrdtoolh != null
      modifies rrdtoolh
      ensures rrdtoolh.lines == old(rrdtoolh.lines) + PartLines(sp)
      ensures rrdtoolh.removed == old(rrdtoolh.removed)
    {
      ghost var before := rrdtoolh.lines;
      DefineRrdDetails(sp.name, "", "", "", true, false);
      ghost var headed := before + HeadingLines(sp.name);
      assert rrdtoolh.lines == headed;
      WriteLogItems(sp);
      ghost var items := headed + LogItemLines(sp.logitems);
      assert rrdtoolh.lines == items;
      DefineRrdDetails(sp.name, "", "", "", false, true);
      assert rrdtoolh.lines == items + ArchiveTrailer;
      AppendAssociative(before, HeadingLines(sp.name), LogItemLines(sp.logitems));
      AppendAssociative(before, HeadingLines(sp.name) + LogItemLines(sp.logitems), ArchiveTrailer);
    }

    /** The second loop of `createdb_rrdtool`: every systempart in turn. */
    method WriteDetails()
      requires rrdtoolh != null
      modifies rrdtoolh
      ensures rrdtoolh.lines == old(rrdtoolh.lines) + AllPartLines(systemparts)
      ensures rrdtoolh.removed == old(rrdtoolh.removed)
    {
      ghost var before := rrdtoolh.lines;
      var i := 0;
      while i < |systemparts|
        invariant 0 <= i <= |systemparts|
        invariant rrdtoolh.lines == before + AllPartLines(systemparts[..i])
        invariant rrdtoolh.removed == old(rrdtoolh.removed)
      {
        WritePart(systemparts[i]);
        AppendAssociative(before, AllPartLines(systemparts[..i]), PartLines(systemparts[i]));
        assert systemparts[..i + 1][..i] == systemparts[..i];
        i := i + 1;
      }
      assert systemparts[..i] == systemparts;
    }

    /** The script-writing part of `createdb_rrdtool`, into a fresh file. */
    method WriteCreateScript(starttime: int, step: int)
      requires rrdtoolh != null && rrdtoolh.lines == [] && !rrdtoolh.removed
      modifies rrdtoolh
      ensures rrdtoolh.lines == CreateScript(fullpathname, systemparts, starttime, step)
      ensures !rrdtoolh.removed
    {
      DefineRrdFileheader();
      assert rrdtoolh.lines == CreateHeader;
      WriteFilehandles();
      ghost var handles := CreateHeader + AllHandleLines(fullpathname, systemparts);
      assert rrdtoolh.lines == handles;
      DefineRrdStarttime(starttime, step);
      ghost var timed := handles + StartTimeLines(starttime, step);
      assert rrdtoolh.lines == timed;
      WriteDetails();
    }

    /**
      `createdb_rrdtool`: nothing happens when the database is available;
      otherwise the create script is written for every systempart and run,
      and availability is checked again against the files readable afterwards.
      A database that is still unavailable is reported only by a message.
    */
    method CreateDb(timestamp: Option<real>, stepSeconds: Option<real>,
                    readable: set<string>, readableAfter: set<string>)
      returns (outcome: CreateOutcome)
      modifies this`rrdtoolh
      ensures DbAvailable(dbname, systemparts, readable) ==>
                outcome == AlreadyCreated && rrdtoolh == old(rrdtoolh)
      ensures !DbAvailable(dbname, systemparts, readable) && !perlIF ==>
                outcome == PerlInterfaceMissing && rrdtoolh == old(rrdtoolh)
      ensures !DbAvailable(dbname, systemparts, readable) && perlIF ==>
                && rrdtoolh != null && fresh(rrdtoolh) && !rrdtoolh.removed
                && rrdtoolh.lines == CreateScript(fullpathname, systemparts,
                                                  ResolveInt(timestamp, rrdtoolStarttimeUtc),
                                                  ResolveInt(stepSeconds, rrdtoolStepseconds))
                && outcome == (if DbAvailable(dbname, systemparts, readableAfter) then Created else NotCreated)
    {
      var available := IsRrdtoolDbAvailable("", readable);
      if available {
        return AlreadyCreated;
      }
      if !perlIF {
        return PerlInterfaceMissing;
      }
      var itimestamp := ResolveInt(timestamp, rrdtoolStarttimeUtc);
      var istepSeconds := ResolveInt(stepSeconds, rrdtoolStepseconds);
      var file := new ScriptFile();
      rrdtoolh := file;
      WriteCreateScript(itimestamp, istepSeconds);
      var after := IsRrdtoolDbAvailable("", readableAfter);
      outcome := if after then Created else NotCreated;
    }

    /** `db_rrdtool_filename`: the configured database name, never empty. */
    function DbRrdtoolFilename(): (name: string)
      requires Valid()
      ensures |name| > 0 && name == dbname
    {
      dbname
    }

    /** `is_rrdtool_db_enabled`: the flag of the last `rrdtool-db` block, false without one. */
    function IsRrdtoolDbEnabled(): (enabled: bool)
      requires Valid()
      ensures enabled <==> rrdBlocks != [] && EnableFlag(rrdBlocks[|rrdBlocks| - 1].enable)
    {
      rrdtoolEnable
    }

    /** `db_rrdtool_stepseconds`: at least 60, the last block's value when that is larger. */
    function DbRrdtoolStepseconds(): (step: int)
      requires Valid()
      ensures step == EffectiveOptions(rrdBlocks).stepSeconds
      ensures step >= MinStepSeconds
      ensures rrdBlocks != [] && rrdBlocks[|rrdBlocks| - 1].stepSeconds >= MinStepSeconds ==>
                step == rrdBlocks[|rrdBlocks| - 1].stepSeconds
    {
      rrdtoolStepseconds
    }

    /** `db_rrdtool_starttime_utc`: inside the accepted range, or 0 when no block was configured. */
    function DbRrdtoolStarttimeUtc(): (start: int)
      requires Valid()
      ensures start == EffectiveOptions(rrdBlocks).starttimeUtc
      ensures start == 0 <==> rrdBlocks == []
      ensures rrdBlocks != [] ==> StartTimeLow <= start <= StartTimeHigh
    {
      rrdtoolStarttimeUtc
    }
  }

  /** The constructor: an empty `dbname_rrd` raises NameError before the mappings are touched. */
  method Open(cfg: Config, perlIF: bool, shared: SharedMappings) returns (r: Option<CdbRrdtool>)
    requires shared.Valid()
    modifies shared
    ensures shared.Valid()
    ensures r.None? <==> cfg.dbname == []
    ensures r.None? ==> unchanged(shared)
    ensures r.Some? ==>
              && fresh(r.value) && r.value.Valid()
              && r.value.dbname == cfg.dbname && r.value.fullpathname == cfg.fullpathname
              && r.value.systemparts == cfg.systemparts && r.value.rrdBlocks == cfg.rrdBlocks
              && r.value.perlIF == perlIF && r.value.shared == shared
              && r.value.databasefiles == [] && r.value.basename == cfg.basename
              && shared.syspartnames == old(shared.syspartnames) + SyspartNames(cfg.systemparts)
              && shared.dbnameMapping == old(shared.dbnameMapping) + DbNameMapping(cfg.fullpathname, cfg.systemparts)
  {
    if |cfg.dbname| == 0 {
      return None;
    }
    var db := new CdbRrdtool(cfg, perlIF, shared);
    r := Some(db);
  }
}
