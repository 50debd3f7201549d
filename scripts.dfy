/**
  The two Perl `RRDTool::OO` scripts `cdb_rrdtool` writes, as sequences of
  lines (every write in the source ends its text with a newline), together
  with decoders that read the interesting parts back and the lemmas that the
  scripts say what the caller asked for.
*/
module RrdScripts {
  import opened Wrappers
  import opened Seqs
  import opened Text
  import opened RrdConfig

  /** The first lines of both scripts. */
  const PerlHeader: seq<string> :=
    [ShebangLine, "#", "use strict;", "use warnings;", UseRrdToolLine, ""]

  const ShebangLine: string := "#!/usr/bin/perl"
  const UseRrdToolLine: string := "use RRDTool::OO;"

  /** `my $DB_<name>  = "<file>";` -- the file of a systempart, by the filename formula. */
  function DbVariableLine(fullpathname: string, syspartname: string): (l: string)
    ensures StripAffixes(l, DbVariablePrefix(syspartname), DbVariableSuffix) == Some(DbFileName(fullpathname, syspartname))
  {
    StripAffixesOf(DbVariablePrefix(syspartname), DbFileName(fullpathname, syspartname), DbVariableSuffix);
    DbVariablePrefix(syspartname) + DbFileName(fullpathname, syspartname) + DbVariableSuffix
  }

  function DbVariablePrefix(syspartname: string): string {
    "my $DB_" + syspartname + "  = \""
  }

  const DbVariableSuffix: string := "\";"

  /** `my $<name>_rrdh = RRDTool::OO->new(file => $DB_<name>);` -- the handle opens the part's own file variable. */
  function HandleLine(syspartname: string): (l: string)
    ensures StripAffixes(l, HandlePrefix(syspartname), CallClose) == Some(syspartname)
  {
    StripAffixesOf(HandlePrefix(syspartname), syspartname, CallClose);
    HandlePrefix(syspartname) + syspartname + CallClose
  }

  function HandlePrefix(syspartname: string): string {
    "my $" + syspartname + HandleInfix
  }

  /** The integer between `prefix` and `suffix` in `line`, if the line has that shape. */
  function ReadInt(line: string, prefix: string, suffix: string): Option<int> {
    match StripAffixes(line, prefix, suffix)
    case Some(digits) => ParseInt(digits)
    case None => None
  }

  /** An integer written between two affixes is read back. */
  lemma ReadIntOf(prefix: string, i: int, suffix: string)
    ensures ReadInt(prefix + IntToString(i) + suffix, prefix, suffix) == Some(i)
  {
    StripAffixesOf(prefix, IntToString(i), suffix);
    IntToStringRoundTrip(i);
  }

  const HandleInfix: string := "_rrdh = RRDTool::OO->new(file => $DB_"

  /* ---------------------------------------------------------------------- */
  /* The update script                                                        */
  /* ---------------------------------------------------------------------- */

  /** A logitem name longer than this is refused by `update`. */
  const MaxNameLength: int := 18

  const TimePrefix: string := "  time   => "

  function TimeLine(timestamp: int): string {
    TimePrefix + IntToString(timestamp) + ","
  }

  /** The lines written by `__define_rrd_update_filehandle`. */
  function UpdateHandleLines(fullpathname: string, syspartname: string, timestamp: int): (r: seq<string>)
    ensures |r| == 6 && r[4] == TimeLine(timestamp)
    ensures StripAffixes(r[0], DbVariablePrefix(syspartname), DbVariableSuffix) == Some(DbFileName(fullpathname, syspartname))
    ensures StripAffixes(r[1], HandlePrefix(syspartname), CallClose) == Some(syspartname)
    ensures StripAffixes(r[3], UpdateCallPrefix, UpdateCallSuffix) == Some(syspartname)
    ensures ReadInt(r[4], TimePrefix, ",") == Some(timestamp)
  {
    ReadIntOf(TimePrefix, timestamp, ",");
    StripAffixesOf(UpdateCallPrefix, syspartname, UpdateCallSuffix);
    [ DbVariableLine(fullpathname, syspartname),
      HandleLine(syspartname),
      "#",
      UpdateCallPrefix + syspartname + UpdateCallSuffix,
      TimeLine(timestamp),
      ValuesOpen ]
  }

  const UpdateCallPrefix: string := "$"
  const UpdateCallSuffix: string := "_rrdh->update ("
  const ValuesOpen: string := "  values => {"

  /** Header and handle lines: everything before the values. */
  function UpdatePreamble(fullpathname: string, syspartname: string, timestamp: int): (r: seq<string>)
    ensures |r| == 12 && r[10] == TimeLine(timestamp)
  {
    PerlHeader + UpdateHandleLines(fullpathname, syspartname, timestamp)
  }

  /** `   <name>=><value>,` for one pair of the batch. */
  function ValueLine(name: string, value: string): string {
    "   " + name + "=>" + value + ","
  }

  /** The value lines of a batch: one per pair, in the order given. */
  function ValueLines(values: seq<(string, string)>): (r: seq<string>)
    ensures |r| == |values|
    ensures forall i :: 0 <= i < |values| ==> r[i] == ValueLine(values[i].0, values[i].1)
  {
    if values == [] then []
    else
      var last := values[|values| - 1];
      ValueLines(values[..|values| - 1]) + [ValueLine(last.0, last.1)]
  }

  const UpdateTrailer: seq<string> := ["   }", CallClose]

  /** The line that ends an `update` or `create` call. */
  const CallClose: string := ");"

  /** The whole update script for a batch that passed every check. */
  function UpdateScript(fullpathname: string, syspartname: string, timestamp: int, values: seq<(string, string)>): seq<string> {
    UpdatePreamble(fullpathname, syspartname, timestamp) + ValueLines(values) + UpdateTrailer
  }

  /** The two comment lines appended to the script when it exits with a non-zero status. */
  function ErrorLines(status: int, syspartname: string, timestamp: int): (r: seq<string>)
    ensures |r| == 2 && r[0] == ErrorBanner
    ensures ReadInt(r[1], EmptyComment, ErrorInfix(syspartname) + IntToString(timestamp)) == Some(status)
    ensures ReadInt(r[1], EmptyComment + IntToString(status) + ErrorInfix(syspartname), "") == Some(timestamp)
  {
    var head, infix, tail := EmptyComment + IntToString(status), ErrorInfix(syspartname), IntToString(timestamp);
    ReadIntOf(EmptyComment, status, infix + tail);
    AppendAssociative(head, infix, tail);
    ReadIntOf(head + infix, timestamp, "");
    assert head + infix + tail + "" == head + infix + tail;
    [ErrorBanner, head + (infix + tail)]
  }

  const ErrorBanner: string := "# ---- error occured: -------"

  /** What stands between the status and the timestamp on the second error line. */
  function ErrorInfix(syspartname: string): string {
    ", syspart:" + syspartname + ", timestamp:"
  }

  /** The index of the first pair whose name is too long, or |values| if there is none. */
  function FirstLongName(values: seq<(string, string)>): (k: nat)
    ensures k <= |values|
    ensures forall i :: 0 <= i < k ==> |values[i].0| <= MaxNameLength
    ensures k < |values| ==> |values[k].0| > MaxNameLength
  {
    if values == [] then 0
    else if |values[0].0| > MaxNameLength then 0
    else 1 + FirstLongName(values[1..])
  }

  /** `s` with `prefix` and `suffix` removed, if it has both. */
  function StripAffixes(s: string, prefix: string, suffix: string): Option<string> {
    if |prefix| + |suffix| <= |s| && s[..|prefix|] == prefix && s[|s| - |suffix|..] == suffix
    then Some(s[|prefix|..|s| - |suffix|])
    else None
  }

  lemma StripAffixesOf(prefix: string, middle: string, suffix: string)
    ensures StripAffixes(prefix + middle + suffix, prefix, suffix) == Some(middle)
  {
    var s := prefix + middle + suffix;
    assert s[..|prefix|] == prefix;
    assert s[|s| - |suffix|..] == suffix;
    assert s[|prefix|..|s| - |suffix|] == middle;
  }

  /** The first index of `c` in `s`, or |s|. */
  function IndexOfChar(s: string, c: char): (j: nat)
    ensures j <= |s|
    ensures j < |s| ==> s[j] == c
    ensures forall i :: 0 <= i < j ==> s[i] != c
  {
    if s == [] then 0 else if s[0] == c then 0 else 1 + IndexOfChar(s[1..], c)
  }

  /** Reads a value line back; the name ends at the first `=`. */
  function DecodeValueLine(line: string): Option<(string, string)> {
    match StripAffixes(line, "   ", ",")
    case None => None
    case Some(mid) =>
      var j := IndexOfChar(mid, '=');
      if j + 2 <= |mid| && mid[j..j + 2] == "=>" then Some((mid[..j], mid[j + 2..])) else None
  }

  lemma DecodeValueLineOf(name: string, value: string)
    requires '=' !in name
    ensures DecodeValueLine(ValueLine(name, value)) == Some((name, value))
  {
    var mid := name + "=>" + value;
    assert ValueLine(name, value) == "   " + mid + ",";
    StripAffixesOf("   ", mid, ",");
    assert forall i :: 0 <= i < |name| ==> mid[i] == name[i];
    assert mid[|name|] == '=';
    assert IndexOfChar(mid, '=') == |name|;
    assert mid[..|name|] == name;
    assert mid[|name| + 2..] == value;
  }

  function DecodeValueLines(lines: seq<string>): Option<seq<(string, string)>> {
    if lines == [] then Some([])
    else
      match (DecodeValueLines(lines[..|lines| - 1]), DecodeValueLine(lines[|lines| - 1]))
      case (Some(init), Some(p)) => Some(init + [p])
      case _ => None
  }

  /** Reads the timestamp and the batch back from an update script. */
  function DecodeUpdateScript(lines: seq<string>): Option<(int, seq<(string, string)>)> {
    if |lines| < 14 then None
    else
      match StripAffixes(lines[10], TimePrefix, ",")
      case None => None
      case Some(t) =>
        match (ParseInt(t), DecodeValueLines(lines[12..|lines| - 2]))
        case (Some(ts), Some(values)) => Some((ts, values))
        case _ => None
  }

  predicate NamesWithoutEquals(values: seq<(string, string)>) {
    forall i :: 0 <= i < |values| ==> '=' !in values[i].0
  }

  lemma {:induction false} ValueLinesRoundTrip(values: seq<(string, string)>)
    requires NamesWithoutEquals(values)
    ensures DecodeValueLines(ValueLines(values)) == Some(values)
  {
    if values != [] {
      var init := values[..|values| - 1];
      var last := values[|values| - 1];
      var lines := ValueLines(values);
      AppendSlices(ValueLines(init), [ValueLine(last.0, last.1)]);
      assert lines[..|lines| - 1] == ValueLines(init);
      ValueLinesRoundTrip(init);
      DecodeValueLineOf(last.0, last.1);
      InitAndLast(values);
    }
  }

  /**
    The update script carries the timestamp and exactly the batch, one line per
    pair in input order: decoding it gives both back.
  */
  lemma UpdateScriptRoundTrip(fullpathname: string, syspartname: string, timestamp: int, values: seq<(string, string)>)
    requires NamesWithoutEquals(values)
    ensures DecodeUpdateScript(UpdateScript(fullpathname, syspartname, timestamp, values)) == Some((timestamp, values))
  {
    var lines := UpdateScript(fullpathname, syspartname, timestamp, values);
    assert lines[10] == TimePrefix + IntToString(timestamp) + ",";
    StripAffixesOf(TimePrefix, IntToString(timestamp), ",");
    IntToStringRoundTrip(timestamp);
    assert lines[12..|lines| - 2] == ValueLines(values);
    ValueLinesRoundTrip(values);
  }

  /** Where the pieces of the update script sit: handle lines, time line, values, closing lines. */
  lemma UpdateScriptLayout(fullpathname: string, syspartname: string, timestamp: int, values: seq<(string, string)>)
    ensures var s := UpdateScript(fullpathname, syspartname, timestamp, values);
            && |s| == 14 + |values|
            && s[6] == DbVariableLine(fullpathname, syspartname)
            && StripAffixes(s[9], UpdateCallPrefix, UpdateCallSuffix) == Some(syspartname)
            && s[10] == TimeLine(timestamp)
            && (forall i :: 0 <= i < |values| ==> s[12 + i] == ValueLine(values[i].0, values[i].1))
            && s[|s| - 2..] == UpdateTrailer
  {
  }

  /* ---------------------------------------------------------------------- */
  /* The create script                                                        */
  /* ---------------------------------------------------------------------- */

  /** The lines written by `__define_rrd_fileheader`. */
  const CreateHeader: seq<string> := PerlHeader + [RcLine]

  const RcLine: string := "my $rc = 0;"

  /** The lines written by `__define_rrd_filehandle` for one systempart. */
  function CreateHandleLines(fullpathname: string, syspartname: string): (r: seq<string>)
    ensures |r| == 2
    ensures StripAffixes(r[0], DbVariablePrefix(syspartname), DbVariableSuffix) == Some(DbFileName(fullpathname, syspartname))
    ensures StripAffixes(r[1], HandlePrefix(syspartname), CallClose) == Some(syspartname)
  {
    [DbVariableLine(fullpathname, syspartname), HandleLine(syspartname)]
  }

  function AllHandleLines(fullpathname: string, parts: seq<SystemPart>): seq<string> {
    if parts == [] then []
    else AllHandleLines(fullpathname, parts[..|parts| - 1]) + CreateHandleLines(fullpathname, parts[|parts| - 1].name)
  }

  /** The lines written by `__define_rrd_starttime`. */
  function StartTimeLines(starttime: int, step: int): (r: seq<string>)
    ensures |r| == 16
    ensures ReadInt(r[2], StartTimePrefix, ";") == Some(starttime)
    ensures ReadInt(r[3], StepPrefix, ";") == Some(step)
  {
    var startLine, stepLine := StartTimePrefix + IntToString(starttime) + ";", StepPrefix + IntToString(step) + ";";
    ReadIntOf(StartTimePrefix, starttime, ";");
    ReadIntOf(StepPrefix, step, ";");
    StartTimeOpen + [startLine, stepLine] + StartTimeComments
  }

  const StartTimeOpen: seq<string> := [EmptyComment, SetStarttimeComment]

  const StartTimeComments: seq<string> :=
    [ EmptyComment,
      DefineRrdComment,
      CfuncComment0,
      CfuncComment1,
      CfuncComment2,
      EmptyComment,
      DefineArchiveComment,
      LastArchiveComment,
      AverageArchiveComment,
      MaxArchiveComment,
      MinArchiveComment,
      EmptyComment ]

  const EmptyComment: string := "# "
  const SetStarttimeComment: string := "# Set Starttime"
  const StartTimePrefix: string := "my $start_time     = "
  const StepPrefix: string := "my $step           = "
  const DefineRrdComment: string := "# Define the RRD"
  const CfuncComment0: string := "# RRA's consolidation function must be one of the following:"
  const CfuncComment1: string := "#  ['AVERAGE', 'MIN', 'MAX', 'LAST', 'HWPREDICT', 'SEASONAL',"
  const CfuncComment2: string := "#   'DEVSEASONAL', 'DEVPREDICT', 'FAILURES']"
  const DefineArchiveComment: string := "# Define the archiv"
  const LastArchiveComment: string := "# 'LAST    saved every 5 min, kept for 10years back"
  const AverageArchiveComment: string := "# 'AVERAGE saved every 1 min, kept for  1year  back"
  const MaxArchiveComment: string := "# 'MAX  saved every 5 min, kept for 1year back"
  const MinArchiveComment: string := "# 'MIN  saved every 5 min, kept for 1year back"

  /** Every systempart is created 600 seconds before the configured start time. */
  const StartLine: string := "    start       => $start_time - 600,"

  /** The heading of one `create(` call. */
  function HeadingLines(syspartname: string): (r: seq<string>)
    ensures |r| == 3 && r[1] == StartLine && r[2] == StepLine
    ensures StripAffixes(r[0], CreateCallPrefix, CreateCallSuffix) == Some(syspartname)
  {
    StripAffixesOf(CreateCallPrefix, syspartname, CreateCallSuffix);
    [CreateCallPrefix + syspartname + CreateCallSuffix, StartLine, StepLine]
  }

  const CreateCallPrefix: string := "$rc = $"

  const CreateCallSuffix: string := "_rrdh->create("
  const StepLine: string := "    step        => $step,"

  /** The data-source kinds rrdtool accepts; any other datause is skipped. */
  const DsKinds: seq<string> := ["GAUGE", "COUNTER", "DERIVE", "ABSOLUTE", "COMPUTE"]

  predicate IsDsKind(kind: string) {
    kind in DsKinds
  }

  const DsOpen: string := "        data_source => { "
  const DsClose: string := "        },"
  const DsNamePrefix: string := "            name    => '"
  const DsTypePrefix: string := "            type    => '"
  const QuoteComma: string := "',"

  /** One `data_source` block: its name and kind read back from the two middle lines. */
  function DataSourceLines(name: string, kind: string): (r: seq<string>)
    ensures |r| == 4 && r[0] == DsOpen && r[3] == DsClose
    ensures StripAffixes(r[1], DsNamePrefix, QuoteComma) == Some(name)
    ensures StripAffixes(r[2], DsTypePrefix, QuoteComma) == Some(kind)
  {
    StripAffixesOf(DsNamePrefix, name, QuoteComma);
    StripAffixesOf(DsTypePrefix, kind, QuoteComma);
    [DsOpen, DsNamePrefix + name + QuoteComma, DsTypePrefix + kind + QuoteComma, DsClose]
  }

  /** A logitem is declared as a data source iff its upper-cased `datause` is one of the kinds. */
  predicate IsSourceItem(item: LogItem) {
    IsDsKind(Upper(item.datause))
  }

  /** The (name, kind) pair a source logitem declares. */
  function SourceOf(item: LogItem): (string, string) {
    (item.name, Upper(item.datause))
  }

  /**
    The positions of the source logitems, in increasing order: every position
    it holds is a source item, and every source item's position is in it.
  */
  function SourceIndices(items: seq<LogItem>): (idx: seq<nat>)
    ensures forall k :: 0 <= k < |idx| ==> idx[k] < |items| && IsSourceItem(items[idx[k]])
    ensures forall k, l :: 0 <= k < l < |idx| ==> idx[k] < idx[l]
    ensures forall j :: 0 <= j < |items| && IsSourceItem(items[j]) ==> j in idx
  {
    if items == [] then []
    else
      var init := items[..|items| - 1];
      assert forall j :: 0 <= j < |init| ==> items[j] == init[j];
      if IsSourceItem(items[|items| - 1]) then SourceIndices(init) + [|items| - 1]
      else SourceIndices(init)
  }

  /** The (name, kind) of the data sources a list of logitems declares. */
  function LogItemSources(items: seq<LogItem>): (r: seq<(string, string)>)
    ensures |r| <= |items|
    ensures forall i :: 0 <= i < |r| ==> IsDsKind(r[i].1)
    ensures forall i :: 0 <= i < |items| && IsSourceItem(items[i]) ==> SourceOf(items[i]) in r
  {
    if items == [] then []
    else
      var init := items[..|items| - 1];
      var last := items[|items| - 1];
      assert forall i :: 0 <= i < |init| ==> items[i] == init[i];
      if IsSourceItem(last) then LogItemSources(init) + [SourceOf(last)] else LogItemSources(init)
  }

  /**
    The data sources come in the items' order: the k-th is the pair of the
    k-th source item, so there is one per source item and no other.
  */
  lemma {:induction false} LogItemSourcesInOrder(items: seq<LogItem>)
    ensures |LogItemSources(items)| == |SourceIndices(items)|
    ensures forall k :: 0 <= k < |LogItemSources(items)| ==>
              LogItemSources(items)[k] == SourceOf(items[SourceIndices(items)[k]])
  {
    if items != [] {
      var init := items[..|items| - 1];
      var last := items[|items| - 1];
      LogItemSourcesInOrder(init);
      var r0, idx0 := LogItemSources(init), SourceIndices(init);
      var tail, tailIdx := if IsSourceItem(last) then [SourceOf(last)] else [],
                           if IsSourceItem(last) then [|items| - 1] else [];
      assert LogItemSources(items) == r0 + tail;
      assert SourceIndices(items) == idx0 + tailIdx;
      var r, idx := r0 + tail, idx0 + tailIdx;
      forall k | 0 <= k < |r| ensures r[k] == SourceOf(items[idx[k]]) {
        if k < |r0| {
          assert r[k] == r0[k] && idx[k] == idx0[k];
          assert items[idx0[k]] == init[idx0[k]];
        }
      }
    }
  }

  /** Some source logitem of the list declares the pair `src`. */
  ghost predicate DeclaredBy(items: seq<LogItem>, src: (string, string)) {
    exists j :: 0 <= j < |items| && IsSourceItem(items[j]) && src == SourceOf(items[j])
  }

  /** Every declared data source comes from a source logitem of the list. */
  lemma LogItemSourcesFromItems(items: seq<LogItem>)
    ensures forall i :: 0 <= i < |LogItemSources(items)| ==> DeclaredBy(items, LogItemSources(items)[i])
  {
    var r, idx := LogItemSources(items), SourceIndices(items);
    LogItemSourcesInOrder(items);
    forall i | 0 <= i < |r| ensures DeclaredBy(items, r[i]) {
      var j := idx[i];
      assert 0 <= j < |items| && IsSourceItem(items[j]) && r[i] == SourceOf(items[j]);
    }
  }

  /** The lines written for the logitems of one systempart. */
  function LogItemLines(items: seq<LogItem>): seq<string> {
    if items == [] then []
    else LogItemLines(items[..|items| - 1]) + LogItemEntry(items[|items| - 1])
  }

  /** What one logitem adds: its data source when its upper-cased datause is accepted, nothing otherwise. */
  function LogItemEntry(item: LogItem): seq<string> {
    var kind := Upper(item.datause);
    if IsDsKind(kind) then DataSourceLines(item.name, kind) else []
  }

  /** One round-robin archive: consolidation function, rows kept, consolidation points. */
  datatype Archive = Archive(cfunc: string, rows: nat, cpoints: nat)

  /** The four archives every systempart gets, in the order written. */
  const Archives: seq<Archive> :=
    [ Archive("LAST", 1051200, 5),
      Archive("AVERAGE", 525600, 1),
      Archive("MAX", 105120, 5),
      Archive("MIN", 105120, 5) ]

  const ArchiveOpen: string := "        archive     => { "
  const RowsPrefix: string := "            rows     => "
  const CpointsPrefix: string := "            cpoints  => "
  const CfuncPrefix: string := "            cfunc    => '"
  const ArchiveClose: string := "        },"
  const LastArchiveClose: string := "        }"

  function ArchiveBlock(a: Archive, close: string): seq<string> {
    [ ArchiveOpen,
      RowsPrefix + IntToString(a.rows) + ",",
      CpointsPrefix + IntToString(a.cpoints) + ",",
      CfuncPrefix + a.cfunc + QuoteComma,
      close ]
  }

  /** The archive blocks; only the last is closed without a comma. */
  function ArchiveLines(archives: seq<Archive>): seq<string> {
    if archives == [] then []
    else if |archives| == 1 then ArchiveBlock(archives[0], LastArchiveClose)
    else ArchiveBlock(archives[0], ArchiveClose) + ArchiveLines(archives[1..])
  }

  /** The lines of `__define_rrd_details(..., tail=True)`, as written: four archive blocks and `);`. */
  const ArchiveTrailer: seq<string> :=
    LastArchiveLines + AverageArchiveLines + MaxArchiveLines + MinArchiveLines + [CallClose]

  const LastArchiveLines: seq<string> := [ArchiveOpen, LastRowsLine, FiveCpointsLine, LastCfuncLine, ArchiveClose]
  const AverageArchiveLines: seq<string> := [ArchiveOpen, AverageRowsLine, OneCpointLine, AverageCfuncLine, ArchiveClose]
  const MaxArchiveLines: seq<string> := [ArchiveOpen, YearRowsLine, FiveCpointsLine, MaxCfuncLine, ArchiveClose]
  const MinArchiveLines: seq<string> := [ArchiveOpen, YearRowsLine, FiveCpointsLine, MinCfuncLine, LastArchiveClose]

  const LastRowsLine: string := "            rows     => 1051200,"
  const AverageRowsLine: string := "            rows     => 525600,"
  const YearRowsLine: string := "            rows     => 105120,"
  const FiveCpointsLine: string := "            cpoints  => 5,"
  const OneCpointLine: string := "            cpoints  => 1,"
  const LastCfuncLine: string := "            cfunc    => 'LAST',"
  const AverageCfuncLine: string := "            cfunc    => 'AVERAGE',"
  const MaxCfuncLine: string := "            cfunc    => 'MAX',"
  const MinCfuncLine: string := "            cfunc    => 'MIN',"

  /** The written trailer is the archive table rendered block by block, then `);`. */
  lemma ArchiveTrailerRendersArchives()
    ensures ArchiveTrailer == ArchiveLines(Archives) + [CallClose]
  {
    var a := Archives;
    assert ArchiveLines(a[3..]) == ArchiveBlock(a[3], LastArchiveClose);
    assert ArchiveLines(a[2..]) == ArchiveBlock(a[2], ArchiveClose) + ArchiveLines(a[3..]) by {
      assert a[2..][1..] == a[3..];
    }
    assert ArchiveLines(a[1..]) == ArchiveBlock(a[1], ArchiveClose) + ArchiveLines(a[2..]) by {
      assert a[1..][1..] == a[2..];
    }
    assert ArchiveLines(a) == ArchiveBlock(a[0], ArchiveClose) + ArchiveLines(a[1..]);
    LastArchiveWritten();
    AverageArchiveWritten();
    MaxArchiveWritten();
    MinArchiveWritten();
    AppendAssociative(LastArchiveLines, AverageArchiveLines, MaxArchiveLines);
    AppendAssociative(LastArchiveLines, AverageArchiveLines + MaxArchiveLines, MinArchiveLines);
    AppendAssociative(AverageArchiveLines, MaxArchiveLines, MinArchiveLines);
  }

  /** Each block of the written trailer is one archive of the table, rendered. */
  lemma LastArchiveWritten()
    ensures ArchiveBlock(Archives[0], ArchiveClose) == LastArchiveLines
  {
    assert Archives[0] == Archive("LAST", 1051200, 5);
    RenderedSmallNumerals();
    Rendered1051200();
    assert RowsPrefix + "1051200" + "," == LastRowsLine;
    assert CpointsPrefix + "5" + "," == FiveCpointsLine;
    assert CfuncPrefix + "LAST" + QuoteComma == LastCfuncLine;
  }

  lemma AverageArchiveWritten()
    ensures ArchiveBlock(Archives[1], ArchiveClose) == AverageArchiveLines
  {
    assert Archives[1] == Archive("AVERAGE", 525600, 1);
    RenderedSmallNumerals();
    Rendered525600();
    assert RowsPrefix + "525600" + "," == AverageRowsLine;
    assert CpointsPrefix + "1" + "," == OneCpointLine;
    assert CfuncPrefix + "AVERAGE" + QuoteComma == AverageCfuncLine;
  }

  lemma MaxArchiveWritten()
    ensures ArchiveBlock(Archives[2], ArchiveClose) == MaxArchiveLines
  {
    assert Archives[2] == Archive("MAX", 105120, 5);
    RenderedSmallNumerals();
    Rendered105120();
    assert RowsPrefix + "105120" + "," == YearRowsLine;
    assert CpointsPrefix + "5" + "," == FiveCpointsLine;
    assert CfuncPrefix + "MAX" + QuoteComma == MaxCfuncLine;
  }

  lemma MinArchiveWritten()
    ensures ArchiveBlock(Archives[3], LastArchiveClose) == MinArchiveLines
  {
    assert Archives[3] == Archive("MIN", 105120, 5);
    RenderedSmallNumerals();
    Rendered105120();
    assert RowsPrefix + "105120" + "," == YearRowsLine;
    assert CpointsPrefix + "5" + "," == FiveCpointsLine;
    assert CfuncPrefix + "MIN" + QuoteComma == MinCfuncLine;
  }

  /** The decimal forms of the numbers in the archive table. */
  lemma RenderedSmallNumerals()
    ensures IntToString(1) == "1" && IntToString(5) == "5"
  {
  }

  lemma Rendered105120()
    ensures IntToString(105120) == "105120"
  {
    assert NatToString(10) == "10";
    assert NatToString(105) == "105";
    assert NatToString(1051) == "1051";
    assert NatToString(10512) == "10512";
  }

  lemma Rendered1051200()
    ensures IntToString(1051200) == "1051200"
  {
    Rendered105120();
    assert NatToString(1051200) == NatToString(105120) + "0";
  }

  lemma Rendered525600()
    ensures IntToString(525600) == "525600"
  {
    assert NatToString(52) == "52";
    assert NatToString(525) == "525";
    assert NatToString(5256) == "5256";
    assert NatToString(52560) == "52560";
  }

  /** The `create(` call for one systempart. */
  function PartLines(sp: SystemPart): seq<string> {
    HeadingLines(sp.name) + LogItemLines(sp.logitems) + ArchiveTrailer
  }

  function AllPartLines(parts: seq<SystemPart>): seq<string> {
    if parts == [] then []
    else AllPartLines(parts[..|parts| - 1]) + PartLines(parts[|parts| - 1])
  }

  /** The whole create script. */
  function CreateScript(fullpathname: string, parts: seq<SystemPart>, starttime: int, step: int): seq<string> {
    CreateHeader + AllHandleLines(fullpathname, parts) + StartTimeLines(starttime, step) + AllPartLines(parts)
  }

  /** Reads the data sources back, four lines each, from the last block backwards. */
  function DecodeDataSources(lines: seq<string>): Option<seq<(string, string)>> {
    if lines == [] then Some([])
    else if |lines| < 4 then None
    else
      var n := |lines|;
      if lines[n - 4] != DsOpen || lines[n - 1] != DsClose then None
      else
        match (DecodeDataSources(lines[..n - 4]),
               StripAffixes(lines[n - 3], DsNamePrefix, QuoteComma),
               StripAffixes(lines[n - 2], DsTypePrefix, QuoteComma))
        case (Some(init), Some(name), Some(kind)) => Some(init + [(name, kind)])
        case _ => None
  }

  /** Decoding the lines of one more data source adds its (name, kind) to what was decoded before. */
  lemma DataSourceLinesDecode(before: seq<string>, name: string, kind: string)
    requires DecodeDataSources(before).Some?
    ensures DecodeDataSources(before + DataSourceLines(name, kind)) ==
            Some(DecodeDataSources(before).value + [(name, kind)])
  {
    var lines := before + DataSourceLines(name, kind);
    var n := |lines|;
    assert lines[..n - 4] == before;
    assert lines[n - 4] == DsOpen && lines[n - 1] == DsClose;
    assert lines[n - 3] == DsNamePrefix + name + QuoteComma;
    assert lines[n - 2] == DsTypePrefix + kind + QuoteComma;
    StripAffixesOf(DsNamePrefix, name, QuoteComma);
    StripAffixesOf(DsTypePrefix, kind, QuoteComma);
  }

  /** The create script declares exactly the logitems with an accepted kind, upper-cased, in order. */
  lemma {:induction false} LogItemLinesRoundTrip(items: seq<LogItem>)
    ensures DecodeDataSources(LogItemLines(items)) == Some(LogItemSources(items))
  {
    if items != [] {
      var init := items[..|items| - 1];
      var last := items[|items| - 1];
      var kind := Upper(last.datause);
      LogItemLinesRoundTrip(init);
      if IsDsKind(kind) {
        assert LogItemLines(items) == LogItemLines(init) + DataSourceLines(last.name, kind);
        DataSourceLinesDecode(LogItemLines(init), last.name, kind);
        assert LogItemSources(items) == LogItemSources(init) + [SourceOf(last)];
      } else {
        assert LogItemLines(items) == LogItemLines(init);
        assert LogItemSources(items) == LogItemSources(init);
      }
    }
  }

  /** Reads one archive block's first four lines back. */
  function DecodeArchiveBlock(open: string, rows: string, cpoints: string, cfunc: string): Option<Archive> {
    if open != ArchiveOpen then None
    else
      match (StripAffixes(rows, RowsPrefix, ","), StripAffixes(cpoints, CpointsPrefix, ","),
             StripAffixes(cfunc, CfuncPrefix, QuoteComma))
      case (Some(r), Some(c), Some(f)) =>
        (match (ParseInt(r), ParseInt(c))
         case (Some(rv), Some(cv)) => if rv >= 0 && cv >= 0 then Some(Archive(f, rv, cv)) else None
         case _ => None)
      case _ => None
  }

  /** Reads the archive blocks back, five lines each. */
  function DecodeArchives(lines: seq<string>): Option<seq<Archive>> {
    if lines == [] then Some([])
    else if |lines| < 5 then None
    else
      match DecodeArchiveBlock(lines[0], lines[1], lines[2], lines[3])
      case None => None
      case Some(a) =>
        if lines[4] == LastArchiveClose && |lines| == 5 then Some([a])
        else if lines[4] == ArchiveClose && |lines| > 5 then
          match DecodeArchives(lines[5..])
          case None => None
          case Some(rest) => Some([a] + rest)
        else None
  }

  lemma ArchiveBlockRoundTrip(a: Archive, close: string)
    ensures var b := ArchiveBlock(a, close);
            DecodeArchiveBlock(b[0], b[1], b[2], b[3]) == Some(a)
  {
    StripAffixesOf(RowsPrefix, IntToString(a.rows), ",");
    StripAffixesOf(CpointsPrefix, IntToString(a.cpoints), ",");
    StripAffixesOf(CfuncPrefix, a.cfunc, QuoteComma);
    IntToStringRoundTrip(a.rows);
    IntToStringRoundTrip(a.cpoints);
  }

  /** The archive lines carry exactly the given archives, in order. */
  lemma {:induction false} ArchiveLinesRoundTrip(archives: seq<Archive>)
    ensures DecodeArchives(ArchiveLines(archives)) == Some(archives)
  {
    if archives != [] {
      var close := if |archives| == 1 then LastArchiveClose else ArchiveClose;
      var b := ArchiveBlock(archives[0], close);
      ArchiveBlockRoundTrip(archives[0], close);
      var lines := ArchiveLines(archives);
      if |archives| == 1 {
        assert lines == b;
        assert |b| == 5 && b[4] == LastArchiveClose;
        assert archives == [archives[0]];
      } else {
        var rest := ArchiveLines(archives[1..]);
        assert lines == b + rest;
        AppendSlices(b, rest);
        assert lines[0] == b[0] && lines[1] == b[1] && lines[2] == b[2] && lines[3] == b[3];
        assert lines[4] == ArchiveClose != LastArchiveClose;
        ArchiveLinesRoundTrip(archives[1..]);
        assert |rest| > 0 by {
          assert |archives[1..]| > 0;
        }
        assert DecodeArchives(lines) == Some([archives[0]] + archives[1..]);
        FirstAndRest(archives);
      }
    }
  }

  /** The trailer of every `create(` call declares the four archives LAST, AVERAGE, MAX, MIN. */
  lemma ArchiveTrailerArchives()
    ensures ArchiveTrailer[|ArchiveTrailer| - 1] == CallClose
    ensures DecodeArchives(ArchiveTrailer[..|ArchiveTrailer| - 1]) == Some(Archives)
  {
    ArchiveTrailerRendersArchives();
    assert ArchiveTrailer[..|ArchiveTrailer| - 1] == ArchiveLines(Archives);
    ArchiveLinesRoundTrip(Archives);
  }

  /* ---------------------------------------------------------------------- */
  /* Counting lines                                                           */
  /* ---------------------------------------------------------------------- */

  /** How often `line` occurs in `lines`. */
  function CountLine(lines: seq<string>, line: string): (n: nat)
    ensures n <= |lines|
  {
    if lines == [] then 0
    else CountLine(lines[..|lines| - 1], line) + (if lines[|lines| - 1] == line then 1 else 0)
  }

  lemma {:induction false} CountLineAppend(a: seq<string>, b: seq<string>, line: string)
    ensures CountLine(a + b, line) == CountLine(a, line) + CountLine(b, line)
    decreases |b|
  {
    if b == [] {
      assert a + b == a;
    } else {
      var b' := b[..|b| - 1];
      assert (a + b)[..|a + b| - 1] == a + b';
      assert (a + b)[|a + b| - 1] == b[|b| - 1];
      CountLineAppend(a, b', line);
    }
  }

  lemma {:induction false} CountLineAbsent(lines: seq<string>, line: string)
    requires forall i :: 0 <= i < |lines| ==> lines[i] != line
    ensures CountLine(lines, line) == 0
  {
    if lines != [] {
      CountLineAbsent(lines[..|lines| - 1], line);
    }
  }

  lemma NoStartLineInLogItems(items: seq<LogItem>)
    ensures CountLine(LogItemLines(items), StartLine) == 0
  {
    var lines := LogItemLines(items);
    forall i | 0 <= i < |lines| ensures lines[i] != StartLine {
      LogItemLinesShape(items, i);
      if lines[i] != DsOpen && lines[i] != DsClose {
        if DsNamePrefix <= lines[i] {
          assert lines[i][4] == DsNamePrefix[4];
        } else {
          assert lines[i][4] == DsTypePrefix[4];
        }
      }
    }
    CountLineAbsent(lines, StartLine);
  }

  /** Every line of the logitem part is one of the four kinds of data-source line. */
  lemma {:induction false} LogItemLinesShape(items: seq<LogItem>, i: int)
    requires 0 <= i < |LogItemLines(items)|
    ensures var l := LogItemLines(items)[i];
            l == DsOpen || l == DsClose || DsNamePrefix <= l || DsTypePrefix <= l
  {
    var init := items[..|items| - 1];
    if i >= |LogItemLines(init)| {
      var last := items[|items| - 1];
      var k := i - |LogItemLines(init)|;
      var ds := DataSourceLines(last.name, Upper(last.datause));
      assert LogItemLines(items)[i] == ds[k];
      assert DsNamePrefix <= ds[1];
      assert DsTypePrefix <= ds[2];
    } else {
      assert LogItemLines(items)[i] == LogItemLines(init)[i];
      LogItemLinesShape(init, i);
    }
  }

  /** The archive trailer holds neither a start line nor a data-source line. */
  lemma TrailerCounts()
    ensures CountLine(ArchiveTrailer, StartLine) == 0
    ensures CountLine(ArchiveTrailer, DsOpen) == 0
  {
    forall i | 0 <= i < |ArchiveTrailer|
      ensures ArchiveTrailer[i] != StartLine && ArchiveTrailer[i] != DsOpen
    {
    }
    CountLineAbsent(ArchiveTrailer, StartLine);
    CountLineAbsent(ArchiveTrailer, DsOpen);
  }

  /** Each `create(` call holds the start line exactly once. */
  lemma PartLinesStartOnce(sp: SystemPart)
    ensures CountLine(PartLines(sp), StartLine) == 1
  {
    var h := HeadingLines(sp.name);
    assert CountLine(h, StartLine) == 1 by {
      assert h[0][0] == '$';
      assert h == [h[0]] + [StartLine] + [h[2]];
      assert [StartLine][..0] == [];
      assert CountLine([StartLine], StartLine) == 1;
      CountLineAbsent([h[0]], StartLine);
      CountLineAbsent([h[2]], StartLine);
      CountLineAppend([h[0]], [StartLine], StartLine);
      CountLineAppend([h[0]] + [StartLine], [h[2]], StartLine);
    }
    NoStartLineInLogItems(sp.logitems);
    TrailerCounts();
    CountLineAppend(h, LogItemLines(sp.logitems), StartLine);
    CountLineAppend(h + LogItemLines(sp.logitems), ArchiveTrailer, StartLine);
  }

  lemma {:induction false} AllPartLinesStartLines(parts: seq<SystemPart>)
    ensures CountLine(AllPartLines(parts), StartLine) == |parts|
  {
    if parts != [] {
      AllPartLinesStartLines(parts[..|parts| - 1]);
      PartLinesStartOnce(parts[|parts| - 1]);
      CountLineAppend(AllPartLines(parts[..|parts| - 1]), PartLines(parts[|parts| - 1]), StartLine);
    }
  }

  lemma {:induction false} AllHandleLinesWithoutStartLine(fullpathname: string, parts: seq<SystemPart>)
    ensures CountLine(AllHandleLines(fullpathname, parts), StartLine) == 0
  {
    if parts != [] {
      var name := parts[|parts| - 1].name;
      var hs := CreateHandleLines(fullpathname, name);
      assert hs[0][0] == 'm' && hs[1][0] == 'm';
      CountLineAbsent(hs, StartLine);
      AllHandleLinesWithoutStartLine(fullpathname, parts[..|parts| - 1]);
      CountLineAppend(AllHandleLines(fullpathname, parts[..|parts| - 1]), hs, StartLine);
    }
  }

  /** Neither the script header nor the start-time block holds a start line. */
  lemma PreambleWithoutStartLine(starttime: int, step: int)
    ensures CountLine(CreateHeader, StartLine) == 0
    ensures CountLine(StartTimeLines(starttime, step), StartLine) == 0
  {
    var mid := [StartTimePrefix + IntToString(starttime) + ";", StepPrefix + IntToString(step) + ";"];
    assert mid[0][0] == 'm' && mid[1][0] == 'm';
    CountLineAbsent(StartTimeOpen, StartLine);
    CountLineAbsent(mid, StartLine);
    CountLineAbsent(StartTimeComments, StartLine);
    CountLineAppend(StartTimeOpen, mid, StartLine);
    CountLineAppend(StartTimeOpen + mid, StartTimeComments, StartLine);
    CountLineAbsent(CreateHeader, StartLine);
  }

  /** The create script contains `start => $start_time - 600` exactly once per systempart. */
  lemma CreateScriptStartLines(fullpathname: string, parts: seq<SystemPart>, starttime: int, step: int)
    ensures CountLine(CreateScript(fullpathname, parts, starttime, step), StartLine) == |parts|
  {
    var st := StartTimeLines(starttime, step);
    PreambleWithoutStartLine(starttime, step);
    AllHandleLinesWithoutStartLine(fullpathname, parts);
    AllPartLinesStartLines(parts);
    var hh := AllHandleLines(fullpathname, parts);
    CountLineAppend(CreateHeader, hh, StartLine);
    CountLineAppend(CreateHeader + hh, st, StartLine);
    CountLineAppend(CreateHeader + hh + st, AllPartLines(parts), StartLine);
  }

  /** A data source is opened by its first line and by no other. */
  lemma DataSourceOpensOnce(name: string, kind: string)
    ensures CountLine(DataSourceLines(name, kind), DsOpen) == 1
  {
    var ds := DataSourceLines(name, kind);
    assert ds[1][8] == ' ' && ds[2][8] == ' ';
    FirstAndRest(ds);
    CountLineAbsent(ds[1..], DsOpen);
    CountLineAppend([DsOpen], ds[1..], DsOpen);
  }

  /** Each `create(` call opens exactly one data source per logitem of an accepted kind. */
  lemma {:induction false} LogItemLinesDataSources(items: seq<LogItem>)
    ensures CountLine(LogItemLines(items), DsOpen) == |LogItemSources(items)|
  {
    if items != [] {
      var init := items[..|items| - 1];
      var last := items[|items| - 1];
      var kind := Upper(last.datause);
      LogItemLinesDataSources(init);
      CountLineAppend(LogItemLines(init), LogItemEntry(last), DsOpen);
      if IsDsKind(kind) {
        DataSourceOpensOnce(last.name, kind);
      } else {
        assert LogItemSources(items) == LogItemSources(init);
      }
    }
  }

  /** Each `create(` call declares one data source per logitem of an accepted kind, and no other. */
  lemma PartLinesDataSources(sp: SystemPart)
    ensures CountLine(PartLines(sp), DsOpen) == |LogItemSources(sp.logitems)|
  {
    var h := HeadingLines(sp.name);
    assert h[0][0] == '$' && h[2][4] == 's';
    CountLineAbsent(h, DsOpen);
    LogItemLinesDataSources(sp.logitems);
    TrailerCounts();
    CountLineAppend(h, LogItemLines(sp.logitems), DsOpen);
    CountLineAppend(h + LogItemLines(sp.logitems), ArchiveTrailer, DsOpen);
  }
}
