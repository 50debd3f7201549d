/**
  The configuration side of `cdb_rrdtool`: the already-parsed contents of the
  XML configuration, the normalisation of the `rrdtool-db` options, the
  shortname mappings that `__fillup_mapping` builds, the filename formula, and
  the two availability rules (directory listing and access count).
*/
module RrdConfig {
  import opened Text

  /** One `logitem` element of a `systempart`. */
  datatype LogItem = LogItem(name: string, datause: string, maxvalue: string, default: string)

  /** One `systempart` element: its long name, its `shortname` and its logitems, in order. */
  datatype SystemPart = SystemPart(name: string, shortname: string, logitems: seq<LogItem>)

  /** One `rrdtool-db` element, its numbers already read by `int(...)`. */
  datatype RrdBlock = RrdBlock(enable: string, stepSeconds: int, starttimeUtc: int)

  /** The effective database options kept by the object. */
  datatype Options = Options(enable: bool, stepSeconds: int, starttimeUtc: int)

  const MinStepSeconds: int := 60
  const StartTimeLow: int := 1344000000
  const StartTimeHigh: int := 1999999999
  const StartTimeFallback: int := 1344000000

  /** The values set before the configuration is read. */
  const DefaultOptions: Options := Options(false, 60, 0)

  /**
    The `enable` text switches the database on iff its upper-cased form is
    `ON` or `1`, that is, for exactly five spellings.
  */
  predicate EnableFlag(text: string)
    ensures EnableFlag(text) <==> text in {"on", "oN", "On", "ON", "1"}
  {
    UpperOfShort(text);
    Upper(text) == "ON" || Upper(text) == "1"
  }

  /** A text of one or two characters, and its upper-cased form, character by character. */
  lemma UpperOfShort(text: string)
    ensures |text| == 2 ==> Upper(text) == [UpperChar(text[0]), UpperChar(text[1])] && text == [text[0], text[1]]
    ensures |text| == 1 ==> Upper(text) == [UpperChar(text[0])] && text == [text[0]]
  {
  }

  /** Step seconds below 60 become 60. */
  function ClampStepSeconds(s: int): (r: int)
    ensures r >= MinStepSeconds
    ensures s >= MinStepSeconds ==> r == s
    ensures s < MinStepSeconds ==> r == MinStepSeconds
  {
    if s < 60 then 60 else s
  }

  /** A start time outside [1344000000, 1999999999] becomes 1344000000. */
  function ClampStartTime(t: int): (r: int)
    ensures StartTimeLow <= r <= StartTimeHigh
    ensures StartTimeLow <= t <= StartTimeHigh ==> r == t
    ensures !(StartTimeLow <= t <= StartTimeHigh) ==> r == StartTimeFallback
  {
    if t < 1344000000 || t > 1999999999 then 1344000000 else t
  }

  /** One `rrdtool-db` block read as options: the flag decoded, the step and start time clamped. */
  function NormalizeBlock(b: RrdBlock): (o: Options)
    ensures o.enable == EnableFlag(b.enable)
    ensures o.stepSeconds >= MinStepSeconds
    ensures b.stepSeconds >= MinStepSeconds ==> o.stepSeconds == b.stepSeconds
    ensures b.stepSeconds < MinStepSeconds ==> o.stepSeconds == MinStepSeconds
    ensures StartTimeLow <= o.starttimeUtc <= StartTimeHigh
    ensures StartTimeLow <= b.starttimeUtc <= StartTimeHigh ==> o.starttimeUtc == b.starttimeUtc
    ensures !(StartTimeLow <= b.starttimeUtc <= StartTimeHigh) ==> o.starttimeUtc == StartTimeFallback
  {
    Options(EnableFlag(b.enable), ClampStepSeconds(b.stepSeconds), ClampStartTime(b.starttimeUtc))
  }

  /** Every block overwrites all three options, so the last block decides; none leaves the defaults. */
  function EffectiveOptions(blocks: seq<RrdBlock>): (o: Options)
    ensures blocks == [] ==> o == DefaultOptions
    ensures blocks != [] ==> o == NormalizeBlock(blocks[|blocks| - 1])
    ensures ValidOptions(o)
  {
    if blocks == [] then DefaultOptions else NormalizeBlock(blocks[|blocks| - 1])
  }

  ghost predicate ValidOptions(o: Options) {
    && o.stepSeconds >= MinStepSeconds
    && (o.starttimeUtc == 0 || StartTimeLow <= o.starttimeUtc <= StartTimeHigh)
  }

  /** The options a configuration yields always satisfy the bounds; the start time is 0 only without a block. */
  lemma EffectiveOptionsValid(blocks: seq<RrdBlock>)
    ensures ValidOptions(EffectiveOptions(blocks))
    ensures EffectiveOptions(blocks).starttimeUtc == 0 <==> blocks == []
  {
  }

  /** Normalising options that are already normalised changes nothing. */
  lemma NormalizeIdempotent(b: RrdBlock)
    ensures var o := NormalizeBlock(b);
            ClampStepSeconds(o.stepSeconds) == o.stepSeconds && ClampStartTime(o.starttimeUtc) == o.starttimeUtc
  {
  }

  /** The loop over the `rrdtool-db` elements in the constructor. */
  method ReadRrdOptions(blocks: seq<RrdBlock>) returns (o: Options)
    ensures o == EffectiveOptions(blocks)
    ensures ValidOptions(o)
  {
    o := DefaultOptions;
    var i := 0;
    while i < |blocks|
      invariant 0 <= i <= |blocks|
      invariant o == EffectiveOptions(blocks[..i])
    {
      var enable := EnableFlag(blocks[i].enable);
      var step := blocks[i].stepSeconds;
      if step < 60 {
        step := 60;
      }
      var start := blocks[i].starttimeUtc;
      if start < 1344000000 || start > 1999999999 {
        start := 1344000000;
      }
      o := Options(enable, step, start);
      i := i + 1;
    }
    assert blocks[..i] == blocks;
  }

  /** The database file of one systempart: `<fullpathname>_<syspartname>.rrd`. */
  function DbFileName(fullpathname: string, syspartname: string): (f: string)
    ensures fullpathname <= f
    ensures |f| == |fullpathname| + |syspartname| + 5
  {
    fullpathname + "_" + syspartname + ".rrd"
  }

  lemma DbFileNameInjective(fullpathname: string, a: string, b: string)
    ensures DbFileName(fullpathname, a) == DbFileName(fullpathname, b) <==> a == b
  {
    if DbFileName(fullpathname, a) == DbFileName(fullpathname, b) {
      var n := |fullpathname| + 1;
      assert a == DbFileName(fullpathname, a)[n..n + |a|];
      assert b == DbFileName(fullpathname, b)[n..n + |b|];
    }
  }

  /** shortname -> syspartname, filled in configuration order (a later part overwrites). */
  function SyspartNames(parts: seq<SystemPart>): (m: map<string, string>)
    ensures m.Keys == Shortnames(parts)
  {
    if parts == [] then map[]
    else
      var last := parts[|parts| - 1];
      ShortnamesSnoc(parts);
      SyspartNames(parts[..|parts| - 1])[last.shortname := last.name]
  }

  /** The shortnames the parts declare. */
  ghost function Shortnames(parts: seq<SystemPart>): set<string> {
    set i | 0 <= i < |parts| :: parts[i].shortname
  }

  lemma ShortnamesSnoc(parts: seq<SystemPart>)
    requires parts != []
    ensures Shortnames(parts) == Shortnames(parts[..|parts| - 1]) + {parts[|parts| - 1].shortname}
  {
    var init := parts[..|parts| - 1];
    forall k | k in Shortnames(parts) ensures k in Shortnames(init) + {parts[|parts| - 1].shortname} {
      var i :| 0 <= i < |parts| && parts[i].shortname == k;
      if i < |init| {
        assert init[i] == parts[i];
      }
    }
    forall k | k in Shortnames(init) ensures k in Shortnames(parts) {
      var i :| 0 <= i < |init| && init[i].shortname == k;
      assert parts[i] == init[i];
    }
  }

  /** shortname -> database filename, filled in the same loop. */
  function DbNameMapping(fullpathname: string, parts: seq<SystemPart>): (m: map<string, string>)
    ensures m.Keys == Shortnames(parts)
    ensures forall k :: k in m ==> fullpathname <= m[k]
  {
    if parts == [] then map[]
    else
      var last := parts[|parts| - 1];
      ShortnamesSnoc(parts);
      DbNameMapping(fullpathname, parts[..|parts| - 1])[last.shortname := DbFileName(fullpathname, last.name)]
  }

  /** Adding one more part to the loop's prefix adds its entry to both maps. */
  lemma MappingsSnoc(fullpathname: string, parts: seq<SystemPart>, i: int)
    requires 0 <= i < |parts|
    ensures SyspartNames(parts[..i + 1]) == SyspartNames(parts[..i])[parts[i].shortname := parts[i].name]
    ensures DbNameMapping(fullpathname, parts[..i + 1])
            == DbNameMapping(fullpathname, parts[..i])[parts[i].shortname := DbFileName(fullpathname, parts[i].name)]
  {
    assert parts[..i + 1][..i] == parts[..i];
  }

  /** Updating a union updates its right operand. */
  lemma UnionUpdate<K, V>(m: map<K, V>, n: map<K, V>, k: K, v: V)
    ensures (m + n)[k := v] == m + n[k := v]
  {
  }

  /** The index of the last part with the given shortname, or -1 if there is none. */
  function LastIndexOf(parts: seq<SystemPart>, shortname: string): (r: int)
    ensures -1 <= r < |parts|
    ensures r >= 0 ==> parts[r].shortname == shortname
    ensures forall j :: r < j < |parts| ==> parts[j].shortname != shortname
  {
    if parts == [] then -1
    else if parts[|parts| - 1].shortname == shortname then |parts| - 1
    else LastIndexOf(parts[..|parts| - 1], shortname)
  }

  /** The shortname map holds exactly the declared shortnames, each mapped to the name of its last part. */
  lemma {:induction false} SyspartNamesLastWins(parts: seq<SystemPart>, shortname: string)
    ensures shortname in SyspartNames(parts) <==> LastIndexOf(parts, shortname) >= 0
    ensures shortname in SyspartNames(parts) ==>
              SyspartNames(parts)[shortname] == parts[LastIndexOf(parts, shortname)].name
  {
    if parts != [] {
      var init := parts[..|parts| - 1];
      SyspartNamesLastWins(init, shortname);
      if parts[|parts| - 1].shortname != shortname {
        assert LastIndexOf(parts, shortname) == LastIndexOf(init, shortname);
        if LastIndexOf(init, shortname) >= 0 {
          assert parts[LastIndexOf(init, shortname)] == init[LastIndexOf(init, shortname)];
        }
      }
    }
  }

  /** Both maps have the same keys, and the filename of a shortname is built from the name it maps to. */
  lemma {:induction false} MappingsAgree(fullpathname: string, parts: seq<SystemPart>)
    ensures DbNameMapping(fullpathname, parts).Keys == SyspartNames(parts).Keys
    ensures forall k :: k in SyspartNames(parts) ==>
              DbNameMapping(fullpathname, parts)[k] == DbFileName(fullpathname, SyspartNames(parts)[k])
  {
    if parts != [] {
      MappingsAgree(fullpathname, parts[..|parts| - 1]);
    }
  }

  predicate DistinctShortnames(parts: seq<SystemPart>) {
    forall i, j :: 0 <= i < j < |parts| ==> parts[i].shortname != parts[j].shortname
  }

  /** With distinct shortnames there is exactly one alias per declared systempart. */
  lemma {:induction false} OneAliasPerPart(parts: seq<SystemPart>)
    requires DistinctShortnames(parts)
    ensures |SyspartNames(parts)| == |parts|
  {
    if parts != [] {
      var init := parts[..|parts| - 1];
      var last := parts[|parts| - 1];
      OneAliasPerPart(init);
      SyspartNamesLastWins(init, last.shortname);
      assert last.shortname !in SyspartNames(init);
      assert SyspartNames(parts).Keys == SyspartNames(init).Keys + {last.shortname};
    }
  }

  /** How many parts have a readable file (the loop counter `dbfilescount`); the probed
      name is `DbFileName` applied to `dbname`, not to the absolute path. */
  function ReadableCount(dbname: string, parts: seq<SystemPart>, readable: set<string>): (n: nat)
    ensures n <= |parts|
  {
    if parts == [] then 0
    else
      ReadableCount(dbname, parts[..|parts| - 1], readable)
      + (if DbFileName(dbname, parts[|parts| - 1].name) in readable then 1 else 0)
  }

  predicate AllPartsReadable(dbname: string, parts: seq<SystemPart>, readable: set<string>) {
    forall i :: 0 <= i < |parts| ==> DbFileName(dbname, parts[i].name) in readable
  }

  /** The count reaches the number of parts exactly when every part's file is readable. */
  lemma {:induction false} ReadableCountFull(dbname: string, parts: seq<SystemPart>, readable: set<string>)
    ensures ReadableCount(dbname, parts, readable) == |parts| <==> AllPartsReadable(dbname, parts, readable)
  {
    if parts != [] {
      var init := parts[..|parts| - 1];
      ReadableCountFull(dbname, init, readable);
      assert forall i :: 0 <= i < |init| ==> init[i] == parts[i];
    }
  }

  /** The database is available iff there is a part and every part's file is readable. */
  predicate DbAvailable(dbname: string, parts: seq<SystemPart>, readable: set<string>)
    ensures DbAvailable(dbname, parts, readable) <==>
              ReadableCount(dbname, parts, readable) > 0 && ReadableCount(dbname, parts, readable) == |parts|
  {
    ReadableCountFull(dbname, parts, readable);
    |parts| > 0 && AllPartsReadable(dbname, parts, readable)
  }

  /** The directory entries `isavailable` collects: those containing the basename, in listing order. */
  function MatchingEntries(listing: seq<string>, basename: string): (r: seq<string>)
    ensures |r| <= |listing|
    ensures forall e :: e in r <==> e in listing && ContainsSubstring(e, basename)
  {
    if listing == [] then []
    else
      var init := MatchingEntries(listing[..|listing| - 1], basename);
      var e := listing[|listing| - 1];
      assert listing == listing[..|listing| - 1] + [e];
      if ContainsSubstring(e, basename) then init + [e] else init
  }
}
