/**
 * What one call of `parseFlowLogs` adds up to: the counts are the multiplicities
 * of the tags and keys of the lines, they sum to the number of lines, they do not
 * depend on the order of the lines, and one bad line fails the whole call.
 */
module FlowLogProperties {
  import opened Wrappers
  import opened JavaText
  import opened Counting
  import opened FlowLogParser

  // ---------------------------------------------------------------------------
  // The records, tags and keys of a run of lines
  // ---------------------------------------------------------------------------

  /** The record of a parse result that succeeded; only read where every line parsed. */
  function RecordOf(p: Option<FlowRecord>): FlowRecord {
    p.GetOr(FlowRecord(0, 0))
  }

  function Records(parsed: seq<Option<FlowRecord>>): (rs: seq<FlowRecord>)
    ensures |rs| == |parsed|
    ensures forall i :: 0 <= i < |parsed| && parsed[i].Some? ==> parsed[i] == Some(rs[i])
  {
    MapSeq(RecordOf, parsed)
  }

  /** Tagging with a fixed lookup table. */
  function TagIn(lookupTable: map<string, string>): FlowRecord -> string {
    r => TagOf(r, lookupTable)
  }

  /** The tag of every record, in order. */
  function Tags(rs: seq<FlowRecord>, lookupTable: map<string, string>): (tags: seq<string>)
    ensures |tags| == |rs|
    ensures forall i :: 0 <= i < |rs| ==> tags[i] == TagOf(rs[i], lookupTable)
  {
    MapSeq(TagIn(lookupTable), rs)
  }

  /** The lookup key of every record, in order. */
  function Keys(rs: seq<FlowRecord>): (keys: seq<string>)
    ensures |keys| == |rs|
    ensures forall i :: 0 <= i < |rs| ==> keys[i] == LookupKey(rs[i])
  {
    MapSeq(LookupKey, rs)
  }

  /** The records of the lines (see LineRecordsSpec). */
  function LineRecords(flowLogs: seq<string>): (rs: seq<FlowRecord>)
    ensures |rs| == |flowLogs|
  {
    Records(ParseLines(flowLogs))
  }

  /** The record of each line that parses is its entry in LineRecords. */
  lemma LineRecordsSpec(flowLogs: seq<string>, i: nat)
    requires i < |flowLogs| && ParseRecord(flowLogs[i]).Some?
    ensures ParseRecord(flowLogs[i]) == Some(LineRecords(flowLogs)[i])
  {
    assert ParseLines(flowLogs)[i] == ParseRecord(flowLogs[i]);
  }

  /** The parse results of one more line. */
  lemma ParseLinesSnoc(flowLogs: seq<string>, log: string)
    ensures ParseLines(flowLogs + [log]) == ParseLines(flowLogs) + [ParseRecord(log)]
  {
    MapSeqAppend(ParseRecord, flowLogs, [log]);
  }

  /** Every line of `flowLogs` has a destination port and a protocol number. */
  predicate AllParse(flowLogs: seq<string>) {
    forall i :: 0 <= i < |flowLogs| ==> ParseRecord(flowLogs[i]).Some?
  }

  // ---------------------------------------------------------------------------
  // The fold over parse results
  // ---------------------------------------------------------------------------

  /** The fold fails exactly when some line failed. */
  lemma {:induction false} CountParsedNone(parsed: seq<Option<FlowRecord>>, lookupTable: map<string, string>)
    ensures CountParsed(parsed, lookupTable) == None <==> None in parsed
    decreases |parsed|
  {
    if parsed != [] {
      var init := parsed[..|parsed| - 1];
      CountParsedNone(init, lookupTable);
      assert parsed == init + [parsed[|parsed| - 1]];
    }
  }

  /** When every line parsed, the fold is one tally of the tags and one tally of
      the keys. */
  lemma {:induction false} CountParsedTally(parsed: seq<Option<FlowRecord>>, lookupTable: map<string, string>)
    requires None !in parsed
    ensures CountParsed(parsed, lookupTable) ==
      Some(Counts(Tally(Tags(Records(parsed), lookupTable)), Tally(Keys(Records(parsed)))))
    decreases |parsed|
  {
    if parsed != [] {
      var n := |parsed|;
      var init := parsed[..n - 1];
      assert parsed == init + [parsed[n - 1]];
      CountParsedTally(init, lookupTable);
      var rs := Records(parsed);
      assert Records(init) == rs[..n - 1];
      var tags, keys := Tags(rs, lookupTable), Keys(rs);
      assert Tags(rs[..n - 1], lookupTable) == tags[..n - 1];
      assert Keys(rs[..n - 1]) == keys[..n - 1];
    }
  }

  // ---------------------------------------------------------------------------
  // One call over a list of lines
  // ---------------------------------------------------------------------------

  /** The whole call fails exactly when some line has too few tokens or a token 5
      or 6 that is not a decimal `int`. */
  lemma AggregateFails(flowLogs: seq<string>, lookupTable: map<string, string>)
    ensures Aggregate(flowLogs, lookupTable) == None <==> !AllParse(flowLogs)
  {
    var parsed := ParseLines(flowLogs);
    CountParsedNone(parsed, lookupTable);
    if None in parsed {
      var i :| 0 <= i < |parsed| && parsed[i] == None;
      assert ParseRecord(flowLogs[i]) == None;
    }
  }

  /** A call that succeeds is one tally of the lines' tags and one tally of their
      keys. */
  lemma AggregateTally(flowLogs: seq<string>, lookupTable: map<string, string>, c: Counts)
    requires Aggregate(flowLogs, lookupTable) == Some(c)
    ensures
      var rs := LineRecords(flowLogs);
      c == Counts(Tally(Tags(rs, lookupTable)), Tally(Keys(rs)))
  {
    var parsed := ParseLines(flowLogs);
    CountParsedNone(parsed, lookupTable);
    CountParsedTally(parsed, lookupTable);
  }

  /** The count of every tag and of every key is its number of lines; a tag or key
      that no line has is absent, which reads as zero. */
  lemma AggregateMultiplicities(flowLogs: seq<string>, lookupTable: map<string, string>, c: Counts)
    requires Aggregate(flowLogs, lookupTable) == Some(c)
    ensures forall t :: GetOrDefault(c.tagCounts, t, 0) == multiset(Tags(LineRecords(flowLogs), lookupTable))[t]
    ensures forall k :: GetOrDefault(c.portProtocolCounts, k, 0) == multiset(Keys(LineRecords(flowLogs)))[k]
  {
    AggregateTally(flowLogs, lookupTable, c);
    var rs := LineRecords(flowLogs);
    TalliesMultiplicities(c, Tags(rs, lookupTable), Keys(rs));
  }

  /** The keys present are exactly the keys of the lines and the tags present
      exactly their tags, each stored with a count of at least one. */
  lemma AggregateKeySets(flowLogs: seq<string>, lookupTable: map<string, string>, c: Counts)
    requires Aggregate(flowLogs, lookupTable) == Some(c)
    ensures c.tagCounts.Keys == set t | t in Tags(LineRecords(flowLogs), lookupTable)
    ensures c.portProtocolCounts.Keys == set k | k in Keys(LineRecords(flowLogs))
    ensures forall t :: t in c.tagCounts ==> c.tagCounts[t] >= 1
    ensures forall k :: k in c.portProtocolCounts ==> c.portProtocolCounts[k] >= 1
  {
    AggregateTally(flowLogs, lookupTable, c);
    var rs := LineRecords(flowLogs);
    TalliesMultiplicities(c, Tags(rs, lookupTable), Keys(rs));
  }

  lemma TalliesMultiplicities(c: Counts, tags: seq<string>, keys: seq<string>)
    requires c == Counts(Tally(tags), Tally(keys))
    ensures forall t :: GetOrDefault(c.tagCounts, t, 0) == multiset(tags)[t]
    ensures forall k :: GetOrDefault(c.portProtocolCounts, k, 0) == multiset(keys)[k]
    ensures c.tagCounts.Keys == set t | t in tags
    ensures c.portProtocolCounts.Keys == set k | k in keys
    ensures forall t :: t in c.tagCounts ==> c.tagCounts[t] >= 1
    ensures forall k :: k in c.portProtocolCounts ==> c.portProtocolCounts[k] >= 1
  {
    TallyIsMultiplicity(tags);
    TallyIsMultiplicity(keys);
  }

  /** Both maps add up to the number of lines. */
  lemma AggregateTotals(flowLogs: seq<string>, lookupTable: map<string, string>, c: Counts)
    requires Aggregate(flowLogs, lookupTable) == Some(c)
    ensures SumValues(c.tagCounts) == |flowLogs|
    ensures SumValues(c.portProtocolCounts) == |flowLogs|
  {
    AggregateTally(flowLogs, lookupTable, c);
    var rs := LineRecords(flowLogs);
    TallySum(Tags(rs, lookupTable));
    TallySum(Keys(rs));
  }

  /** The tags counted are exactly the table's entries, or the default tag, for the
      keys counted: the two maps are consistent through the lookup table. */
  lemma AggregateTagsFromKeys(flowLogs: seq<string>, lookupTable: map<string, string>, c: Counts)
    requires Aggregate(flowLogs, lookupTable) == Some(c)
    ensures forall t :: t in c.tagCounts <==>
      exists k :: k in c.portProtocolCounts && GetOrDefault(lookupTable, k, DefaultTag) == t
    ensures forall t :: t in c.tagCounts ==> t in lookupTable.Values || t == DefaultTag
  {
    AggregateTally(flowLogs, lookupTable, c);
    var rs := LineRecords(flowLogs);
    var tags, keys := Tags(rs, lookupTable), Keys(rs);
    TallyIsMultiplicity(tags);
    TallyIsMultiplicity(keys);
    ElementsThroughTable(c.tagCounts.Keys, c.portProtocolCounts.Keys, tags, keys, lookupTable);
  }

  /** When each tag is the table's entry for the key at the same position, the set
      of tags is the image of the set of keys under the lookup. */
  lemma ElementsThroughTable(tagSet: set<string>, keySet: set<string>, tags: seq<string>, keys: seq<string>,
                             lookupTable: map<string, string>)
    requires tagSet == set t | t in tags
    requires keySet == set k | k in keys
    requires |tags| == |keys|
    requires forall i :: 0 <= i < |tags| ==> tags[i] == GetOrDefault(lookupTable, keys[i], DefaultTag)
    ensures forall t :: t in tagSet <==> exists k :: k in keySet && GetOrDefault(lookupTable, k, DefaultTag) == t
    ensures forall t :: t in tagSet ==> t in lookupTable.Values || t == DefaultTag
  {
    forall t | t in tagSet
      ensures exists k :: k in keySet && GetOrDefault(lookupTable, k, DefaultTag) == t
    {
      var i :| 0 <= i < |tags| && tags[i] == t;
      assert keys[i] in keys;
    }
    forall k | k in keySet
      ensures GetOrDefault(lookupTable, k, DefaultTag) in tagSet
    {
      var i :| 0 <= i < |keys| && keys[i] == k;
      assert tags[i] in tags;
    }
  }

  /** No lines, no counts. */
  lemma AggregateEmpty(lookupTable: map<string, string>)
    ensures Aggregate([], lookupTable) == Some(Counts(map[], map[]))
  {
    assert ParseLines([]) == [];
  }

  /** One more line that parses adds exactly one to the count of its tag and one
      to the count of its key, starting from zero, and changes no other entry. */
  lemma AggregateStep(flowLogs: seq<string>, log: string, lookupTable: map<string, string>, c: Counts, r: FlowRecord)
    requires Aggregate(flowLogs, lookupTable) == Some(c)
    requires ParseRecord(log) == Some(r)
    ensures Aggregate(flowLogs + [log], lookupTable) == Some(CountRecord(c, r, lookupTable))
    ensures
      var tag, key := TagOf(r, lookupTable), LookupKey(r);
      && Aggregate(flowLogs + [log], lookupTable).Some?
      && var c' := Aggregate(flowLogs + [log], lookupTable).value;
      && c'.tagCounts.Keys == c.tagCounts.Keys + {tag}
      && c'.tagCounts[tag] == GetOrDefault(c.tagCounts, tag, 0) + 1
      && (forall t :: t in c.tagCounts && t != tag ==> c'.tagCounts[t] == c.tagCounts[t])
      && c'.portProtocolCounts.Keys == c.portProtocolCounts.Keys + {key}
      && c'.portProtocolCounts[key] == GetOrDefault(c.portProtocolCounts, key, 0) + 1
      && (forall k :: k in c.portProtocolCounts && k != key ==> c'.portProtocolCounts[k] == c.portProtocolCounts[k])
  {
    ParseLinesSnoc(flowLogs, log);
    CountParsedAppend(ParseLines(flowLogs), lookupTable, c, r);
  }

  lemma CountParsedAppend(parsed: seq<Option<FlowRecord>>, lookupTable: map<string, string>, c: Counts, r: FlowRecord)
    requires CountParsed(parsed, lookupTable) == Some(c)
    ensures CountParsed(parsed + [Some(r)], lookupTable) == Some(CountRecord(c, r, lookupTable))
  {
    assert (parsed + [Some(r)])[..|parsed|] == parsed;
  }

  /** One more line after a failure, or one more line that does not parse, fails. */
  lemma AggregateStepFails(flowLogs: seq<string>, log: string, lookupTable: map<string, string>)
    requires Aggregate(flowLogs, lookupTable) == None || ParseRecord(log) == None
    ensures Aggregate(flowLogs + [log], lookupTable) == None
  {
    var parsed := ParseLines(flowLogs);
    ParseLinesSnoc(flowLogs, log);
    assert (parsed + [ParseRecord(log)])[..|parsed|] == parsed;
  }

  /** The counts do not depend on the order of the lines: any rearrangement of
      the same lines gives the same maps, or fails just the same. */
  lemma AggregateOrderIndependent(flowLogs: seq<string>, flowLogs': seq<string>, lookupTable: map<string, string>)
    requires multiset(flowLogs) == multiset(flowLogs')
    ensures Aggregate(flowLogs, lookupTable) == Aggregate(flowLogs', lookupTable)
  {
    var parsed, parsed' := ParseLines(flowLogs), ParseLines(flowLogs');
    MapSeqPermutation(ParseRecord, flowLogs, flowLogs');
    assert multiset(parsed) == multiset(parsed');
    CountParsedNone(parsed, lookupTable);
    CountParsedNone(parsed', lookupTable);
    assert None in parsed <==> None in parsed' by {
      assert None in parsed <==> None in multiset(parsed);
      assert None in parsed' <==> None in multiset(parsed');
    }
    if None !in parsed {
      CountParsedTally(parsed, lookupTable);
      CountParsedTally(parsed', lookupTable);
      var rs, rs' := Records(parsed), Records(parsed');
      MapSeqPermutation(RecordOf, parsed, parsed');
      MapSeqPermutation(TagIn(lookupTable), rs, rs');
      MapSeqPermutation(LookupKey, rs, rs');
      TallyPermutation(Tags(rs, lookupTable), Tags(rs', lookupTable));
      TallyPermutation(Keys(rs), Keys(rs'));
    }
  }

  // ---------------------------------------------------------------------------
  // One line
  // ---------------------------------------------------------------------------

  /** A line parses exactly when it has at least seven tokens and tokens 5 and 6
      are decimal `int`s, which become the record; no other token is read. */
  lemma ParseFieldsSpec(parts: seq<string>, r: FlowRecord)
    ensures ParseFields(parts) == Some(r) <==>
      |parts| > ProtocolIndex &&
      ParseInt(parts[DstPortIndex]) == Some(r.dstPort) &&
      ParseInt(parts[ProtocolIndex]) == Some(r.protocolNum)
  {
  }

  /** Two token lists that agree on tokens 5 and 6 and both have at least seven
      tokens parse the same. */
  lemma ParseFieldsOnlyFiveAndSix(parts: seq<string>, parts': seq<string>)
    requires |parts| > ProtocolIndex && |parts'| > ProtocolIndex
    requires parts[DstPortIndex] == parts'[DstPortIndex]
    requires parts[ProtocolIndex] == parts'[ProtocolIndex]
    ensures ParseFields(parts) == ParseFields(parts')
  {
  }

  /** A line of whitespace-free words separated by whitespace parses as its words. */
  lemma ParseRecordOfWords(ws: seq<string>, sep: string)
    requires |ws| > 0
    requires forall i :: 0 <= i < |ws| ==> ws[i] != "" && NoSpace(ws[i])
    requires sep != "" && AllSpace(sep)
    ensures ParseRecord(JoinWords(ws, sep)) == ParseFields(ws)
  {
    SplitJoin(ws, sep);
  }

  /** Leading whitespace yields an empty first token, so the port is then read from
      the fifth word and the protocol from the sixth. */
  lemma ParseRecordLeadingSpace(ws: seq<string>, sep: string)
    requires |ws| > 0
    requires forall i :: 0 <= i < |ws| ==> ws[i] != "" && NoSpace(ws[i])
    requires sep != "" && AllSpace(sep)
    ensures ParseRecord(sep + JoinWords(ws, sep)) == ParseFields([""] + ws)
  {
    SplitJoin(ws, sep);
    JoinWordsStart(ws, sep);
    SplitLeading(sep, JoinWords(ws, sep));
  }

  /** Writing a record's port and protocol number in decimal as tokens 5 and 6 of a
      line and parsing the line gives the record back. */
  lemma ParseRecordRoundTrip(ws: seq<string>, sep: string, r: FlowRecord)
    requires |ws| > ProtocolIndex
    requires forall i :: 0 <= i < |ws| ==> ws[i] != "" && NoSpace(ws[i])
    requires sep != "" && AllSpace(sep)
    requires ws[DstPortIndex] == IntToString(r.dstPort)
    requires ws[ProtocolIndex] == IntToString(r.protocolNum)
    ensures ParseRecord(JoinWords(ws, sep)) == Some(r)
  {
    ParseRecordOfWords(ws, sep);
    ParseIntToString(r.dstPort);
    ParseIntToString(r.protocolNum);
  }

  /** `s.indexOf(',')`, or `|s|` when there is no comma. */
  function IndexOfComma(s: string): (i: nat)
    ensures i <= |s|
  {
    if s == "" || s[0] == ',' then 0 else 1 + IndexOfComma(s[1..])
  }

  /** The first comma of `a + "," + x` is the one after `a` when `a` has none. */
  lemma {:induction false} IndexOfCommaAfter(a: string, x: string)
    requires forall i :: 0 <= i < |a| ==> a[i] != ','
    ensures IndexOfComma(a + "," + x) == |a|
  {
    if a != "" {
      assert (a + "," + x)[1..] == a[1..] + "," + x;
      IndexOfCommaAfter(a[1..], x);
    }
  }

  /** Two strings without a comma, each followed by a comma and more text, that
      make the same string are the same, and so are the texts after them. */
  lemma SplitAtComma(a: string, x: string, b: string, y: string)
    requires forall i :: 0 <= i < |a| ==> a[i] != ','
    requires forall i :: 0 <= i < |b| ==> b[i] != ','
    requires a + "," + x == b + "," + y
    ensures a == b && x == y
  {
    var s := a + "," + x;
    IndexOfCommaAfter(a, x);
    IndexOfCommaAfter(b, y);
    assert a == s[..|a|] == b;
    assert x == s[|a| + 1..] == y;
  }

  /** Two records share a key exactly when they have the same port and the same
      protocol name: the key loses nothing but the difference between unknown
      protocol numbers. */
  lemma LookupKeyInjective(r: FlowRecord, r': FlowRecord)
    ensures LookupKey(r) == LookupKey(r') <==>
      r.dstPort == r'.dstPort && ProtocolName(r.protocolNum) == ProtocolName(r'.protocolNum)
  {
    if LookupKey(r) == LookupKey(r') {
      IntToStringChars(r.dstPort);
      IntToStringChars(r'.dstPort);
      SplitAtComma(IntToString(r.dstPort), ProtocolName(r.protocolNum),
                   IntToString(r'.dstPort), ProtocolName(r'.protocolNum));
      IntToStringInjective(r.dstPort, r'.dstPort);
    }
  }
}
