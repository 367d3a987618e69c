/**
 * `FlowLogParser.parseFlowLogs`: one pass over flow-log lines that classifies each
 * line by its (destination port, protocol) through a lookup table and counts the
 * resulting tags and port/protocol combinations. The two count maps are returned
 * instead of printed.
 */
module FlowLogParser {
  import opened Wrappers
  import opened JavaText
  import opened Counting

  /** The two fields of a flow-log line that the parser reads. */
  datatype FlowRecord = FlowRecord(dstPort: int32, protocolNum: int32)

  /** The two maps built by one call: tag to count, and "<port>,<protocol>" to count. */
  datatype Counts = Counts(tagCounts: map<string, int>, portProtocolCounts: map<string, int>)

  /** Token positions of the destination port and of the protocol number. */
  const DstPortIndex := 5
  const ProtocolIndex := 6

  /** The tag of a line whose key has no entry in the lookup table. */
  const DefaultTag := "Untagged"

  /** Protocol number 6 is TCP, 17 is UDP, and every other number is unknown. */
  function ProtocolName(protocolNum: int32): (name: string)
    ensures name == "tcp" <==> protocolNum == 6
    ensures name == "udp" <==> protocolNum == 17
    ensures name == "unknown" <==> protocolNum != 6 && protocolNum != 17
    ensures name in {"tcp", "udp", "unknown"}
  {
    if protocolNum == 6 then "tcp" else if protocolNum == 17 then "udp" else "unknown"
  }

  /** Reads tokens 5 and 6 as `int`s; `None` when there are too few tokens or
      either token is not a decimal `int`. */
  function ParseFields(parts: seq<string>): Option<FlowRecord> {
    if |parts| <= DstPortIndex then None
    else
      match ParseInt(parts[DstPortIndex])
      case None => None
      case Some(dstPort) =>
        if |parts| <= ProtocolIndex then None
        else
          match ParseInt(parts[ProtocolIndex])
          case None => None
          case Some(protocolNum) => Some(FlowRecord(dstPort, protocolNum))
  }

  /** The record of one flow-log line, split on whitespace runs. */
  function ParseRecord(log: string): Option<FlowRecord> {
    ParseFields(Split(log))
  }

  /** The key used both for the lookup and for the second count map:
      the port in decimal, a comma, the protocol name. */
  function LookupKey(r: FlowRecord): string {
    IntToString(r.dstPort) + "," + ProtocolName(r.protocolNum)
  }

  /** The tag of a record: the table's entry for its key, or the default tag. */
  function TagOf(r: FlowRecord, lookupTable: map<string, string>): (tag: string)
    ensures LookupKey(r) in lookupTable ==> tag == lookupTable[LookupKey(r)]
    ensures LookupKey(r) !in lookupTable ==> tag == DefaultTag
  {
    GetOrDefault(lookupTable, LookupKey(r), DefaultTag)
  }

  /** What one line does to the two count maps. */
  function CountRecord(c: Counts, r: FlowRecord, lookupTable: map<string, string>): Counts {
    Counts(Increment(c.tagCounts, TagOf(r, lookupTable)),
           Increment(c.portProtocolCounts, LookupKey(r)))
  }

  /** The reference fold over the parse results of the lines, in order: `None` as
      soon as one line could not be parsed, otherwise the counts of all lines. */
  function CountParsed(parsed: seq<Option<FlowRecord>>, lookupTable: map<string, string>): Option<Counts>
    decreases |parsed|
  {
    if parsed == [] then Some(Counts(map[], map[]))
    else
      match CountParsed(parsed[..|parsed| - 1], lookupTable)
      case None => None
      case Some(c) =>
        match parsed[|parsed| - 1]
        case None => None
        case Some(r) => Some(CountRecord(c, r, lookupTable))
  }

  /** The parse result of every line. */
  function ParseLines(flowLogs: seq<string>): (parsed: seq<Option<FlowRecord>>)
    ensures |parsed| == |flowLogs|
    ensures forall i :: 0 <= i < |flowLogs| ==> parsed[i] == ParseRecord(flowLogs[i])
  {
    MapSeq(ParseRecord, flowLogs)
  }

  /** What `parseFlowLogs` computes for a list of lines and a lookup table. */
  function Aggregate(flowLogs: seq<string>, lookupTable: map<string, string>): Option<Counts> {
    CountParsed(ParseLines(flowLogs), lookupTable)
  }

  /** Once a prefix of the parse results fails, the whole fold fails. */
  lemma {:induction false} CountParsedPrefixFails(parsed: seq<Option<FlowRecord>>, n: nat, lookupTable: map<string, string>)
    requires n <= |parsed|
    requires CountParsed(parsed[..n], lookupTable) == None
    ensures CountParsed(parsed, lookupTable) == None
    decreases |parsed|
  {
    if n < |parsed| {
      var init := parsed[..|parsed| - 1];
      assert init[..n] == parsed[..n];
      CountParsedPrefixFails(init, n, lookupTable);
    } else {
      assert parsed[..n] == parsed;
    }
  }

  /** The fold over one more line that parses. */
  lemma CountParsedSnoc(parsed: seq<Option<FlowRecord>>, i: nat, lookupTable: map<string, string>, c: Counts, r: FlowRecord)
    requires i < |parsed|
    requires CountParsed(parsed[..i], lookupTable) == Some(c)
    requires parsed[i] == Some(r)
    ensures CountParsed(parsed[..i + 1], lookupTable) == Some(CountRecord(c, r, lookupTable))
  {
    assert parsed[..i + 1][..i] == parsed[..i];
  }

  /** A line that does not parse makes the whole fold fail. */
  lemma CountParsedFailsAt(parsed: seq<Option<FlowRecord>>, i: nat, lookupTable: map<string, string>)
    requires i < |parsed|
    requires parsed[i] == None
    ensures CountParsed(parsed, lookupTable) == None
  {
    assert parsed[..i + 1][..i] == parsed[..i];
    CountParsedPrefixFails(parsed, i + 1, lookupTable);
  }

  /** The parsing part of one iteration: split the line on whitespace runs and
      read tokens 5 and 6 with `Integer.parseInt`. `None` stands for the
      exception that an out-of-range index or a malformed number throws. */
  method ParseLine(log: string) returns (record: Option<FlowRecord>)
    ensures record == ParseRecord(log)
    ensures forall r :: record == Some(r) <==>
      var parts := Split(log);
      && |parts| > ProtocolIndex
      && ParseInt(parts[DstPortIndex]) == Some(r.dstPort)
      && ParseInt(parts[ProtocolIndex]) == Some(r.protocolNum)
  {
    var parts := Split(log);
    if |parts| <= DstPortIndex {
      return None;
    }
    var dstPort := ParseInt(parts[DstPortIndex]);
    if dstPort.None? {
      return None;
    }
    if |parts| <= ProtocolIndex {
      return None;
    }
    var protocolNum := ParseInt(parts[ProtocolIndex]);
    if protocolNum.None? {
      return None;
    }
    record := Some(FlowRecord(dstPort.value, protocolNum.value));
  }

  /** `parseFlowLogs`: the loop over the lines, updating the two maps in place. An
      exception thrown while parsing a line ends the call with `None`. */
  method ParseFlowLogs(flowLogs: seq<string>, lookupTable: map<string, string>)
      returns (result: Option<Counts>)
    ensures result == Aggregate(flowLogs, lookupTable)
  {
    var tagCounts: map<string, int> := map[];
    var portProtocolCounts: map<string, int> := map[];
    ghost var parsed := ParseLines(flowLogs);
    var i := 0;
    while i < |flowLogs|
      invariant 0 <= i <= |flowLogs|
      invariant CountParsed(parsed[..i], lookupTable) == Some(Counts(tagCounts, portProtocolCounts))
    {
      var record := ParseLine(flowLogs[i]);
      if record.None? {
        CountParsedFailsAt(parsed, i, lookupTable);
        return None;
      }
      var protocol := ProtocolName(record.value.protocolNum);

      var lookupKey := IntToString(record.value.dstPort) + "," + protocol;
      var tag := GetOrDefault(lookupTable, lookupKey, DefaultTag);

      CountParsedSnoc(parsed, i, lookupTable, Counts(tagCounts, portProtocolCounts), record.value);
      tagCounts := Increment(tagCounts, tag);
      portProtocolCounts := Increment(portProtocolCounts, lookupKey);
      i := i + 1;
    }
    assert parsed[..i] == parsed;
    result := Some(Counts(tagCounts, portProtocolCounts));
  }
}
