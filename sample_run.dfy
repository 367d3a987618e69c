/**
 * The run in `main`: three flow-log lines and a three-entry lookup table. Token 6
 * of every line is 49153, 49154 or 49155, so no protocol is TCP or UDP, no key is
 * in the table, and all three lines are untagged.
 */
module SampleRun {
  import opened Wrappers
  import opened JavaText
  import opened Counting
  import opened FlowLogParser
  import opened FlowLogProperties

  /** The fields of the three sample lines; each line is its fields separated by
      single spaces. */
  const Fields0: seq<string> := ["2", "123456789012", "eni-0a1b2c3d", "10.0.1.201", "198.51.100.2",
    "443", "49153", "6", "25", "20000", "1620140761", "1620140821", "ACCEPT", "OK"]
  const Fields1: seq<string> := ["2", "123456789012", "eni-4d3c2b1a", "192.168.1.100", "203.0.113.101",
    "23", "49154", "6", "15", "12000", "1620140761", "1620140821", "REJECT", "OK"]
  const Fields2: seq<string> := ["2", "123456789012", "eni-5e6f7g8h", "192.168.1.101", "198.51.100.3",
    "25", "49155", "6", "10", "8000", "1620140761", "1620140821", "ACCEPT", "OK"]

  const Line0 := JoinWords(Fields0, " ")
  const Line1 := JoinWords(Fields1, " ")
  const Line2 := JoinWords(Fields2, " ")

  const SampleLogs: seq<string> := [Line0, Line1, Line2]

  const SampleLookupTable: map<string, string> :=
    map["25,tcp" := "sv_P1", "443,tcp" := "sv_P2", "23,tcp" := "sv_P1"]

  /** Both maps of the sample run: every line untagged, one line per key. */
  const SampleCounts := Counts(map["Untagged" := 3],
                               map["443,unknown" := 1, "23,unknown" := 1, "25,unknown" := 1])

  predicate Words(ws: seq<string>) {
    forall i :: 0 <= i < |ws| ==> ws[i] != "" && NoSpace(ws[i])
  }

  lemma Words0()
    ensures Words(Fields0)
  {
    forall i | 0 <= i < |Fields0| ensures Fields0[i] != "" && NoSpace(Fields0[i]) {
      var w := Fields0[i];
      forall j | 0 <= j < |w| ensures !IsSpace(w[j]) {
      }
    }
  }

  lemma Words1()
    ensures Words(Fields1)
  {
    forall i | 0 <= i < |Fields1| ensures Fields1[i] != "" && NoSpace(Fields1[i]) {
      var w := Fields1[i];
      forall j | 0 <= j < |w| ensures !IsSpace(w[j]) {
      }
    }
  }

  lemma Words2()
    ensures Words(Fields2)
  {
    forall i | 0 <= i < |Fields2| ensures Fields2[i] != "" && NoSpace(Fields2[i]) {
      var w := Fields2[i];
      forall j | 0 <= j < |w| ensures !IsSpace(w[j]) {
      }
    }
  }

  lemma Decimal443() ensures IntToString(443) == "443" { }
  lemma Decimal23() ensures IntToString(23) == "23" { }
  lemma Decimal25() ensures IntToString(25) == "25" { }

  lemma Decimal49153()
    ensures IntToString(49153) == "49153"
  {
    assert NatToString(49) == "49";
    assert NatToString(491) == "491";
    assert NatToString(4915) == "4915";
  }

  lemma Decimal49154()
    ensures IntToString(49154) == "49154"
  {
    assert NatToString(49) == "49";
    assert NatToString(491) == "491";
    assert NatToString(4915) == "4915";
  }

  lemma Decimal49155()
    ensures IntToString(49155) == "49155"
  {
    assert NatToString(49) == "49";
    assert NatToString(491) == "491";
    assert NatToString(4915) == "4915";
  }

  /** The first line: port 443, protocol number 49153. */
  lemma SampleLine0()
    ensures ParseRecord(Line0) == Some(FlowRecord(443, 49153))
  {
    Words0();
    Decimal443();
    Decimal49153();
    ParseRecordRoundTrip(Fields0, " ", FlowRecord(443, 49153));
  }

  /** The second line: port 23, protocol number 49154. */
  lemma SampleLine1()
    ensures ParseRecord(Line1) == Some(FlowRecord(23, 49154))
  {
    Words1();
    Decimal23();
    Decimal49154();
    ParseRecordRoundTrip(Fields1, " ", FlowRecord(23, 49154));
  }

  /** The third line: port 25, protocol number 49155. */
  lemma SampleLine2()
    ensures ParseRecord(Line2) == Some(FlowRecord(25, 49155))
  {
    Words2();
    Decimal25();
    Decimal49155();
    ParseRecordRoundTrip(Fields2, " ", FlowRecord(25, 49155));
  }

  /** The keys are "443,unknown", "23,unknown" and "25,unknown", none of which is in
      the table, whose keys all end in ",tcp". */
  lemma SampleTags()
    ensures LookupKey(FlowRecord(443, 49153)) == "443,unknown"
    ensures LookupKey(FlowRecord(23, 49154)) == "23,unknown"
    ensures LookupKey(FlowRecord(25, 49155)) == "25,unknown"
    ensures TagOf(FlowRecord(443, 49153), SampleLookupTable) == DefaultTag
    ensures TagOf(FlowRecord(23, 49154), SampleLookupTable) == DefaultTag
    ensures TagOf(FlowRecord(25, 49155), SampleLookupTable) == DefaultTag
  {
    Decimal443();
    Decimal23();
    Decimal25();
  }

  /** The counts after the first line, and after the first two. */
  const AfterLine0 := Counts(map["Untagged" := 1], map["443,unknown" := 1])
  const AfterLine1 := Counts(map["Untagged" := 2], map["443,unknown" := 1, "23,unknown" := 1])

  lemma CountsLine0()
    ensures Increment(map[], "Untagged") == AfterLine0.tagCounts
    ensures Increment(map[], "443,unknown") == AfterLine0.portProtocolCounts
  {
  }

  lemma CountsLine1()
    ensures Increment(AfterLine0.tagCounts, "Untagged") == AfterLine1.tagCounts
    ensures Increment(AfterLine0.portProtocolCounts, "23,unknown") == AfterLine1.portProtocolCounts
  {
  }

  lemma CountsLine2()
    ensures Increment(AfterLine1.tagCounts, "Untagged") == SampleCounts.tagCounts
    ensures Increment(AfterLine1.portProtocolCounts, "25,unknown") == SampleCounts.portProtocolCounts
  {
  }

  lemma SampleFirst(l0: string)
    requires ParseRecord(l0) == Some(FlowRecord(443, 49153))
    ensures Aggregate([l0], SampleLookupTable) == Some(AfterLine0)
  {
    var c := Counts(map[], map[]);
    SampleTags();
    AggregateEmpty(SampleLookupTable);
    assert [l0] == [] + [l0];
    AggregateStep([], l0, SampleLookupTable, c, FlowRecord(443, 49153));
    CountsLine0();
  }

  lemma SampleSecond(l0: string, l1: string)
    requires Aggregate([l0], SampleLookupTable) == Some(AfterLine0)
    requires ParseRecord(l1) == Some(FlowRecord(23, 49154))
    ensures Aggregate([l0, l1], SampleLookupTable) == Some(AfterLine1)
  {
    SampleTags();
    assert [l0, l1] == [l0] + [l1];
    AggregateStep([l0], l1, SampleLookupTable, AfterLine0, FlowRecord(23, 49154));
    CountsLine1();
  }

  lemma SampleThird(l0: string, l1: string, l2: string)
    requires Aggregate([l0, l1], SampleLookupTable) == Some(AfterLine1)
    requires ParseRecord(l2) == Some(FlowRecord(25, 49155))
    ensures Aggregate([l0, l1, l2], SampleLookupTable) == Some(SampleCounts)
  {
    SampleTags();
    assert [l0, l1, l2] == [l0, l1] + [l2];
    AggregateStep([l0, l1], l2, SampleLookupTable, AfterLine1, FlowRecord(25, 49155));
    CountsLine2();
  }

  /** `main`'s call: tag counts {Untagged=3} and one count per "<port>,unknown" key. */
  lemma SampleAggregate()
    ensures Aggregate(SampleLogs, SampleLookupTable) == Some(SampleCounts)
  {
    SampleLine0();
    SampleLine1();
    SampleLine2();
    SampleFirst(Line0);
    SampleSecond(Line0, Line1);
    SampleThird(Line0, Line1, Line2);
  }

  /** `main`: parse the sample lines against the sample table. */
  method RunSample() returns (result: Option<Counts>)
    ensures result == Some(SampleCounts)
  {
    result := ParseFlowLogs(SampleLogs, SampleLookupTable);
    SampleAggregate();
  }
}
