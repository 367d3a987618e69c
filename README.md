# Flow-log tagging in Dafny

A model of `FlowLogParser` (`Tagging.java`). A call of `parseFlowLogs` takes a list of
flow-log lines and a lookup table from `"<port>,<protocol>"` keys to tags. For each
line it:

- splits the line on runs of whitespace;
- reads token 5 as the destination port and token 6 as the protocol number;
- names protocol 6 `tcp`, 17 `udp` and every other number `unknown`;
- builds the key `<port>,<protocol>`;
- takes the key's tag from the table, or `Untagged` when the table has no entry;
- adds one to the tag's count and one to the key's count, in two hash maps.

`main` runs this on three sample lines and a three-entry table.

The modules:

- `Wrappers`: `Option`. `None` stands for a call that ends in an exception.
- `JavaText`: the Java library behaviour the loop relies on.
  - `String.split("\\s+")`: a leading empty token is kept, trailing empty tokens are dropped, and `""` gives `[""]`.
  - `Integer.parseInt`: an optional sign, ASCII digits only, and the `int` range.
  - `Integer.toString`: used to build `dstPort + ","`.
- `Counting`: `Map.getOrDefault` and the `put(k, getOrDefault(k, 0) + 1)` update.
  - `Tally` is a run of those updates.
  - Lemmas about tallies: multiplicities, key sets, sums and order independence.
- `FlowLogParser`: the records, the protocol names, keys and tags, and the core operations.
  - `ParseLine` is one line's parsing.
  - `ParseFlowLogs` is the imperative loop. It reassigns the two count maps line by line.
  - The loop is proved equal to the reference fold `Aggregate`, which is `CountParsed` over the parse results of the lines.
- `FlowLogProperties`: what one call amounts to.
  - A call fails exactly when some line fails to parse.
  - Otherwise the counts are the multiplicities of the lines' tags and keys.
  - They sum to the number of lines.
  - Every stored count is at least one.
  - The tags are the images of the keys through the table.
  - One more line changes exactly two entries.
  - The order of the lines does not matter.
  - Also covered: the one-line facts (only tokens 5 and 6 are read, the leading-whitespace shift) and the injectivity of the key.
- `SampleRun`: the run in `main`.

The sample lines have `6` at token 7, and the code reads token 6. So the code as
written reads 49153, 49154 and 49155 as protocol numbers. All three lines are
`unknown` and `Untagged`. The result is `{Untagged=3}` and
`{443,unknown=1, 23,unknown=1, 25,unknown=1}`.

## Model

| member | source | states |
|---|---|---|
| FlowLogParser.ParseFlowLogs | Tagging.java:35-51 | The loop over all lines, which updates the two maps, returns exactly the reference fold `Aggregate` of the lines. It returns `None` when a line throws. |
| FlowLogParser.ParseLine | Tagging.java:40-42 | One line's parse equals `ParseRecord`. It yields a record iff the split has at least seven tokens and tokens 5 and 6 parse as `int`s, and these are then the record's port and protocol number. Otherwise it is `None`, which stands for the exception. |
| FlowLogParser.ProtocolName | Tagging.java:43 | The name is `tcp` iff the number is 6. It is `udp` iff the number is 17. It is `unknown` iff the number is neither. |
| FlowLogParser.TagOf | Tagging.java:45-46 | The tag is the table's entry for the key when the key is present, and `Untagged` otherwise. |
| FlowLogParser.ParseFields | Tagging.java:41-42 | Definition: `parseInt` of token 5, then of token 6, with `None` for a missing token or a malformed number. `ParseFieldsSpec` and `ParseFieldsOnlyFiveAndSix` prove its properties. |
| FlowLogParser.ParseRecord | Tagging.java:40-42 | Definition: `ParseFields` of the whitespace split of the line. `AggregateFails`, `ParseRecordOfWords`, `ParseRecordLeadingSpace` and `ParseRecordRoundTrip` prove its properties. |
| FlowLogParser.LookupKey | Tagging.java:45 | Definition: the port in decimal, a comma, then the protocol name. `LookupKeyInjective` proves that it keeps exactly the port and the protocol name. |
| FlowLogParser.CountRecord | Tagging.java:46-50 | Definition: one `Increment` of the tag's count and one of the key's count. `AggregateStep` states the resulting maps entry by entry. |
| FlowLogParser.CountParsed | Tagging.java:39-51 | Definition: the reference left fold over the parse results, `None` once any result is `None`. `CountParsedNone` and `CountParsedTally` prove its properties. |
| FlowLogParser.Aggregate | Tagging.java:35-51 | Definition: `CountParsed` over the parse of every line. `ParseFlowLogs` is proved equal to it. The `Aggregate…` lemmas prove failure iff some line fails, the tallies, the totals, the key sets, the step and order independence. |
| Counting.Tally | Tagging.java:48-50 | Definition: the map reached from empty by one `Increment` per element, in order. `TallyIsMultiplicity`, `TallySum` and `TallyPermutation` prove its properties. |
| JavaText.Split | Tagging.java:40 | Definition: `split("\\s+")` with limit 0, that is the pieces around maximal `\s` runs with trailing empty pieces removed, and `[""]` for `""`. The `Split…` lemmas prove its properties. |
| JavaText.ParseInt | Tagging.java:41-42 | Definition: an optional `+` or `-`, then at least one ASCII digit and nothing else, with a value in the `int` range; otherwise `None`. `ParseIntToString`, `ParseIntRejectsSpace` and `ParseIntSyntax` prove its properties. |
| JavaText.IntToString | Tagging.java:45 | Definition: a `-` for negative numbers, then `NatToString` of the magnitude. `NatToString`, `IntToStringInjective`, `IntToStringChars` and `ParseIntToString` prove its properties. |
| FlowLogParser.ParseLines | Tagging.java:39-42 | One parse result per line, in order, each equal to that line's parse. |
| FlowLogParser.CountParsedPrefixFails | Tagging.java:39-42 | Once a prefix of the lines fails, the whole call fails. |
| FlowLogParser.CountParsedSnoc | Tagging.java:39-51 | The fold over one more parsed line is that line's update of both maps. |
| FlowLogParser.CountParsedFailsAt | Tagging.java:39-42 | A line that does not parse, wherever it is, makes the whole call fail. |
| Counting.GetOrDefault | Tagging.java:46 | `getOrDefault` returns the stored value when the key is present and the default otherwise. |
| Counting.Increment | Tagging.java:48-50 | The key set gains the key. Its count becomes the old count (zero if absent) plus one. Every other entry is unchanged. |
| Counting.TallyIsMultiplicity | Tagging.java:39-50 | After one update per element, each count equals the element's multiplicity. The keys are exactly the elements, and every count is at least one. |
| Counting.TallyPermutation | Tagging.java:39-50 | Sequences with the same multiset of elements give the same counts. |
| Counting.SumValuesRemove | Tagging.java:48-50 | The sum of the counts is any one key's count plus the sum of the rest. |
| Counting.SumIncrement | Tagging.java:48-50 | One update raises the sum of the counts by exactly one. |
| Counting.TallySum | Tagging.java:39-50 | The counts sum to the number of updates. |
| Counting.MapSeq | Tagging.java:39 | Applying a function elementwise keeps the length and maps each position. |
| Counting.MapSeqPermutation | Tagging.java:39 | Rearranging the input rearranges the images the same way (equal multisets). |
| JavaText.SplitNoSpace | Tagging.java:40 | No token of `split("\\s+")` contains whitespace. |
| JavaText.SplitNonEmpty | Tagging.java:40 | Only the first token can be empty. It is non-empty when the line starts with a non-space character. |
| JavaText.SplitConcat | Tagging.java:40 | The tokens concatenated are the line with its whitespace removed. |
| JavaText.SplitWord | Tagging.java:40 | Text without whitespace is one token, the text itself. |
| JavaText.SplitAllSpace | Tagging.java:40 | A line of only whitespace has no tokens. |
| JavaText.SplitCons | Tagging.java:40 | A word, whitespace and more text split into the word followed by the split of the rest. |
| JavaText.SplitLeading | Tagging.java:40 | Leading whitespace adds an empty first token and shifts every other token one place. |
| JavaText.SplitTrailing | Tagging.java:40 | Trailing whitespace produces no token. |
| JavaText.SplitJoin | Tagging.java:40 | Splitting whitespace-free words joined by one and the same whitespace run gives back the words in order. `SplitCons` covers runs that differ. |
| JavaText.NatToString | Tagging.java:45 | The rendering is non-empty decimal digits, has the number's value and has no leading zero. |
| JavaText.ParseIntToString | Tagging.java:41-45 | Parsing an integer's decimal rendering gives the integer back when it fits an `int`, and fails otherwise. |
| JavaText.IntToStringInjective | Tagging.java:45 | Distinct ports have distinct decimal renderings. |
| JavaText.IntToStringChars | Tagging.java:45 | A rendering holds only digits, plus at most a leading minus sign. It has no comma. |
| JavaText.ParseIntRejectsSpace | Tagging.java:41-42 | Empty text or text containing whitespace is never a number. |
| JavaText.ParseIntSyntax | Tagging.java:41-42 | `+` and leading zeros are accepted. A lone sign, the empty string, a double sign and trailing letters are rejected. |
| FlowLogProperties.Records | Tagging.java:39-42 | Each parsed line's record is kept at its position. |
| FlowLogProperties.Tags | Tagging.java:46 | The tag of every record, in order. |
| FlowLogProperties.Keys | Tagging.java:45 | The key of every record, in order. |
| FlowLogProperties.LineRecordsSpec | Tagging.java:39-42 | The record at each line that parses is that line's parse. |
| FlowLogProperties.ParseLinesSnoc | Tagging.java:39 | The parses of one more line are the earlier parses followed by that line's parse. |
| FlowLogProperties.CountParsedNone | Tagging.java:39-51 | The fold fails iff some parse result failed. |
| FlowLogProperties.CountParsedTally | Tagging.java:39-51 | When every line parsed, the fold is the tally of the tags and the tally of the keys. |
| FlowLogProperties.AggregateFails | Tagging.java:39-42 | The call fails iff some line has too few tokens or a malformed token 5 or 6. |
| FlowLogProperties.AggregateTally | Tagging.java:39-51 | A successful call is the tally of the lines' tags and the tally of their keys. The same key serves both the lookup and the count. |
| FlowLogProperties.AggregateMultiplicities | Tagging.java:46-50 | Every tag's count and every key's count is its number of lines. A tag or key no line has reads as zero. |
| FlowLogProperties.AggregateKeySets | Tagging.java:48-50 | The tags and keys stored are exactly those of the lines, each with a count of at least one. |
| FlowLogProperties.TalliesMultiplicities | Tagging.java:48-50 | Within a pair of tallies: multiplicities, both key sets, and counts of at least one. |
| FlowLogProperties.AggregateTotals | Tagging.java:48-50 | Each map's counts sum to the number of lines. |
| FlowLogProperties.AggregateTagsFromKeys | Tagging.java:45-48 | A tag is stored iff some stored key looks it up. Every stored tag is a table value or `Untagged`. |
| FlowLogProperties.ElementsThroughTable | Tagging.java:46 | When tags are lookups of keys position by position, the tag set is the image of the key set. |
| FlowLogProperties.AggregateEmpty | Tagging.java:36-37 | No lines give two empty maps. |
| FlowLogProperties.AggregateStep | Tagging.java:39-51 | One more parsed line adds one to its tag's count and one to its key's count, starting from zero. No other entry changes. |
| FlowLogProperties.CountParsedAppend | Tagging.java:39-51 | Folding one more parsed record applies that record's update. |
| FlowLogProperties.AggregateStepFails | Tagging.java:39-42 | A failure stays a failure, and one more bad line fails the call. |
| FlowLogProperties.AggregateOrderIndependent | Tagging.java:39-51 | Any rearrangement of the lines gives the same result, success or failure. |
| FlowLogProperties.ParseFieldsSpec | Tagging.java:40-42 | Tokens parse to a record iff there are at least seven tokens and tokens 5 and 6 are `int`s equal to its fields. |
| FlowLogProperties.ParseFieldsOnlyFiveAndSix | Tagging.java:41-42 | Token lists that agree on tokens 5 and 6 parse the same. |
| FlowLogProperties.ParseRecordOfWords | Tagging.java:40-42 | A line of whitespace-free words joined by one and the same whitespace run parses as its word list. |
| FlowLogProperties.ParseRecordLeadingSpace | Tagging.java:40-42 | With leading whitespace, the port and protocol are read from the fifth and sixth words. |
| FlowLogProperties.ParseRecordRoundTrip | Tagging.java:40-45 | Writing a record's fields in decimal as tokens 5 and 6 of a line and parsing the line gives the record back. |
| FlowLogProperties.IndexOfCommaAfter | Tagging.java:45 | In `port + "," + name`, the first comma is the one right after the port. |
| FlowLogProperties.SplitAtComma | Tagging.java:45 | Equal keys have equal parts before and after their first comma. |
| FlowLogProperties.LookupKeyInjective | Tagging.java:45 | Two records share a key iff they have the same port and the same protocol name. |
| SampleRun.SampleLine0 | Tagging.java:59 | The first sample line parses to port 443 and protocol number 49153. |
| SampleRun.SampleLine1 | Tagging.java:60 | The second sample line parses to port 23 and protocol number 49154. |
| SampleRun.SampleLine2 | Tagging.java:61 | The third sample line parses to port 25 and protocol number 49155. |
| SampleRun.SampleTags | Tagging.java:43-46 | The sample keys are `443,unknown`, `23,unknown` and `25,unknown`, and each is `Untagged` in the sample table. |
| SampleRun.SampleAggregate | Tagging.java:57-69 | The sample run produces `{Untagged=3}` and one count for each of the three keys. |
| SampleRun.RunSample | Tagging.java:57-69 | Running the loop on the sample lines and table returns exactly those two maps. |

## Left out

- Printing: the two `println` calls (Tagging.java:53-54) and the text form of a `HashMap`. `ParseFlowLogs` returns the two maps instead.
- `main` as a program entry point. It is modelled as the method `SampleRun.RunSample`.
- Exceptions: the exception types are not modelled. `ArrayIndexOutOfBoundsException` and `NumberFormatException` are both the single outcome `None`, which ends the whole call.
- Null lines, a null list and a null table are not modelled. Null keys and null values in the table are not modelled either. In Java a key mapped to `null` makes `getOrDefault` return `null`, and that `null` tag would then be counted. The lines are a `seq<string>`, and the table is a `map<string, string>` of non-null strings.
- Regular expressions: only the pattern `\s+` with Java's `split` limit 0 is modelled.
- `Integer.parseInt`: the non-ASCII decimal digits that `Character.digit` accepts are not modelled. Only `'0'`..`'9'` are digits.
- Counts: integer overflow is not modelled. The counts are unbounded integers, while the Java `Integer` count would wrap after 2^31-1 lines with the same tag or key.
- Hash-map iteration order, hashing and the time and space bounds in the closing comments are not modelled. The maps are Dafny maps.
- Case-insensitive protocol matching and loading the table from comma-delimited text: the code has neither. The table arrives already built, and keys are compared exactly.
- `SampleRun.Line0`, `Line1` and `Line2` are the sample lines' fields joined with single spaces, not the literal strings. The two are the same text.
