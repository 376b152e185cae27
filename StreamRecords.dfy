/**
 * The per-PID records of the transport-stream analyser and the registry that maps each
 * Packet Identifier to the latest record seen for it.
 */
module StreamRecords {
  import opened Common
  import opened Decimal
  import opened Lines

  /** PID 0x0000 is assigned to the Program Association Table (ISO/IEC 13818-1, Table 2-3). */
  const PatPid: u16 := 0
  /** Transport packets are 188 bytes long (ISO/IEC 13818-1, section 2.4.3). */
  const TsPacketSize: usize := 188

  /** One program of a Program Association Table. */
  datatype PatEntry = PatEntry(programNumber: u16, pmtPid: u16)

  /** One elementary stream of a Program Map Table; `streamType` is e.g. 0x02 for MPEG-2 video. */
  datatype PmtEntry = PmtEntry(streamPid: u16, streamType: u8)

  datatype Pmt = Pmt(entries: seq<PmtEntry>)

  /** The video codec carried by a stream. */
  datatype Codec = NONE | MPEG2 | H264 | H265

  /** The display name of a codec. */
  function CodecName(c: Codec): (name: string)
    ensures name != [] && '\n' !in name
    ensures name == "NONE" <==> c == NONE
  {
    match c
    case NONE => "NONE"
    case MPEG2 => "MPEG2"
    case H264 => "H264"
    case H265 => "H265"
  }

  /** Display names tell the codecs apart. */
  lemma CodecNameInjective(a: Codec, b: Codec)
    ensures CodecName(a) == CodecName(b) <==> a == b
  {
  }

  /**
   * The record kept for one transport packet or one PID. `packet` is the shared capture
   * buffer and (`packetStart`, `packetLen`) the view of it that holds this packet.
   */
  datatype StreamData = StreamData(
    pid: u16,
    pmtPid: u16,
    programNumber: u16,
    streamType: string,
    continuityCounter: u8,
    timestamp: u64,
    bitrate: u32,
    bitrateMax: u32,
    bitrateMin: u32,
    bitrateAvg: u32,
    iat: u64,
    iatMax: u64,
    iatMin: u64,
    iatAvg: u64,
    errorCount: u32,
    lastArrivalTime: u64,
    startTime: u64,
    totalBits: u64,
    count: u32,
    packet: seq<u8>,
    packetStart: usize,
    packetLen: usize,
    rtpTimestamp: u32,
    rtpPayloadType: u8,
    rtpPayloadTypeName: string,
    rtpLineNumber: u16,
    rtpLineOffset: u16,
    rtpLineLength: u16,
    rtpFieldId: u8,
    rtpLineContinuation: u8,
    rtpExtendedSequenceNumber: u16)

  // ---------------------------------------------------------------------------------------
  // Serialised form

  datatype JsonValue = JsonNumber(n: nat) | JsonString(s: string)

  function Keys(obj: seq<(string, JsonValue)>): seq<string> {
    seq(|obj|, i requires 0 <= i < |obj| => obj[i].0)
  }

  /** The keys of the serialised record: every field in declaration order except `packet`. */
  const SerializedFields: seq<string> := [
    "pid", "pmt_pid", "program_number", "stream_type", "continuity_counter", "timestamp",
    "bitrate", "bitrate_max", "bitrate_min", "bitrate_avg", "iat", "iat_max", "iat_min",
    "iat_avg", "error_count", "last_arrival_time", "start_time", "total_bits", "count",
    "packet_start", "packet_len", "rtp_timestamp", "rtp_payload_type",
    "rtp_payload_type_name", "rtp_line_number", "rtp_line_offset", "rtp_line_length",
    "rtp_field_id", "rtp_line_continuation", "rtp_extended_sequence_number"]

  /** Pairs each key with its value. */
  function Zip(keys: seq<string>, values: seq<JsonValue>): (obj: seq<(string, JsonValue)>)
    requires |keys| == |values|
    ensures Keys(obj) == keys
  {
    seq(|keys|, i requires 0 <= i < |keys| => (keys[i], values[i]))
  }

  /** The values of the serialised record, in the order of SerializedFields. */
  function SerializedValues(sd: StreamData): (vs: seq<JsonValue>)
    ensures |vs| == |SerializedFields|
  {
    [JsonNumber(sd.pid),
     JsonNumber(sd.pmtPid),
     JsonNumber(sd.programNumber),
     JsonString(sd.streamType),
     JsonNumber(sd.continuityCounter),
     JsonNumber(sd.timestamp),
     JsonNumber(sd.bitrate),
     JsonNumber(sd.bitrateMax),
     JsonNumber(sd.bitrateMin),
     JsonNumber(sd.bitrateAvg),
     JsonNumber(sd.iat),
     JsonNumber(sd.iatMax),
     JsonNumber(sd.iatMin),
     JsonNumber(sd.iatAvg),
     JsonNumber(sd.errorCount),
     JsonNumber(sd.lastArrivalTime),
     JsonNumber(sd.startTime),
     JsonNumber(sd.totalBits),
     JsonNumber(sd.count),
     JsonNumber(sd.packetStart),
     JsonNumber(sd.packetLen),
     JsonNumber(sd.rtpTimestamp),
     JsonNumber(sd.rtpPayloadType),
     JsonString(sd.rtpPayloadTypeName),
     JsonNumber(sd.rtpLineNumber),
     JsonNumber(sd.rtpLineOffset),
     JsonNumber(sd.rtpLineLength),
     JsonNumber(sd.rtpFieldId),
     JsonNumber(sd.rtpLineContinuation),
     JsonNumber(sd.rtpExtendedSequenceNumber)]
  }

  /** The JSON object serde writes for a record, as key/value pairs in field order. */
  function Serialize(sd: StreamData): (obj: seq<(string, JsonValue)>)
    ensures Keys(obj) == SerializedFields
    ensures forall i :: 0 <= i < |obj| ==> obj[i].1 == SerializedValues(sd)[i]
  {
    Zip(SerializedFields, SerializedValues(sd))
  }

  /**
   * The serialised record does not depend on the packet bytes and has no `packet` key,
   * while the view into the buffer is kept.
   */
  lemma SerializeSkipsPacket(sd: StreamData, bytes: seq<u8>)
    ensures Serialize(sd.(packet := bytes)) == Serialize(sd)
    ensures "packet" !in Keys(Serialize(sd))
    ensures ("packet_start", JsonNumber(sd.packetStart)) in Serialize(sd)
    ensures ("packet_len", JsonNumber(sd.packetLen)) in Serialize(sd)
  {
    var obj := Serialize(sd);
    assert SerializedFields[19] == "packet_start" && SerializedFields[20] == "packet_len";
    assert obj[19] == ("packet_start", JsonNumber(sd.packetStart));
    assert obj[20] == ("packet_len", JsonNumber(sd.packetLen));
  }

  // ---------------------------------------------------------------------------------------
  // The textual PID map

  /**
   * The literal pieces of the summary line's format string; the i-th value follows the
   * i-th piece. The first four introduce the key, the PMT PID, the program number and the
   * stream type; the rest introduce the statistics and the RTP fields.
   */
  const SummaryPieces: seq<string> := IdentityPieces + StatisticsPieces

  const IdentityPieces: seq<string> :=
    ["PID: ", ", PMT PID: ", ", Program Number: ", ", Stream Type: "]

  const StatisticsPieces: seq<string> := [
    ", Continuity Counter: ", ", Timestamp: ", ", Bitrate: ", ", Bitrate Max: ",
    ", Bitrate Min: ", ", Bitrate Avg: ", ", IAT: ", ", IAT Max: ", ", IAT Min: ",
    ", IAT Avg: ", ", Error Count: ", ", Last Arrival Time: ", ", Start Time: ",
    ", Total Bits: ", ", Count: ", ", RTP Timestamp: ", ", RTP Payload Type: ",
    ", RTP Payload Type Name: ", ", RTP Line Number: ", ", RTP Line Offset: ",
    ", RTP Line Length: ", ", RTP Field ID: ", ", RTP Line Continuation: ",
    ", RTP Extended Sequence Number: "]

  /** The values of the summary line of the record registered under `pid`, in order. */
  function SummaryValues(pid: u16, sd: StreamData): (vs: seq<string>)
    ensures |vs| == |SummaryPieces|
  {
    [DecimalString(pid), DecimalString(sd.pmtPid), DecimalString(sd.programNumber),
     sd.streamType] + StatisticsValues(sd)
  }

  function StatisticsValues(sd: StreamData): (vs: seq<string>)
    ensures |vs| == |StatisticsPieces|
  {
    [DecimalString(sd.continuityCounter), DecimalString(sd.timestamp),
     DecimalString(sd.bitrate), DecimalString(sd.bitrateMax), DecimalString(sd.bitrateMin),
     DecimalString(sd.bitrateAvg), DecimalString(sd.iat), DecimalString(sd.iatMax),
     DecimalString(sd.iatMin), DecimalString(sd.iatAvg), DecimalString(sd.errorCount),
     DecimalString(sd.lastArrivalTime), DecimalString(sd.startTime),
     DecimalString(sd.totalBits), DecimalString(sd.count), DecimalString(sd.rtpTimestamp),
     DecimalString(sd.rtpPayloadType), sd.rtpPayloadTypeName,
     DecimalString(sd.rtpLineNumber), DecimalString(sd.rtpLineOffset),
     DecimalString(sd.rtpLineLength), DecimalString(sd.rtpFieldId),
     DecimalString(sd.rtpLineContinuation), DecimalString(sd.rtpExtendedSequenceNumber)]
  }

  /** A format string applied to its arguments: piece 0, value 0, piece 1, value 1, ... */
  function Format(pieces: seq<string>, values: seq<string>): string
    requires |pieces| == |values|
  {
    if pieces == [] then "" else pieces[0] + values[0] + Format(pieces[1..], values[1..])
  }

  /** The summary line (without its line break) of the record registered under `pid`. */
  function SummaryLine(pid: u16, sd: StreamData): (line: string)
    ensures "PID: " + DecimalString(pid) + ", PMT PID: " <= line
  {
    var ps, vs := SummaryPieces, SummaryValues(pid, sd);
    FormatFirstTwo(ps, vs);
    Format(ps, vs)
  }

  /**
   * The line starts with the key, the PMT PID, the program number and the stream type, and
   * goes on with the statistics and the RTP fields.
   */
  lemma SummaryLineStart(pid: u16, sd: StreamData)
    ensures SummaryLine(pid, sd) ==
      "PID: " + DecimalString(pid) +
      (", PMT PID: " + DecimalString(sd.pmtPid) +
      (", Program Number: " + DecimalString(sd.programNumber) +
      (", Stream Type: " + sd.streamType +
      Format(StatisticsPieces, StatisticsValues(sd)))))
  {
    var ps, vs := SummaryPieces, SummaryValues(pid, sd);
    assert ps[4..] == StatisticsPieces;
    assert vs[4..] == StatisticsValues(sd);
    FormatFirstFour(ps, vs);
  }

  lemma FormatFirstTwo(ps: seq<string>, vs: seq<string>)
    requires |ps| == |vs| >= 2
    ensures Format(ps, vs) == ps[0] + vs[0] + (ps[1] + vs[1] + Format(ps[2..], vs[2..]))
  {
    assert ps[1..][1..] == ps[2..] && vs[1..][1..] == vs[2..];
  }

  lemma FormatFirstFour(ps: seq<string>, vs: seq<string>)
    requires |ps| == |vs| >= 4
    ensures Format(ps, vs) ==
      ps[0] + vs[0] + (ps[1] + vs[1] + (ps[2] + vs[2] + (ps[3] + vs[3] + Format(ps[4..], vs[4..]))))
  {
    FormatFirstTwo(ps, vs);
    FormatFirstTwo(ps[2..], vs[2..]);
    assert ps[2..][2..] == ps[4..] && vs[2..][2..] == vs[4..];
  }

  /** The strings of a record that are printed verbatim hold no line break. */
  predicate OnOneLine(sd: StreamData) {
    '\n' !in sd.streamType && '\n' !in sd.rtpPayloadTypeName
  }

  lemma {:induction false} FormatHasNoNewline(pieces: seq<string>, values: seq<string>)
    requires |pieces| == |values|
    requires forall i :: 0 <= i < |pieces| ==> '\n' !in pieces[i] && '\n' !in values[i]
    ensures '\n' !in Format(pieces, values)
    decreases |pieces|
  {
    if pieces != [] {
      FormatHasNoNewline(pieces[1..], values[1..]);
    }
  }

  lemma SummaryPiecesHaveNoNewline()
    ensures forall i :: 0 <= i < |SummaryPieces| ==> '\n' !in SummaryPieces[i]
  {
    StatisticsPiecesHaveNoNewline0();
    StatisticsPiecesHaveNoNewline1();
    StatisticsPiecesHaveNoNewline2();
    StatisticsPiecesHaveNoNewline3();
    assert forall i :: 0 <= i < |StatisticsPieces| ==> '\n' !in StatisticsPieces[i];
  }

  // The pieces are checked in groups of six, which keeps each proof small.

  lemma StatisticsPiecesHaveNoNewline0()
    ensures forall i :: 0 <= i < 6 ==> '\n' !in StatisticsPieces[i]
  {
  }

  lemma StatisticsPiecesHaveNoNewline1()
    ensures forall i :: 6 <= i < 12 ==> '\n' !in StatisticsPieces[i]
  {
  }

  lemma StatisticsPiecesHaveNoNewline2()
    ensures forall i :: 12 <= i < 18 ==> '\n' !in StatisticsPieces[i]
  {
  }

  lemma StatisticsPiecesHaveNoNewline3()
    ensures forall i :: 18 <= i < 24 ==> '\n' !in StatisticsPieces[i]
  {
  }

  lemma SummaryValuesHaveNoNewline(pid: u16, sd: StreamData)
    requires OnOneLine(sd)
    ensures forall i :: 0 <= i < |SummaryValues(pid, sd)| ==> '\n' !in SummaryValues(pid, sd)[i]
  {
    var ss := StatisticsValues(sd);
    assert forall i :: 0 <= i < |ss| ==> '\n' !in ss[i];
  }

  /** A summary line is one line of text whenever the record's strings are. */
  lemma SummaryLineHasNoNewline(pid: u16, sd: StreamData)
    requires OnOneLine(sd)
    ensures '\n' !in SummaryLine(pid, sd)
  {
    SummaryPiecesHaveNoNewline();
    SummaryValuesHaveNoNewline(pid, sd);
    FormatHasNoNewline(SummaryPieces, SummaryValues(pid, sd));
  }

  /** Different PIDs give different summary lines: each line starts with its own PID. */
  lemma SummaryLineDistinct(p: u16, q: u16, sd: StreamData, se: StreamData)
    requires p != q
    ensures SummaryLine(p, sd) != SummaryLine(q, se)
  {
    PidPrefixDistinct(p, q, SummaryLine(p, sd), SummaryLine(q, se));
  }

  /** A value printed after a label, and followed by text starting with a comma. */
  lemma PrefixAfterLabel(caption: string, value: string, after: string, line: string)
    requires after != [] && after[0] == ','
    requires caption + value + after <= line
    ensures value + [','] <= line[|caption|..]
  {
    var printed := caption + value + after;
    assert forall i :: 0 <= i < |value| ==> line[|caption| + i] == printed[|caption| + i] == value[i];
    assert line[|caption| + |value|] == printed[|caption| + |value|] == ',';
  }

  lemma PidPrefixDistinct(p: u16, q: u16, line: string, other: string)
    requires p != q
    requires "PID: " + DecimalString(p) + ", PMT PID: " <= line
    requires "PID: " + DecimalString(q) + ", PMT PID: " <= other
    ensures line != other
  {
    if line == other {
      var rest := line[5..];
      PrefixAfterLabel("PID: ", DecimalString(p), ", PMT PID: ", line);
      PrefixAfterLabel("PID: ", DecimalString(q), ", PMT PID: ", line);
      DigitRunUnique(DecimalString(p), DecimalString(q), ',', rest);
      DecimalStringInjective(p, q);
    }
  }

  // ---------------------------------------------------------------------------------------
  // The registry

  /** `order` lists every key of the registry exactly once, in some order. */
  ghost predicate IsEnumeration(order: seq<u16>, keys: set<u16>) {
    multiset(order) == multiset(keys)
  }

  /** The summary lines of the entries visited in `order`. */
  function SummaryLines(m: map<u16, StreamData>, order: seq<u16>): seq<string>
    requires forall k :: k in order ==> k in m
  {
    seq(|order|, i requires 0 <= i < |order| => SummaryLine(order[i], m[order[i]]))
  }

  /** The text of the PID map when its entries are visited in `order`: one line per entry. */
  function Render(m: map<u16, StreamData>, order: seq<u16>): string
    requires forall k :: k in order ==> k in m
  {
    JoinLines(SummaryLines(m, order))
  }

  /** Visiting one more entry appends that entry's summary line to the text. */
  lemma RenderSnoc(m: map<u16, StreamData>, order: seq<u16>, pid: u16)
    requires forall k :: k in order ==> k in m
    requires pid in m
    ensures Render(m, order + [pid]) == Render(m, order) + SummaryLine(pid, m[pid]) + "\n"
  {
    var summary := SummaryLine(pid, m[pid]);
    assert SummaryLines(m, order + [pid]) == SummaryLines(m, order) + [summary];
    JoinLinesSnoc(SummaryLines(m, order), summary);
  }

  lemma SummaryLinesHaveNoNewline(m: map<u16, StreamData>, order: seq<u16>)
    requires forall k :: k in order ==> k in m
    requires forall k :: k in m ==> OnOneLine(m[k])
    ensures forall i :: 0 <= i < |order| ==> '\n' !in SummaryLines(m, order)[i]
  {
    forall i | 0 <= i < |order| ensures '\n' !in SummaryLines(m, order)[i] {
      SummaryLineHasNoNewline(order[i], m[order[i]]);
    }
  }

  /**
   * Whatever order the entries are visited in, the PID map has exactly one line per
   * registered PID, and the line of every PID is among them.
   */
  lemma PidMapLines(m: map<u16, StreamData>, order: seq<u16>)
    requires IsEnumeration(order, m.Keys)
    requires forall k :: k in m ==> OnOneLine(m[k])
    ensures forall k :: k in order ==> k in m
    ensures |SplitLines(Render(m, order))| == |m|
    ensures multiset(Render(m, order))['\n'] == |m|
    ensures forall k :: k in m ==> SummaryLine(k, m[k]) in SplitLines(Render(m, order))
    ensures forall line :: line in SplitLines(Render(m, order)) ==>
              exists k :: k in m && line == SummaryLine(k, m[k])
  {
    EnumerationFacts(order, m.Keys);
    var lines := SummaryLines(m, order);
    SummaryLinesHaveNoNewline(m, order);
    SplitJoinLines(lines);
    JoinLinesNewlineCount(lines);
    SummaryLinesPerKey(m, order);
  }

  /** Visiting every key once gives the line of every key, and only such lines. */
  lemma SummaryLinesPerKey(m: map<u16, StreamData>, order: seq<u16>)
    requires forall k :: k in order <==> k in m
    ensures forall k :: k in m ==> SummaryLine(k, m[k]) in SummaryLines(m, order)
    ensures forall line :: line in SummaryLines(m, order) ==>
              exists k :: k in m && line == SummaryLine(k, m[k])
  {
    var lines := SummaryLines(m, order);
    forall k | k in m ensures SummaryLine(k, m[k]) in lines {
      var i :| 0 <= i < |order| && order[i] == k;
      assert lines[i] == SummaryLine(k, m[k]);
    }
    forall line | line in lines ensures exists k :: k in m && line == SummaryLine(k, m[k]) {
      var i :| 0 <= i < |lines| && lines[i] == line;
      assert line == SummaryLine(order[i], m[order[i]]);
    }
  }

  lemma EnumerationFacts(order: seq<u16>, keys: set<u16>)
    requires IsEnumeration(order, keys)
    ensures |order| == |keys|
    ensures forall k :: k in order <==> k in keys
  {
    assert forall k :: k in order <==> k in multiset(order);
    assert |order| == |multiset(order)| == |multiset(keys)| == |keys|;
  }

  /** An enumeration of a set lists no element twice. */
  lemma EnumerationHasNoRepeats(order: seq<u16>, keys: set<u16>)
    requires IsEnumeration(order, keys)
    ensures forall i, j :: 0 <= i < j < |order| ==> order[i] != order[j]
  {
    forall i, j | 0 <= i < j < |order|
      ensures order[i] != order[j]
    {
      var k := order[i];
      var front, back := order[..j], order[j..];
      assert order == front + back;
      assert front[i] == k && back[0] == order[j];
      assert multiset(order)[k] == multiset(front)[k] + multiset(back)[k];
      assert multiset(keys)[k] <= 1;
    }
  }

  /** The lines of the PID map are pairwise different: no PID is listed twice. */
  lemma PidMapLinesDistinct(m: map<u16, StreamData>, order: seq<u16>)
    requires IsEnumeration(order, m.Keys)
    requires forall k :: k in m ==> OnOneLine(m[k])
    ensures forall k :: k in order ==> k in m
    ensures forall i, j :: 0 <= i < j < |SplitLines(Render(m, order))| ==>
              SplitLines(Render(m, order))[i] != SplitLines(Render(m, order))[j]
  {
    EnumerationFacts(order, m.Keys);
    EnumerationHasNoRepeats(order, m.Keys);
    var lines := SummaryLines(m, order);
    SummaryLinesHaveNoNewline(m, order);
    SplitJoinLines(lines);
    forall i, j | 0 <= i < j < |lines|
      ensures lines[i] != lines[j]
    {
      SummaryLineDistinct(order[i], order[j], m[order[i]], m[order[j]]);
    }
  }

  /**
   * A registry can hold at most one record per 16-bit PID, so at most 65536 records.
   */
  lemma RegistrySizeBound(m: map<u16, StreamData>)
    ensures |m| <= 0x1_0000
  {
    var keys: set<int> := m.Keys;
    RangeSubsetSize(keys, 0, 0x1_0000);
  }

  /** Moving one key from the unvisited keys to the visit order keeps the order a permutation of the visited keys. */
  lemma VisitStep(order: seq<u16>, keys: set<u16>, remaining: set<u16>, pid: u16)
    requires remaining <= keys && pid in remaining
    requires multiset(order) == multiset(keys - remaining)
    ensures multiset(order + [pid]) == multiset(keys - (remaining - {pid}))
  {
    assert keys - (remaining - {pid}) == (keys - remaining) + {pid};
    assert pid !in keys - remaining;
  }

  /**
   * The process-wide map from PID to the latest record seen for it. The map's keys are
   * 16-bit PIDs, and a map holds at most one record per key.
   */
  class PidRegistry {
    var entries: map<u16, StreamData>

    /** The registry starts empty. */
    constructor ()
      ensures entries == map[]
    {
      entries := map[];
    }

    /** Records `data` as the latest record of `pid`, replacing any earlier one. */
    method Insert(pid: u16, data: StreamData)
      modifies this
      ensures entries == old(entries)[pid := data]
      ensures |entries| <= 0x1_0000
    {
      entries := entries[pid := data];
      RegistrySizeBound(entries);
    }

    /**
     * The PID map as text: one summary line, ended by a line break, per registered PID,
     * in the unspecified order of a walk over the map (`order`). The registry is only read.
     */
    method PidMap() returns (result: string, ghost order: seq<u16>)
      ensures IsEnumeration(order, entries.Keys)
      ensures forall k :: k in order ==> k in entries
      ensures result == Render(entries, order)
      ensures entries == map[] ==> result == ""
    {
      result := "";
      order := [];
      var remaining := entries.Keys;
      while remaining != {}
        invariant remaining <= entries.Keys
        invariant multiset(order) == multiset(entries.Keys - remaining)
        invariant forall k :: k in order ==> k in entries
        invariant result == Render(entries, order)
        decreases |remaining|
      {
        var pid :| pid in remaining;
        var summary := SummaryLine(pid, entries[pid]);
        result := result + summary + "\n";
        RenderSnoc(entries, order, pid);
        VisitStep(order, entries.Keys, remaining, pid);
        order := order + [pid];
        remaining := remaining - {pid};
      }
      assert entries.Keys - remaining == entries.Keys;
    }
  }
}
