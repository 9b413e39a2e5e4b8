/** The launcher: the MPJ configuration record of a cluster launch and the
    dispatch of one configured task to its worker processes. The worker
    processes themselves are outside the model; what the launcher learns from
    them is one exit code per process. */
module Task {
  import opened Base
  import opened Strings
  import opened Utility
  import opened TaskConfiguration

  /* ---------------------------------------------------------------------- */
  /* The MPJ configuration record (`createMPJConfigFile`)                    */
  /* ---------------------------------------------------------------------- */

  /** The protocol-switch limit, always the second line of the record. */
  const ProtocolSwitchLimit: string := "131072"

  /** One rank of a cluster launch: its host, its two ports and its index. */
  datatype RankAssignment = RankAssignment(host: string, portA: int, portB: int, rank: int)

  /** `portRange.split("-")` followed by `toInt()` of both parts. Neither bound
      can be negative, since a minus sign would add a part. */
  function ParsePortRange(range: string): (r: Result<(int, int)>)
    ensures r.Ok? ==> 0 <= r.value.0 && 0 <= r.value.1 && IsInt32(r.value.0) && IsInt32(r.value.1)
    ensures |Split(range, '-')| != 2 ==> r == Err(InvalidPortRange(range))
    ensures r.Ok? <==> |Split(range, '-')| == 2 && ParseInt32(Split(range, '-')[0]).Some? &&
                       ParseInt32(Split(range, '-')[1]).Some?
  {
    var parts := Split(range, '-');
    if |parts| != 2 then Err(InvalidPortRange(range))
    else
      match ParseInt32(parts[0])
      case None => Err(NotANumber(parts[0]))
      case Some(low) =>
        match ParseInt32(parts[1])
        case None => Err(NotANumber(parts[1]))
        case Some(high) =>
          ParseInt32Unsigned(parts[0]);
          ParseInt32Unsigned(parts[1]);
          Ok((low, high))
  }

  /** A port range as a configuration writes it. */
  function PortRangeText(low: nat, high: nat): string
  {
    NatToString(low) + "-" + NatToString(high)
  }

  lemma PortRangeRoundTrip(low: nat, high: nat)
    requires IsInt32(low) && IsInt32(high)
    ensures ParsePortRange(PortRangeText(low, high)) == Ok((low, high))
  {
    NatToStringHasNo(low, '-');
    NatToStringHasNo(high, '-');
    SplitAtFirst(NatToString(low), '-', NatToString(high));
    SplitNoSeparator(NatToString(high), '-');
    IntToStringRoundTrip(low);
    IntToStringRoundTrip(high);
  }

  /** Host i of the list gets ports low+2i and low+2i+1 and rank i. */
  function Assign(hosts: seq<string>, low: int): (r: seq<RankAssignment>)
    ensures |r| == |hosts|
  {
    seq(|hosts|, i requires 0 <= i < |hosts| => RankAssignment(hosts[i], low + 2 * i, low + 2 * i + 1, i))
  }

  /** The loop checks, after each host, that the next free port does not pass
      the upper end; n hosts therefore fit iff low + 2n <= high, and an empty
      host list is never checked. */
  predicate PortsSuffice(n: nat, low: int, high: int)
  {
    n == 0 || low + 2 * n <= high
  }

  /** The rank table of a cluster launch, or the error that stops it. */
  function Allocate(hosts: seq<string>, range: string): (r: Result<seq<RankAssignment>>)
    ensures ParsePortRange(range).Err? ==> r == Err(ParsePortRange(range).error)
    ensures r.Ok? <==> ParsePortRange(range).Ok? &&
                       PortsSuffice(|hosts|, ParsePortRange(range).value.0, ParsePortRange(range).value.1)
    ensures r.Err? && ParsePortRange(range).Ok? ==> r.error == OutOfPorts
    ensures r.Ok? ==> |r.value| == |hosts|
  {
    var bounds :- ParsePortRange(range);
    if PortsSuffice(|hosts|, bounds.0, bounds.1) then Ok(Assign(hosts, bounds.0)) else Err(OutOfPorts)
  }

  /** The table is dense and in host order, each rank's two ports are
      consecutive and inside the range, and no port is handed out twice. The
      last port of the range is never assigned. */
  lemma AllocationSound(hosts: seq<string>, range: string)
    requires Allocate(hosts, range).Ok?
    ensures var rs := Allocate(hosts, range).value;
            var low, high := ParsePortRange(range).value.0, ParsePortRange(range).value.1;
            |rs| == |hosts| && IsInt32(|rs|) &&
            (forall i :: 0 <= i < |rs| ==>
               rs[i].host == hosts[i] && rs[i].rank == i &&
               low <= rs[i].portA && rs[i].portB == rs[i].portA + 1 && rs[i].portB < high &&
               IsInt32(rs[i].portA) && IsInt32(rs[i].portB)) &&
            (forall i, j :: 0 <= i < j < |rs| ==> rs[i].portB < rs[j].portA)
  {
  }

  /** `"$host@$usedPort@${usedPort+1}@$rank$0"`: the `$0` is literal text. */
  function HostLine(a: RankAssignment): (r: string)
    ensures |r| >= |a.host| + 3 && r[..|a.host| + 1] == a.host + "@" && r[|r| - 2..] == "$0"
  {
    a.host + "@" + IntToString(a.portA) + "@" + IntToString(a.portB) + "@" + IntToString(a.rank) + "$0"
  }

  function HostLines(rs: seq<RankAssignment>): (r: seq<string>)
    ensures |r| == |rs|
  {
    if |rs| == 0 then [] else [HostLine(rs[0])] + HostLines(rs[1..])
  }

  /** Line i of the rank lines describes rank i. */
  lemma {:induction false} HostLinesAt(rs: seq<RankAssignment>, i: nat)
    requires i < |rs|
    ensures HostLines(rs)[i] == HostLine(rs[i])
  {
    var lines := HostLines(rs);
    assert lines == [HostLine(rs[0])] + HostLines(rs[1..]);
    if i > 0 {
      HostLinesAt(rs[1..], i - 1);
      assert rs[1..][i - 1] == rs[i];
    }
  }

  /** The rank lines of two tables one after the other. */
  lemma {:induction false} HostLinesAppend(a: seq<RankAssignment>, b: seq<RankAssignment>)
    ensures HostLines(a + b) == HostLines(a) + HostLines(b)
  {
    if |a| > 0 {
      assert (a + b)[1..] == a[1..] + b;
      HostLinesAppend(a[1..], b);
    } else {
      assert a + b == b;
    }
  }

  /** The record: host count, the protocol-switch limit, one line per rank. */
  function Record(rs: seq<RankAssignment>): seq<string>
  {
    [IntToString(|rs|), ProtocolSwitchLimit] + HostLines(rs)
  }

  /** The content of `mpj.config` for a host list and a port range. */
  function MpjConfig(hosts: seq<string>, range: string): (r: Result<seq<string>>)
    ensures r.Ok? <==> Allocate(hosts, range).Ok?
    ensures r.Err? ==> r.error == Allocate(hosts, range).error
    ensures r.Ok? ==> |r.value| == |hosts| + 2 && r.value[0] == IntToString(|hosts|) &&
                      r.value[1] == ProtocolSwitchLimit
  {
    var rs :- Allocate(hosts, range);
    Ok(Record(rs))
  }

  /** The record for a range that parses to (low, high). */
  lemma MpjConfigOfBounds(hosts: seq<string>, range: string, low: int, high: int)
    requires ParsePortRange(range) == Ok((low, high))
    ensures MpjConfig(hosts, range) ==
            if PortsSuffice(|hosts|, low, high) then Ok(Record(Assign(hosts, low))) else Err(OutOfPorts)
  {
  }

  /** Appending rank k's line to the lines of ranks 0..k-1 gives the lines of ranks 0..k. */
  lemma HostLinesStep(header: seq<string>, rs: seq<RankAssignment>, k: nat)
    requires k < |rs|
    ensures header + HostLines(rs[..k]) + [HostLine(rs[k])] == header + HostLines(rs[..k + 1])
  {
    assert rs[..k + 1] == rs[..k] + [rs[k]];
    HostLinesAppend(rs[..k], [rs[k]]);
  }

  /** `createMPJConfigFile`: the range is parsed, then the hosts are written. */
  method CreateMpjConfigFile(hosts: seq<string>, range: string) returns (r: Result<seq<string>>)
    ensures r == MpjConfig(hosts, range)
  {
    var bounds :- ParsePortRange(range);
    MpjConfigOfBounds(hosts, range, bounds.0, bounds.1);
    r := WriteRanks(hosts, bounds.0, bounds.1);
  }

  /** The loop of `createMPJConfigFile` over the hosts, with the port cursor
      and the bound check after each line. */
  method WriteRanks(hosts: seq<string>, low: int, high: int) returns (r: Result<seq<string>>)
    ensures r == if PortsSuffice(|hosts|, low, high) then Ok(Record(Assign(hosts, low))) else Err(OutOfPorts)
  {
    ghost var table := Assign(hosts, low);
    ghost var header := [IntToString(|hosts|), ProtocolSwitchLimit];
    var lines := [IntToString(|hosts|), ProtocolSwitchLimit];
    var usedPort := low;
    var rank := 0;
    while rank < |hosts|
      invariant 0 <= rank <= |hosts|
      invariant usedPort == low + 2 * rank
      invariant rank == 0 || usedPort <= high
      invariant lines == header + HostLines(table[..rank])
    {
      HostLinesStep(header, table, rank);
      lines := lines + [HostLine(RankAssignment(hosts[rank], usedPort, usedPort + 1, rank))];
      usedPort := usedPort + 2;
      if usedPort > high {
        return Err(OutOfPorts);
      }
      rank := rank + 1;
    }
    assert table[..rank] == table;
    return Ok(lines);
  }

  /* Reading the record back, as the MPJ runtime of a worker does. */

  function ReadHostLine(line: string): Option<RankAssignment>
  {
    var parts := Split(line, '@');
    if |parts| != 4 then None
    else
      var last := parts[3];
      if |last| < 2 || last[|last| - 2..] != "$0" then None
      else
        match (ParseInt32(parts[1]), ParseInt32(parts[2]), ParseInt32(last[..|last| - 2]))
        case (Some(a), Some(b), Some(k)) => Some(RankAssignment(parts[0], a, b, k))
        case _ => None
  }

  function ReadHostLines(lines: seq<string>): Option<seq<RankAssignment>>
  {
    if |lines| == 0 then Some([])
    else
      match (ReadHostLine(lines[0]), ReadHostLines(lines[1..]))
      case (Some(a), Some(rest)) => Some([a] + rest)
      case _ => None
  }

  function ReadRecord(lines: seq<string>): Option<seq<RankAssignment>>
  {
    if |lines| < 2 || lines[1] != ProtocolSwitchLimit then None
    else
      match ParseInt32(lines[0])
      case None => None
      case Some(n) => if n != |lines| - 2 then None else ReadHostLines(lines[2..])
  }

  lemma IntToStringHasNo(i: int, c: char)
    requires !IsDigit(c) && c != '-'
    ensures c !in IntToString(i)
  {
    if i < 0 {
      NatToStringHasNo(-i, c);
      assert IntToString(i) == ['-'] + NatToString(-i);
    } else {
      NatToStringHasNo(i, c);
    }
  }

  predicate Readable(a: RankAssignment)
  {
    '@' !in a.host && IsInt32(a.portA) && IsInt32(a.portB) && IsInt32(a.rank)
  }

  lemma HostLineNested(a: RankAssignment)
    ensures HostLine(a) == a.host + ['@'] + (IntToString(a.portA) + ['@'] +
                            (IntToString(a.portB) + ['@'] + (IntToString(a.rank) + "$0")))
  {
  }

  /** A host line splits at '@' into the host, the two ports and the rank with its suffix. */
  lemma HostLineParts(a: RankAssignment)
    requires Readable(a)
    ensures Split(HostLine(a), '@') == [a.host, IntToString(a.portA), IntToString(a.portB), IntToString(a.rank) + "$0"]
  {
    var pa, pb, rk := IntToString(a.portA), IntToString(a.portB), IntToString(a.rank);
    var last := rk + "$0";
    IntToStringHasNo(a.portA, '@');
    IntToStringHasNo(a.portB, '@');
    IntToStringHasNo(a.rank, '@');
    assert '@' !in last;
    HostLineNested(a);
    SplitAtFirst(a.host, '@', pa + ['@'] + (pb + ['@'] + last));
    SplitAtFirst(pa, '@', pb + ['@'] + last);
    SplitAtFirst(pb, '@', last);
    SplitNoSeparator(last, '@');
  }

  lemma HostLineRoundTrip(a: RankAssignment)
    requires Readable(a)
    ensures ReadHostLine(HostLine(a)) == Some(a)
  {
    var last := IntToString(a.rank) + "$0";
    HostLineParts(a);
    assert last[|last| - 2..] == "$0" && last[..|last| - 2] == IntToString(a.rank);
    IntToStringRoundTrip(a.portA);
    IntToStringRoundTrip(a.portB);
    IntToStringRoundTrip(a.rank);
  }

  /** Lines each of which reads as one rank read, together, as those ranks. */
  lemma {:induction false} ReadEachLine(lines: seq<string>, rs: seq<RankAssignment>)
    requires |lines| == |rs|
    requires forall i :: 0 <= i < |lines| ==> ReadHostLine(lines[i]) == Some(rs[i])
    ensures ReadHostLines(lines) == Some(rs)
  {
    if |lines| > 0 {
      ReadEachLine(lines[1..], rs[1..]);
      assert [rs[0]] + rs[1..] == rs;
    }
  }

  lemma HostLinesRoundTrip(rs: seq<RankAssignment>)
    requires forall i :: 0 <= i < |rs| ==> Readable(rs[i])
    ensures ReadHostLines(HostLines(rs)) == Some(rs)
  {
    forall i | 0 <= i < |rs|
      ensures ReadHostLine(HostLines(rs)[i]) == Some(rs[i])
    {
      HostLinesAt(rs, i);
      HostLineRoundTrip(rs[i]);
    }
    ReadEachLine(HostLines(rs), rs);
  }

  /** A worker reading the record finds exactly the rank table it was built
      from, provided no host name contains '@'. */
  lemma MpjConfigRoundTrip(hosts: seq<string>, range: string)
    requires MpjConfig(hosts, range).Ok?
    requires forall i :: 0 <= i < |hosts| ==> '@' !in hosts[i]
    ensures ReadRecord(MpjConfig(hosts, range).value) == Some(Allocate(hosts, range).value)
  {
    var rs := Allocate(hosts, range).value;
    AllocationSound(hosts, range);
    var lines := Record(rs);
    IntToStringRoundTrip(|rs|);
    assert lines[2..] == HostLines(rs);
    HostLinesRoundTrip(rs);
  }

  lemma AllocateOfRange(hosts: seq<string>, low: nat, high: nat)
    requires IsInt32(low) && IsInt32(high)
    ensures Allocate(hosts, PortRangeText(low, high)) ==
            if PortsSuffice(|hosts|, low, high) then Ok(Assign(hosts, low)) else Err(OutOfPorts)
  {
    PortRangeRoundTrip(low, high);
  }

  /** Three hosts take ranks 0, 1, 2 and the ports low to low+5 when the range
      reaches low+6 (5000-5010, say), and fail when it does not (5000-5004). */
  lemma ThreeHosts(h1: string, h2: string, h3: string, low: nat, high: nat)
    requires IsInt32(low) && IsInt32(high)
    ensures low + 6 <= high ==>
              Allocate([h1, h2, h3], PortRangeText(low, high)) ==
              Ok([RankAssignment(h1, low, low + 1, 0), RankAssignment(h2, low + 2, low + 3, 1),
                  RankAssignment(h3, low + 4, low + 5, 2)])
    ensures high < low + 6 ==> Allocate([h1, h2, h3], PortRangeText(low, high)) == Err(OutOfPorts)
  {
    AllocateOfRange([h1, h2, h3], low, high);
    var t := Assign([h1, h2, h3], low);
    assert t == [t[0], t[1], t[2]];
  }

  /* The loop as written: the port cursor is a JVM `Int`. */

  /** The loop of `createMPJConfigFile` with 32-bit wrap-around on
      `usedPort + 1` and `usedPort += 2`. */
  function WalkAsWritten(hosts: seq<string>, rank: nat, usedPort: int, high: int): (r: Result<seq<string>>)
    requires rank <= |hosts|
    ensures r.Ok? ==> |r.value| == |hosts| - rank
    ensures r.Err? ==> r.error == OutOfPorts
    decreases |hosts| - rank
  {
    if rank == |hosts| then Ok([])
    else
      var line := HostLine(RankAssignment(hosts[rank], usedPort, Wrap32(usedPort + 1), rank));
      var next := Wrap32(usedPort + 2);
      if next > high then Err(OutOfPorts)
      else
        var rest :- WalkAsWritten(hosts, rank + 1, next, high);
        Ok([line] + rest)
  }

  function MpjConfigAsWritten(hosts: seq<string>, range: string): (r: Result<seq<string>>)
    ensures ParsePortRange(range).Err? ==> r == Err(ParsePortRange(range).error)
    ensures r.Ok? ==> |r.value| == |hosts| + 2 && r.value[..2] == [IntToString(|hosts|), ProtocolSwitchLimit]
  {
    var bounds :- ParsePortRange(range);
    var body :- WalkAsWritten(hosts, 0, bounds.0, bounds.1);
    Ok([IntToString(|hosts|), ProtocolSwitchLimit] + body)
  }

  /** One step of the loop as written, where no wrap-around happens. */
  lemma WalkStep(hosts: seq<string>, k: nat, used: int, high: int)
    requires k < |hosts| && Int32Min <= used && used + 2 <= Int32Max
    ensures WalkAsWritten(hosts, k, used, high) ==
            if used + 2 > high then Err(OutOfPorts)
            else match WalkAsWritten(hosts, k + 1, used + 2, high)
                 case Err(e) => Err(e)
                 case Ok(rest) => Ok([HostLine(RankAssignment(hosts[k], used, used + 1, k))] + rest)
  {
    assert Wrap32(used + 1) == used + 1 && Wrap32(used + 2) == used + 2;
  }

  /** What the loop as written produces from host k on, in the model's terms. */
  function WalkResult(hosts: seq<string>, low: int, high: int, k: nat): Result<seq<string>>
    requires k <= |hosts|
  {
    if PortsSuffice(|hosts|, low, high) then Ok(HostLines(Assign(hosts, low)[k..])) else Err(OutOfPorts)
  }

  lemma HostLinesCons(rs: seq<RankAssignment>, k: nat)
    requires k < |rs|
    ensures HostLines(rs[k..]) == [HostLine(rs[k])] + HostLines(rs[k + 1..])
  {
    assert rs[k..][1..] == rs[k + 1..];
  }

  lemma WalkStops(hosts: seq<string>, low: int, high: int, k: nat)
    requires k < |hosts| && 0 <= low && low + 2 * k + 2 <= Int32Max && low + 2 * k + 2 > high
    ensures WalkAsWritten(hosts, k, low + 2 * k, high) == WalkResult(hosts, low, high, k)
  {
    WalkStep(hosts, k, low + 2 * k, high);
  }

  lemma WalkContinues(hosts: seq<string>, low: int, high: int, k: nat)
    requires k < |hosts| && 0 <= low && low + 2 * k + 2 <= Int32Max && low + 2 * (k + 1) <= high
    requires WalkAsWritten(hosts, k + 1, low + 2 * (k + 1), high) == WalkResult(hosts, low, high, k + 1)
    ensures WalkAsWritten(hosts, k, low + 2 * k, high) == WalkResult(hosts, low, high, k)
  {
    var table := Assign(hosts, low);
    WalkStep(hosts, k, low + 2 * k, high);
    HostLinesCons(table, k);
    assert table[k] == RankAssignment(hosts[k], low + 2 * k, low + 2 * k + 1, k);
  }

  lemma WalkEnd(hosts: seq<string>, low: int, high: int)
    requires 0 <= low <= Int32Max - 2 && (|hosts| == 0 || low + 2 * |hosts| <= high)
    ensures WalkAsWritten(hosts, |hosts|, low + 2 * |hosts|, high) == WalkResult(hosts, low, high, |hosts|)
  {
    assert Assign(hosts, low)[|hosts|..] == [];
  }

  lemma {:induction false} WalkAgrees(hosts: seq<string>, low: int, high: int, k: nat)
    requires k <= |hosts| && 0 <= low <= Int32Max - 2 && high <= Int32Max - 2
    requires k == 0 || low + 2 * k <= high
    ensures WalkAsWritten(hosts, k, low + 2 * k, high) == WalkResult(hosts, low, high, k)
    decreases |hosts| - k
  {
    if k == |hosts| {
      WalkEnd(hosts, low, high);
    } else if low + 2 * k + 2 > high {
      WalkStops(hosts, low, high, k);
    } else {
      WalkAgrees(hosts, low, high, k + 1);
      WalkContinues(hosts, low, high, k);
    }
  }

  /** While no port value comes near the top of `Int`, the loop as written
      computes the record of the model. */
  lemma AsWrittenAgrees(hosts: seq<string>, range: string)
    requires ParsePortRange(range).Ok?
    requires ParsePortRange(range).value.0 <= Int32Max - 2 && ParsePortRange(range).value.1 <= Int32Max - 2
    ensures MpjConfigAsWritten(hosts, range) == MpjConfig(hosts, range)
  {
    var low, high := ParsePortRange(range).value.0, ParsePortRange(range).value.1;
    WalkAgrees(hosts, low, high, 0);
    assert Assign(hosts, low)[0..] == Assign(hosts, low);
  }

  /** At the top of `Int` the cursor wraps to a negative number and passes the
      bound check, so the walk as written places one host at the last port. */
  lemma WalkPastTop(host: string, top: int)
    requires top == Int32Max
    ensures WalkAsWritten([host], 0, top, top) == Ok([HostLine(RankAssignment(host, top, Int32Min, 0))])
  {
    var next := Wrap32(top + 2);
    assert next == Int32Min + 1;
    assert Wrap32(top + 1) == Int32Min;
    assert !(next > top);
    assert WalkAsWritten([host], 1, next, top) == Ok([]);
    var line := HostLine(RankAssignment(host, top, Int32Min, 0));
    assert [host][0] == host;
    assert WalkAsWritten([host], 0, top, top) == Ok([line] + []);
    assert [line] + [] == [line];
  }

  /** The as-written file is the header followed by the walk over the parsed range. */
  lemma AsWrittenOfRange(hosts: seq<string>, range: string, low: int, high: int, body: seq<string>)
    requires ParsePortRange(range) == Ok((low, high))
    requires WalkAsWritten(hosts, 0, low, high) == Ok(body)
    ensures MpjConfigAsWritten(hosts, range).Ok?
    ensures MpjConfigAsWritten(hosts, range).value[2..] == body
  {
    var header := [IntToString(|hosts|), ProtocolSwitchLimit];
    assert MpjConfigAsWritten(hosts, range) == Ok(header + body);
    assert (header + body)[2..] == body;
  }

  /** One host and the range 2147483647-2147483647 are accepted as written,
      with a second port of -2147483648, where the range holds no pair. */
  lemma OverflowAccepted(host: string, range: string, top: int)
    requires top == Int32Max && ParsePortRange(range) == Ok((top, top))
    ensures MpjConfigAsWritten([host], range).Ok?
    ensures MpjConfigAsWritten([host], range).value[2..] == [HostLine(RankAssignment(host, top, Int32Min, 0))]
  {
    WalkPastTop(host, top);
    AsWrittenOfRange([host], range, top, top, [HostLine(RankAssignment(host, top, Int32Min, 0))]);
  }

  /** The corrected allocation refuses the same host and range. */
  lemma TopRangeRefused(host: string, range: string, top: int)
    requires top == Int32Max && ParsePortRange(range) == Ok((top, top))
    ensures MpjConfig([host], range) == Err(OutOfPorts)
  {
    assert !PortsSuffice(1, top, top);
  }

  /** The dispatcher's record differs from the file as written one step below
      the top as well: one host on 2147483646-2147483647 gets the ports
      2147483646 and 2147483647 as written, because the cursor wraps to
      -2147483648, while the corrected allocation keeps the last port back. */
  lemma NearTopAccepted(host: string, range: string, low: int)
    requires low == Int32Max - 1 && ParsePortRange(range) == Ok((low, Int32Max))
    ensures MpjConfigAsWritten([host], range).Ok?
    ensures MpjConfigAsWritten([host], range).value[2..] == [HostLine(RankAssignment(host, low, Int32Max, 0))]
    ensures MpjConfig([host], range) == Err(OutOfPorts)
  {
    var next := Wrap32(low + 2);
    assert next == Int32Min;
    assert Wrap32(low + 1) == Int32Max;
    assert WalkAsWritten([host], 1, next, Int32Max) == Ok([]);
    var line := HostLine(RankAssignment(host, low, Int32Max, 0));
    assert [host][0] == host;
    assert WalkAsWritten([host], 0, low, Int32Max) == Ok([line] + []);
    assert [line] + [] == [line];
    AsWrittenOfRange([host], range, low, Int32Max, [line]);
    assert !PortsSuffice(1, low, Int32Max);
  }

  /** Such a range exists: the text "2147483647-2147483647". */
  lemma TopRangeParses()
    ensures ParsePortRange(PortRangeText(Int32Max, Int32Max)) == Ok((Int32Max, Int32Max))
  {
    PortRangeRoundTrip(Int32Max, Int32Max);
  }

  /* ---------------------------------------------------------------------- */
  /* Dispatch (`executeTask`)                                                */
  /* ---------------------------------------------------------------------- */

  /** What the launcher reads from the machine it runs on: system properties,
      the environment variables MPJ_HOME and PATH, and which paths are
      directories. */
  datatype Environment = Environment(
    javaHome: string,
    osName: string,
    classPath: string,
    userDir: string,
    mpjHomeVar: Option<string>,
    pathVar: Option<string>,
    directories: set<string>)

  /** `File(path).absolutePath`, resolved against the working directory. */
  function AbsolutePath(env: Environment, path: string): (r: string)
    ensures |path| > 0 && path[0] == '/' ==> r == path
    ensures |r| >= |path| && r[|r| - |path|..] == path
    ensures |env.userDir| > 0 && env.userDir[0] == '/' ==> |r| > 0 && r[0] == '/'
  {
    if |path| > 0 && path[0] == '/' then path else env.userDir + "/" + path
  }

  /** A process to start: its argument vector and its extra environment. */
  datatype Launch = Launch(argv: seq<string>, vars: Option<seq<string>>)

  /** One local process (`guardedProcess`), or one remote process per host
      (`guardedRemoteProcess`) after the record has been written. */
  datatype Plan =
    | Local(launch: Launch)
    | Cluster(mpjConfig: seq<string>, hosts: seq<string>, launches: seq<Launch>)

  const CtlParameterEstimation: string := "CTLParameterEstimation"
  const EmptyCommMain: string := "com.github.sybila.biodivine.ctl.EmptyCommTaskKt"
  const SharedMemoryMain: string := "com.github.sybila.biodivine.ctl.SharedMemoryTaskKt"
  const MpjCommMain: string := "com.github.sybila.biodivine.ctl.MPJCommTaskKt"

  /** The JVM heap flag `-Xmx<mb>M`. */
  function HeapFlag(mb: int): string
  {
    "-Xmx" + IntToString(mb) + "M"
  }

  function TaskName(name: Option<string>): string
  {
    if name.Some? then name.value else "task"
  }

  /** `File(root, name)`, or `root` itself for an unnamed task. */
  function TaskRoot(root: string, name: Option<string>): (r: string)
    ensures name.None? ==> r == root
    ensures name.Some? ==> |r| == |root| + 1 + |name.value| && r[..|root|] == root && r[|root| + 1..] == name.value
  {
    if name.Some? then root + "/" + name.value else root
  }

  /** The four positional arguments every worker receives last. */
  function WorkerArgs(level: Level, name: Option<string>, taskRoot: string, configText: string): seq<string>
  {
    [WorkerLevelArg(level), TaskName(name), taskRoot, configText]
  }

  /** The MPJ home: the configured one, else the variable MPJ_HOME (`File(null)`
      throws when it is unset); it must be a directory. */
  function MpjHome(env: Environment, configured: Option<string>): (r: Result<string>)
    ensures configured.None? && env.mpjHomeVar.None? ==> r == Err(MissingMpjHome)
    ensures r.Ok? ==> r.value in env.directories
  {
    var home :- if configured.Some? then Ok(configured.value)
                else if env.mpjHomeVar.Some? then Ok(env.mpjHomeVar.value)
                else Err(MissingMpjHome);
    var path := AbsolutePath(env, home);
    if path in env.directories then Ok(path) else Err(InvalidMpjHome(home))
  }

  /** MPJ_HOME and a PATH with the MPJ binaries first (an unset PATH prints as "null"). */
  function MpjVars(env: Environment, mpjHome: string): (r: seq<string>)
    ensures |r| == 2 && r[0] == "MPJ_HOME=" + mpjHome
    ensures |r[1]| >= 10 + |mpjHome| && r[1][..10 + |mpjHome|] == "PATH=" + mpjHome + "/bin:"
  {
    ["MPJ_HOME=" + mpjHome,
     "PATH=" + mpjHome + "/bin:" + (if env.pathVar.Some? then env.pathVar.value else "null")]
  }

  /** Everything `executeTask` decides before it starts a process. */
  function PlanTask(config: YamlMap, name: Option<string>, root: string, level: Level,
                    env: Environment, configText: string): (r: Result<Plan>)
    ensures r.Ok? ==> GetStringOr(config, "type", CtlParameterEstimation) == Ok(CtlParameterEstimation) &&
                      LoadTaskConfig(config).Ok?
    ensures r.Ok? && r.value.Cluster? ==>
              |r.value.launches| == |r.value.hosts| && LoadTaskConfig(config).value.communicator.MpjCluster? &&
              r.value.hosts == LoadTaskConfig(config).value.communicator.hosts
  {
    var taskType :- GetStringOr(config, "type", CtlParameterEstimation);
    if taskType != CtlParameterEstimation then Err(UnsupportedTaskType(taskType))
    else
      var tc :- LoadTaskConfig(config);
      PlanLaunch(tc, root, env, WorkerArgs(level, name, AbsolutePath(env, TaskRoot(root, name)), configText))
  }

  /** The `when (communicator)` of `executeTask`: the processes to start for a
      loaded configuration, each ending with the worker arguments `args`. */
  function PlanLaunch(tc: TaskConfig, root: string, env: Environment, args: seq<string>): (r: Result<Plan>)
    ensures r.Ok? && r.value.Cluster? ==>
              |r.value.launches| == |r.value.hosts| && tc.communicator.MpjCluster? &&
              r.value.hosts == tc.communicator.hosts
  {
    var java := JavaLocation(env.javaHome, env.osName);
    match tc.communicator
    case MpjCluster(home, _, hosts, range) =>
      var record :- MpjConfig(hosts, range);
      var mpjHome :- MpjHome(env, home);
      var configPath := AbsolutePath(env, root + "/mpj.config");
      Ok(Cluster(record, hosts, RankLaunches(env, tc.maxMemory, mpjHome, configPath, args, |hosts|)))
    case MpjLocal(workers, home, _) =>
      var mpjHome :- MpjHome(env, home);
      Ok(Local(LocalMpjLaunch(env, tc.maxMemory, mpjHome, workers, args)))
    case Shared(workers) =>
      Ok(Local(Launch([java, "-cp", env.classPath, HeapFlag(Wrap32(tc.maxMemory * workers)),
                       SharedMemoryMain] + args, None)))
    case NoCommunicator =>
      Ok(Local(Launch([java, "-cp", env.classPath, HeapFlag(tc.maxMemory), EmptyCommMain] + args, None)))
  }

  /** The local MPJ process: MPJ's starter, told the number of workers, then
      the MPJ device main class and the worker arguments. */
  function LocalMpjLaunch(env: Environment, maxMemory: int, mpjHome: string, workers: int,
                          args: seq<string>): (l: Launch)
    ensures |l.argv| == 9 + |args| && l.argv[9..] == args
    ensures l.argv[1..5] == ["-jar", mpjHome + "/lib/starter.jar", "-np", IntToString(workers)]
    ensures l.argv[7] == HeapFlag(maxMemory) && l.argv[8] == MpjCommMain
    ensures l.vars == Some(MpjVars(env, mpjHome))
  {
    Launch([JavaLocation(env.javaHome, env.osName), "-jar", mpjHome + "/lib/starter.jar", "-np",
            IntToString(workers), "-cp", env.classPath, HeapFlag(maxMemory), MpjCommMain] + args,
           Some(MpjVars(env, mpjHome)))
  }

  /** The process of cluster rank i: the MPJ device main class, told its rank,
      the record's path and the `niodev` device, then the worker arguments. */
  function RankLaunch(env: Environment, maxMemory: int, mpjHome: string, configPath: string,
                      args: seq<string>, i: nat): (l: Launch)
    ensures |l.argv| == 8 + |args| && l.argv[8..] == args
    ensures l.argv[3] == HeapFlag(maxMemory) && l.argv[4] == MpjCommMain
    ensures l.argv[5..8] == [IntToString(i), configPath, "niodev"]
    ensures l.vars == Some(MpjVars(env, mpjHome))
  {
    Launch([JavaLocation(env.javaHome, env.osName), "-cp", env.classPath, HeapFlag(maxMemory), MpjCommMain,
            IntToString(i), configPath, "niodev"] + args, Some(MpjVars(env, mpjHome)))
  }

  /** The processes of ranks 0 to n-1. */
  function RankLaunches(env: Environment, maxMemory: int, mpjHome: string, configPath: string,
                        args: seq<string>, n: nat): (ls: seq<Launch>)
    ensures |ls| == n
    ensures forall i :: 0 <= i < n ==> ls[i] == RankLaunch(env, maxMemory, mpjHome, configPath, args, i)
  {
    seq(n, i requires 0 <= i < n => RankLaunch(env, maxMemory, mpjHome, configPath, args, i))
  }

  /** A plan that succeeds is the launch plan of the loaded configuration. */
  lemma PlanOfConfig(config: YamlMap, name: Option<string>, root: string, level: Level,
                     env: Environment, configText: string)
    requires PlanTask(config, name, root, level, env, configText).Ok?
    ensures LoadTaskConfig(config).Ok?
    ensures PlanTask(config, name, root, level, env, configText) ==
            PlanLaunch(LoadTaskConfig(config).value, root, env,
                       WorkerArgs(level, name, AbsolutePath(env, TaskRoot(root, name)), configText))
  {
  }

  /** The `ssh` command line of one rank. */
  function SshArgv(env: Environment, host: string, l: Launch): (r: seq<string>)
    ensures |r| == 3 && r[0] == "ssh" && r[1] == host
    ensures |r[2]| >= |env.userDir| + 5 && r[2][..|env.userDir| + 5] == "cd " + env.userDir + "; "
  {
    ["ssh", host, RemoteCommand(env.userDir, l.vars, l.argv)]
  }

  /** The cluster branch after all ranks have been joined: it fails iff some
      rank set the shared flag, i.e. returned a nonzero code. */
  method AwaitRanks(n: nat, exitCode: nat -> int) returns (ok: bool)
    ensures ok <==> forall i :: 0 <= i < n ==> exitCode(i) == 0
  {
    var shouldDie := false;
    var rank := 0;
    while rank < n
      invariant 0 <= rank <= n
      invariant shouldDie <==> exists i :: 0 <= i < rank && exitCode(i) != 0
    {
      var code := exitCode(rank);
      if code != 0 {
        shouldDie := true;
      }
      rank := rank + 1;
    }
    ok := !shouldDie;
  }

  /** `executeTask`, with the processes replaced by their exit codes: rank i of
      a cluster launch returns `exitCode(i)`, a single local process
      `exitCode(0)`. A failure before any launch is the run's error. */
  method ExecuteTask(config: YamlMap, name: Option<string>, root: string, level: Level,
                     env: Environment, configText: string, exitCode: nat -> int) returns (r: Result<bool>)
    ensures PlanTask(config, name, root, level, env, configText).Err? ==>
              r == Err(PlanTask(config, name, root, level, env, configText).error)
    ensures PlanTask(config, name, root, level, env, configText).Ok? &&
            PlanTask(config, name, root, level, env, configText).value.Local? ==>
              r == Ok(exitCode(0) == 0)
    ensures PlanTask(config, name, root, level, env, configText).Ok? &&
            PlanTask(config, name, root, level, env, configText).value.Cluster? ==>
              r == Ok(forall i :: 0 <= i < |PlanTask(config, name, root, level, env, configText).value.hosts| ==>
                                    exitCode(i) == 0)
  {
    var plan :- PlanTask(config, name, root, level, env, configText);
    match plan
    case Local(_) =>
      var code := exitCode(0);
      return Ok(code == 0);
    case Cluster(_, hosts, _) =>
      var ok := AwaitRanks(|hosts|, exitCode);
      return Ok(ok);
  }

  /* Properties of the plan. */

  /** Only `CTLParameterEstimation` tasks are known. */
  lemma UnknownTaskType(config: YamlMap, name: Option<string>, root: string, level: Level,
                        env: Environment, configText: string, t: string)
    requires GetAny(config, "type") == Some(YStr(t)) && t != CtlParameterEstimation
    ensures PlanTask(config, name, root, level, env, configText) == Err(UnsupportedTaskType(t))
  {
  }

  /** In the cluster branch the record is built before the MPJ home is checked:
      a bad port range is the error even when the MPJ home is missing too. */
  lemma PortRangeCheckedFirst(config: YamlMap, name: Option<string>, root: string, level: Level,
                              env: Environment, configText: string)
    requires GetStringOr(config, "type", CtlParameterEstimation) == Ok(CtlParameterEstimation)
    requires LoadTaskConfig(config).Ok? && LoadTaskConfig(config).value.communicator.MpjCluster?
    requires MpjConfig(LoadTaskConfig(config).value.communicator.hosts,
                       LoadTaskConfig(config).value.communicator.portRange).Err?
    ensures PlanTask(config, name, root, level, env, configText) ==
            Err(Allocate(LoadTaskConfig(config).value.communicator.hosts,
                         LoadTaskConfig(config).value.communicator.portRange).error)
  {
    var tc := LoadTaskConfig(config).value;
    RecordBeforeHome(tc, root, env, WorkerArgs(level, name, AbsolutePath(env, TaskRoot(root, name)), configText));
  }

  lemma RecordBeforeHome(tc: TaskConfig, root: string, env: Environment, args: seq<string>)
    requires tc.communicator.MpjCluster? && MpjConfig(tc.communicator.hosts, tc.communicator.portRange).Err?
    ensures PlanLaunch(tc, root, env, args) == Err(Allocate(tc.communicator.hosts, tc.communicator.portRange).error)
  {
  }

  /** Every launched process ends its arguments with the worker arguments. */
  lemma LaunchesEndWithWorkerArgs(tc: TaskConfig, root: string, env: Environment, args: seq<string>)
    requires PlanLaunch(tc, root, env, args).Ok?
    ensures var p := PlanLaunch(tc, root, env, args).value;
            var ls := if p.Local? then [p.launch] else p.launches;
            forall l :: l in ls ==> |l.argv| >= |args| && l.argv[|l.argv| - |args|..] == args
  {
    match tc.communicator
    case MpjCluster(home, _, hosts, _) =>
      RanksStartMpj(env, tc.maxMemory, MpjHome(env, home).value, AbsolutePath(env, root + "/mpj.config"), args, |hosts|);
    case MpjLocal(_, _, _) =>
    case Shared(_) =>
    case NoCommunicator =>
  }

  /** The worker parses the level it is sent back to the launcher's level. */
  lemma WorkerReadsLevel(level: Level, name: Option<string>, taskRoot: string, configText: string)
    requires level != Config
    ensures ToLogLevel(WorkerArgs(level, name, taskRoot, configText)[0]) == Ok(level)
  {
    LevelRoundTrip(level);
  }

  /** The heap flag: `maxMemory * workers` (a 32-bit product) for shared
      memory, `maxMemory` for every other launch. */
  lemma HeapFlagOfPlan(tc: TaskConfig, root: string, env: Environment, args: seq<string>)
    requires PlanLaunch(tc, root, env, args).Ok?
    ensures var p := PlanLaunch(tc, root, env, args).value;
            match tc.communicator
            case Shared(w) => p.Local? && p.launch.argv[3] == HeapFlag(Wrap32(tc.maxMemory * w)) &&
                              (IsInt32(tc.maxMemory * w) ==> p.launch.argv[3] == HeapFlag(tc.maxMemory * w))
            case NoCommunicator => p.Local? && p.launch.argv[3] == HeapFlag(tc.maxMemory)
            case MpjLocal(_, _, _) => p.Local? && p.launch.argv[7] == HeapFlag(tc.maxMemory)
            case MpjCluster(_, _, _, _) => p.Cluster? &&
                                           forall l :: l in p.launches ==> l.argv[3] == HeapFlag(tc.maxMemory)
  {
    match tc.communicator
    case Shared(w) => SharedHeapFlag(tc, root, env, args);
    case NoCommunicator =>
    case MpjLocal(_, _, _) =>
    case MpjCluster(_, _, _, _) =>
  }

  lemma SharedHeapFlag(tc: TaskConfig, root: string, env: Environment, args: seq<string>)
    requires tc.communicator.Shared?
    ensures var p := PlanLaunch(tc, root, env, args);
            var w := tc.communicator.workers;
            p.Ok? && p.value.Local? && p.value.launch.argv[3] == HeapFlag(Wrap32(tc.maxMemory * w)) &&
            (IsInt32(tc.maxMemory * w) ==> p.value.launch.argv[3] == HeapFlag(tc.maxMemory * w))
  {
  }

  /** The process each communicator variant starts: its main class, the local
      MPJ starter's prefix, and the MPJ variables, which only the two MPJ
      variants pass. */
  lemma LaunchOfVariant(tc: TaskConfig, root: string, env: Environment, args: seq<string>)
    requires PlanLaunch(tc, root, env, args).Ok?
    ensures var p := PlanLaunch(tc, root, env, args).value;
            match tc.communicator
            case NoCommunicator => p.Local? && p.launch.argv[4] == EmptyCommMain && p.launch.vars.None?
            case Shared(_) => p.Local? && p.launch.argv[4] == SharedMemoryMain && p.launch.vars.None?
            case MpjLocal(w, home, _) =>
              MpjHome(env, home).Ok? && p.Local? &&
              p.launch.argv[1..5] == ["-jar", MpjHome(env, home).value + "/lib/starter.jar", "-np", IntToString(w)] &&
              p.launch.argv[8] == MpjCommMain && p.launch.vars == Some(MpjVars(env, MpjHome(env, home).value))
            case MpjCluster(_, _, _, _) =>
              MpjHome(env, tc.communicator.mpjHome).Ok? && p.Cluster? &&
              forall l :: l in p.launches ==>
                l.argv[4] == MpjCommMain && l.vars == Some(MpjVars(env, MpjHome(env, tc.communicator.mpjHome).value))
  {
    match tc.communicator
    case MpjLocal(_, _, _) => LocalLaunch(tc, root, env, args);
    case MpjCluster(_, _, _, _) => ClusterLaunches(tc, root, env, args);
    case NoCommunicator =>
    case Shared(_) =>
  }

  lemma LocalLaunch(tc: TaskConfig, root: string, env: Environment, args: seq<string>)
    requires tc.communicator.MpjLocal? && PlanLaunch(tc, root, env, args).Ok?
    ensures var p := PlanLaunch(tc, root, env, args).value;
            var home := MpjHome(env, tc.communicator.mpjHome);
            home.Ok? && p.Local? &&
            p.launch.argv[1..5] == ["-jar", home.value + "/lib/starter.jar", "-np", IntToString(tc.communicator.workers)] &&
            p.launch.argv[8] == MpjCommMain && p.launch.vars == Some(MpjVars(env, home.value))
  {
  }

  lemma ClusterLaunches(tc: TaskConfig, root: string, env: Environment, args: seq<string>)
    requires tc.communicator.MpjCluster? && PlanLaunch(tc, root, env, args).Ok?
    ensures var p := PlanLaunch(tc, root, env, args).value;
            var home := MpjHome(env, tc.communicator.mpjHome);
            home.Ok? && p.Cluster? &&
            forall l :: l in p.launches ==> l.argv[4] == MpjCommMain && l.vars == Some(MpjVars(env, home.value))
  {
    var c := tc.communicator;
    var home := MpjHome(env, c.mpjHome).value;
    RanksStartMpj(env, tc.maxMemory, home, AbsolutePath(env, root + "/mpj.config"), args, |c.hosts|);
  }

  lemma RanksStartMpj(env: Environment, maxMemory: int, mpjHome: string, configPath: string,
                      args: seq<string>, n: nat)
    ensures forall l :: l in RankLaunches(env, maxMemory, mpjHome, configPath, args, n) ==>
              l.argv[4] == MpjCommMain && l.vars == Some(MpjVars(env, mpjHome)) &&
              |l.argv| >= |args| && l.argv[|l.argv| - |args|..] == args
  {
    var ls := RankLaunches(env, maxMemory, mpjHome, configPath, args, n);
    forall l | l in ls
      ensures l.argv[4] == MpjCommMain && l.vars == Some(MpjVars(env, mpjHome))
      ensures |l.argv| >= |args| && l.argv[|l.argv| - |args|..] == args
    {
      var i :| 0 <= i < |ls| && ls[i] == l;
    }
  }

  /** Rank i of a cluster launch is told its rank, the record's path and the
      `niodev` device before the worker arguments, and reads its rank back. */
  lemma ClusterRankArgs(tc: TaskConfig, root: string, env: Environment, args: seq<string>, i: nat)
    requires PlanLaunch(tc, root, env, args).Ok? && PlanLaunch(tc, root, env, args).value.Cluster?
    requires i < |PlanLaunch(tc, root, env, args).value.hosts|
    ensures var l := PlanLaunch(tc, root, env, args).value.launches[i];
            l.argv[5..8] == [IntToString(i), AbsolutePath(env, root + "/mpj.config"), "niodev"] &&
            ParseInt32(l.argv[5]) == Some(i)
  {
    AllocationSound(tc.communicator.hosts, tc.communicator.portRange);
    IntToStringRoundTrip(i);
  }

  /** The payload sent to rank i's host changes to the working directory first
      and carries the rank's argument vector, which the remote shell reads back
      when no argument holds a double quote. */
  lemma RemoteRankCommand(tc: TaskConfig, root: string, env: Environment, args: seq<string>, i: nat)
    requires PlanLaunch(tc, root, env, args).Ok? && PlanLaunch(tc, root, env, args).value.Cluster?
    requires i < |PlanLaunch(tc, root, env, args).value.hosts|
    requires QuoteFree(PlanLaunch(tc, root, env, args).value.launches[i].argv)
    ensures var p := PlanLaunch(tc, root, env, args).value;
            var l := p.launches[i];
            var cmd := SshArgv(env, p.hosts[i], l)[2];
            var head := "cd " + env.userDir + "; " + ExportSegment(l.vars);
            |head| <= |cmd| && cmd[..|head|] == head && UnquoteArgs(cmd[|head|..]) == Some(l.argv)
  {
    var p := PlanLaunch(tc, root, env, args).value;
    var l := p.launches[i];
    RemoteCommandShape(env.userDir, l.vars, l.argv);
  }
}
