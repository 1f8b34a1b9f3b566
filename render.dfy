/** Printing the lookup reply. Each `println!` is one entry of the output
    sequence: a three-line header, then per DNS server a header entry followed
    by one entry per record, either `- <record>` (summary) or a tab-separated
    zone-file style resource-record line (advanced). */
module Render {
  import opened Types
  import Text

  const TITLE: string := "DNS Lookup Results:"

  function HeaderLines(d: DnsResult): (lines: seq<string>)
  {
    [TITLE, "DNS Name: " + d.dnsName, "DNS Type: " + d.dnsType]
  }

  /** The per-server header; it starts with a newline, so it shows as a blank
      line followed by the text. */
  function ServerHeader(s: ServerResult): string
  {
    "\nResults from DNS Server: " + s.friendlyName + " (" + s.server + ")"
  }

  /** The five fields of an advanced record line. */
  function AdvancedFields(r: RecordResult): (fields: seq<string>)
  {
    [r.queryName, Text.NatToString(r.ttl as nat), "IN", r.recordType, r.record]
  }

  /** The entry printed for one record. A summary entry is the record behind a
      `- ` bullet; an advanced entry is its fields joined by tabs. */
  function RecordLine(r: RecordResult, advanced: bool): (line: string)
    ensures !advanced ==> |line| >= 2 && line[..2] == "- " && line[2..] == r.record
  {
    if advanced then r.queryName + "\t" + Text.NatToString(r.ttl as nat) + "\tIN\t" + r.recordType + "\t" + r.record
    else "- " + r.record
  }

  /** The advanced entry is the five fields joined by tabs. */
  lemma AdvancedLineIsJoin(r: RecordResult)
    ensures RecordLine(r, true) == Text.Join(AdvancedFields(r), '\t')
  {
    var f := AdvancedFields(r);
    var ttl := Text.NatToString(r.ttl as nat);
    calc {
      Text.Join(f, '\t');
      r.queryName + "\t" + Text.Join(f[1..], '\t');
      { assert f[1..][1..] == f[2..]; }
      r.queryName + "\t" + (ttl + "\t" + Text.Join(f[2..], '\t'));
      { assert f[2..][1..] == f[3..]; }
      r.queryName + "\t" + (ttl + "\t" + ("IN" + "\t" + Text.Join(f[3..], '\t')));
      { assert f[3..][1..] == f[4..]; }
      r.queryName + "\t" + (ttl + "\t" + ("IN" + "\t" + (r.recordType + "\t" + r.record)));
      RecordLine(r, true);
    }
  }

  /** Extending the processed records by one adds that record's entry. */
  lemma RecordLinesSnoc(rs: seq<RecordResult>, j: nat, advanced: bool)
    requires j < |rs|
    ensures RecordLines(rs[..j + 1], advanced) == RecordLines(rs[..j], advanced) + [RecordLine(rs[j], advanced)]
  {
  }

  function RecordLines(rs: seq<RecordResult>, advanced: bool): (lines: seq<string>)
  {
    seq(|rs|, k requires 0 <= k < |rs| => RecordLine(rs[k], advanced))
  }

  function ServerBlock(s: ServerResult, advanced: bool): (lines: seq<string>)
  {
    [ServerHeader(s)] + RecordLines(s.results, advanced)
  }

  function ServerLines(ss: seq<ServerResult>, advanced: bool): (lines: seq<string>)
  {
    if ss == [] then [] else ServerBlock(ss[0], advanced) + ServerLines(ss[1..], advanced)
  }

  /** Everything printed for a reply. */
  function RenderLines(d: DnsResult, advanced: bool): (lines: seq<string>)
  {
    HeaderLines(d) + ServerLines(d.results, advanced)
  }

  /** The number of records over all servers. */
  function RecordCount(ss: seq<ServerResult>): nat
  {
    if ss == [] then 0 else |ss[0].results| + RecordCount(ss[1..])
  }

  lemma {:induction false} RecordCountAppend(a: seq<ServerResult>, b: seq<ServerResult>)
    ensures RecordCount(a + b) == RecordCount(a) + RecordCount(b)
  {
    if a == [] {
      assert a + b == b;
    } else {
      assert (a + b)[0] == a[0];
      assert (a + b)[1..] == a[1..] + b;
      RecordCountAppend(a[1..], b);
    }
  }

  lemma {:induction false} ServerLinesAppend(a: seq<ServerResult>, b: seq<ServerResult>, advanced: bool)
    ensures ServerLines(a + b, advanced) == ServerLines(a, advanced) + ServerLines(b, advanced)
  {
    if a == [] {
      assert a + b == b;
    } else {
      assert (a + b)[1..] == a[1..] + b;
      ServerLinesAppend(a[1..], b, advanced);
    }
  }

  /** Extending the processed servers by one adds that server's block. */
  lemma ServerLinesSnoc(ss: seq<ServerResult>, i: nat, advanced: bool)
    requires i < |ss|
    ensures ServerLines(ss[..i + 1], advanced) == ServerLines(ss[..i], advanced) + ServerBlock(ss[i], advanced)
  {
    assert ss[..i + 1] == ss[..i] + [ss[i]];
    ServerLinesAppend(ss[..i], [ss[i]], advanced);
    assert [ss[i]][1..] == [];
  }

  /** One entry per server plus one per record. */
  lemma {:induction false} ServerLinesLength(ss: seq<ServerResult>, advanced: bool)
    ensures |ServerLines(ss, advanced)| == |ss| + RecordCount(ss)
  {
    if ss != [] {
      ServerLinesLength(ss[1..], advanced);
    }
  }

  /** The position, among the per-server entries, of server `i`'s header:
      one entry for each earlier server and one for each of their records. */
  function Offset(ss: seq<ServerResult>, i: nat): nat
    requires i <= |ss|
  {
    i + RecordCount(ss[..i])
  }

  /** The per-server entries around server `i`: the blocks before it, its own
      block, and the blocks after it. */
  lemma ServerLinesSplit(ss: seq<ServerResult>, i: nat, advanced: bool)
    requires i < |ss|
    ensures ServerLines(ss, advanced)
         == ServerLines(ss[..i], advanced) + (ServerBlock(ss[i], advanced) + ServerLines(ss[i + 1..], advanced))
  {
    assert ss == ss[..i] + ([ss[i]] + ss[i + 1..]);
    ServerLinesAppend(ss[..i], [ss[i]] + ss[i + 1..], advanced);
    ServerLinesAppend([ss[i]], ss[i + 1..], advanced);
    assert ServerLines([ss[i]], advanced) == ServerBlock(ss[i], advanced) by {
      assert [ss[i]][1..] == [];
    }
  }

  /** Where server `i` lands in the per-server output: its header after the
      blocks of the servers before it, then its records in their order. */
  lemma ServerLinesAt(ss: seq<ServerResult>, i: nat, advanced: bool)
    requires i < |ss|
    ensures Offset(ss, i) + |ss[i].results| < |ServerLines(ss, advanced)|
    ensures ServerLines(ss, advanced)[Offset(ss, i)] == ServerHeader(ss[i])
    ensures forall j :: 0 <= j < |ss[i].results| ==>
              ServerLines(ss, advanced)[Offset(ss, i) + 1 + j] == RecordLine(ss[i].results[j], advanced)
  {
    var front, block, back := ServerLines(ss[..i], advanced), ServerBlock(ss[i], advanced), ServerLines(ss[i + 1..], advanced);
    ServerLinesSplit(ss, i, advanced);
    ServerLinesLength(ss[..i], advanced);
    assert |front| == Offset(ss, i);
    assert |block| == 1 + |ss[i].results|;
    forall j | 0 <= j < |ss[i].results|
      ensures (front + (block + back))[|front| + 1 + j] == RecordLine(ss[i].results[j], advanced)
    {
      assert (front + (block + back))[|front| + 1 + j] == block[1 + j];
    }
    assert (front + (block + back))[|front|] == block[0];
  }

  /** `RenderLayout` for one server. */
  lemma RenderLinesAt(d: DnsResult, i: nat, advanced: bool)
    requires i < |d.results|
    ensures 3 + Offset(d.results, i) + |d.results[i].results| < |RenderLines(d, advanced)|
    ensures RenderLines(d, advanced)[3 + Offset(d.results, i)] == ServerHeader(d.results[i])
    ensures forall j | 0 <= j < |d.results[i].results| ::
              RenderLines(d, advanced)[3 + Offset(d.results, i) + 1 + j] == RecordLine(d.results[i].results[j], advanced)
  {
    var rest := ServerLines(d.results, advanced);
    ServerLinesAt(d.results, i, advanced);
    assert |HeaderLines(d)| == 3;
    forall k | 0 <= k < |rest| ensures RenderLines(d, advanced)[3 + k] == rest[k] {
    }
  }

  /** The whole layout of the output: the three header lines, then for every
      server, in order, its header followed by its records in order. The
      total is 3 + #servers + #records. */
  lemma RenderLayout(d: DnsResult, advanced: bool)
    ensures |RenderLines(d, advanced)| == 3 + |d.results| + RecordCount(d.results)
    ensures RenderLines(d, advanced)[..3] == ["DNS Lookup Results:", "DNS Name: " + d.dnsName, "DNS Type: " + d.dnsType]
    ensures forall i | 0 <= i < |d.results| ::
              && 3 + Offset(d.results, i) + |d.results[i].results| < |RenderLines(d, advanced)|
              && RenderLines(d, advanced)[3 + Offset(d.results, i)] == ServerHeader(d.results[i])
              && forall j | 0 <= j < |d.results[i].results| ::
                   RenderLines(d, advanced)[3 + Offset(d.results, i) + 1 + j] == RecordLine(d.results[i].results[j], advanced)
  {
    ServerLinesLength(d.results, advanced);
    forall i | 0 <= i < |d.results| {
      RenderLinesAt(d, i, advanced);
    }
  }

  /** An advanced entry splits on tabs into exactly its five fields, the third
      being `IN`, provided the reply's own strings hold no tab. */
  lemma AdvancedLineFields(r: RecordResult)
    requires '\t' !in r.queryName && '\t' !in r.recordType && '\t' !in r.record
    ensures var fields := Text.Split(RecordLine(r, true), '\t');
      && |fields| == 5
      && fields[0] == r.queryName
      && Text.IsDigits(fields[1]) && Text.DecimalValue(fields[1]) == r.ttl as nat
      && fields[2] == "IN"
      && fields[3] == r.recordType
      && fields[4] == r.record
  {
    Text.NatToStringAvoids(r.ttl as nat, '\t');
    AdvancedLineIsJoin(r);
    Text.SplitJoin(AdvancedFields(r), '\t');
    Text.DecimalRoundTrip(r.ttl as nat);
  }

  /** Prints a reply entry by entry, as the nested loops over servers and
      records do. */
  method Render(d: DnsResult, advanced: bool) returns (out: seq<string>)
    ensures out == RenderLines(d, advanced)
    ensures |out| == 3 + |d.results| + RecordCount(d.results)
  {
    out := [TITLE];
    out := out + ["DNS Name: " + d.dnsName];
    out := out + ["DNS Type: " + d.dnsType];
    assert out == HeaderLines(d) + ServerLines(d.results[..0], advanced);
    for i := 0 to |d.results|
      invariant out == HeaderLines(d) + ServerLines(d.results[..i], advanced)
    {
      out := PrintServer(out, d.results[i], advanced);
      ServerLinesSnoc(d.results, i, advanced);
    }
    assert d.results[..|d.results|] == d.results;
    ServerLinesLength(d.results, advanced);
  }

  /** The body of the outer loop: prints one server's header, then each of
      its records in order, after what is already printed. */
  method PrintServer(printed: seq<string>, server: ServerResult, advanced: bool) returns (out: seq<string>)
    ensures out == printed + ServerBlock(server, advanced)
  {
    out := printed + [ServerHeader(server)];
    for j := 0 to |server.results|
      invariant out == printed + [ServerHeader(server)] + RecordLines(server.results[..j], advanced)
    {
      out := out + [RecordLine(server.results[j], advanced)];
      RecordLinesSnoc(server.results, j, advanced);
    }
    assert server.results[..|server.results|] == server.results;
  }
}
