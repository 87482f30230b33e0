/** The report one poll renders: a fixed sequence of sections, each a header,
    its informational lines and the warnings of its rules. Lines are kept as
    values; their text and colouring are not modelled. */
module Dashboard {
  import opened Window
  import opened Balance
  import opened Rules

  datatype Section =
    | SyncStatus
    | BlockInformation
    | SuperblockInformation
    | SigningAddressInformation
    | CertificateInformation

  datatype Line =
    | MonitoringUrl(url: string)
    | Header(section: Section)
    | RecoveryState(complete: bool)
    | CurrentBlock(height: int)
    | BlockProcessedAt(at: Micros, ago: Micros)
    | ProcessRate(blocksPerSecond: real)
    | LastBlockFromGovernors(height: int)
    | GovernorSyncAt(at: Micros, ago: Micros)
    | CurrentSuperblock(height: int)
    | LastSuperblockFromBootnodes(height: int)
    | BootnodeSyncAt(at: Micros, ago: Micros)
    /** The balance is carried as the converted RBNT amount times 10^18. */
    | AddressBalance(address: string, scaledBalance: int)
    | CertificateDnsNames(names: seq<string>)
    | CertificateValidUntil(at: Micros, remaining: Micros)
    | BinaryVersion(version: string)
    | Warn(warning: Warning)

  /** The warning lines of `lines`, in order. */
  function WarningsIn(lines: seq<Line>): seq<Warning>
  {
    if lines == [] then []
    else (if lines[0].Warn? then [lines[0].warning] else []) + WarningsIn(lines[1..])
  }

  /** The section headers of `lines`, in order. */
  function HeadersIn(lines: seq<Line>): seq<Section>
  {
    if lines == [] then []
    else (if lines[0].Header? then [lines[0].section] else []) + HeadersIn(lines[1..])
  }

  lemma {:induction false} WarningsInConcat(a: seq<Line>, b: seq<Line>)
    ensures WarningsIn(a + b) == WarningsIn(a) + WarningsIn(b)
  {
    if a != [] {
      WarningsInConcat(a[1..], b);
      assert (a + b)[0] == a[0];
      assert (a + b)[1..] == a[1..] + b;
    } else {
      assert a + b == b;
    }
  }

  lemma {:induction false} HeadersInConcat(a: seq<Line>, b: seq<Line>)
    ensures HeadersIn(a + b) == HeadersIn(a) + HeadersIn(b)
  {
    if a != [] {
      HeadersInConcat(a[1..], b);
      assert (a + b)[0] == a[0];
      assert (a + b)[1..] == a[1..] + b;
    } else {
      assert a + b == b;
    }
  }

  /** The lines that report the warnings of one rule. */
  function Warns(ws: seq<Warning>): (r: seq<Line>)
    ensures WarningsIn(r) == ws
    ensures HeadersIn(r) == []
  {
    if ws == [] then []
    else
      WarningsInConcat([Warn(ws[0])], Warns(ws[1..]));
      HeadersInConcat([Warn(ws[0])], Warns(ws[1..]));
      [Warn(ws[0])] + Warns(ws[1..])
  }

  /** A rule's lines: its one warning when it fires, nothing otherwise. */
  lemma WarnsWhen(fires: bool, w: Warning)
    ensures Warns(When(fires, w)) == if fires then [Warn(w)] else []
  {
    if fires {
      assert [w][1..] == [];
    }
  }

  /** Lines with neither a header nor a warning. */
  predicate Plain(lines: seq<Line>)
  {
    forall i :: 0 <= i < |lines| ==> !lines[i].Header? && !lines[i].Warn?
  }

  lemma {:induction false} PlainLines(lines: seq<Line>)
    requires Plain(lines)
    ensures WarningsIn(lines) == [] && HeadersIn(lines) == []
  {
    if lines != [] {
      PlainLines(lines[1..]);
    }
  }

  function SyncSection(s: Snapshot): seq<Line>
  {
    [Header(SyncStatus)] + [RecoveryState(s.isRecoveryComplete)]
  }

  function BlockSection(s: Snapshot, now: Micros, rate: real): seq<Line>
  {
    [Header(BlockInformation)]
    + [CurrentBlock(s.currentBlock), BlockProcessedAt(Instant(s.lastCommittedBlockAt), SinceLastBlock(s, now))]
    + Warns(StaleBlockRule(s, now))
    + [ProcessRate(rate)]
    + Warns(BehindGovernorsRule(s))
    + [LastBlockFromGovernors(s.lastBlockFromGovernors),
       GovernorSyncAt(Instant(s.lastSyncedWithGovernorNodes), SinceGovernorSync(s, now))]
    + Warns(GovernorSyncRule(s, now))
  }

  function SuperblockSection(s: Snapshot, now: Micros): seq<Line>
  {
    [Header(SuperblockInformation)]
    + [CurrentSuperblock(s.currentSuperblock)]
    + Warns(BehindBootnodesRule(s))
    + [LastSuperblockFromBootnodes(s.lastSuperblockFromBootnodes),
       BootnodeSyncAt(Instant(s.lastSyncedWithBootnodes), SinceBootnodeSync(s, now))]
    + Warns(SuperblockSyncRule(s, now))
  }

  function SigningSection(s: Snapshot, minBalance: int): seq<Line>
  {
    [Header(SigningAddressInformation)]
    + [AddressBalance(s.signingAddress, ScaledBalance(s.signingAddressBalance))]
    + Warns(LowBalanceRule(s, minBalance))
  }

  function CertificateSection(s: Snapshot, now: Micros): seq<Line>
  {
    [Header(CertificateInformation)]
    + [CertificateDnsNames(s.certificateDnsNames),
       CertificateValidUntil(Instant(s.certificatesValidUpto), CertificateRemaining(s, now))]
    + Warns(ExpiredRule(s, now))
    + Warns(ExpiringSoonRule(s, now))
  }

  /** A header followed by plain lines: that one header and no warning. */
  lemma HeaderThen(section: Section, info: seq<Line>)
    requires Plain(info)
    ensures HeadersIn([Header(section)] + info) == [section]
    ensures WarningsIn([Header(section)] + info) == []
  {
    WarningsInConcat([Header(section)], info);
    HeadersInConcat([Header(section)], info);
    PlainLines(info);
  }

  /** Each section's only header is its own, and its warnings are those of
      its rules, in order. */
  lemma SectionShapes(s: Snapshot, minBalance: int, now: Micros, rate: real)
    ensures HeadersIn(SyncSection(s)) == [SyncStatus] && WarningsIn(SyncSection(s)) == []
    ensures HeadersIn(BlockSection(s, now, rate)) == [BlockInformation]
    ensures WarningsIn(BlockSection(s, now, rate))
      == StaleBlockRule(s, now) + BehindGovernorsRule(s) + GovernorSyncRule(s, now)
    ensures HeadersIn(SuperblockSection(s, now)) == [SuperblockInformation]
    ensures WarningsIn(SuperblockSection(s, now)) == BehindBootnodesRule(s) + SuperblockSyncRule(s, now)
    ensures HeadersIn(SigningSection(s, minBalance)) == [SigningAddressInformation]
    ensures WarningsIn(SigningSection(s, minBalance)) == LowBalanceRule(s, minBalance)
    ensures HeadersIn(CertificateSection(s, now)) == [CertificateInformation]
    ensures WarningsIn(CertificateSection(s, now)) == ExpiredRule(s, now) + ExpiringSoonRule(s, now)
  {
    HeaderThen(SyncStatus, [RecoveryState(s.isRecoveryComplete)]);
    BlockSectionShape(s, now, rate);
    SuperblockSectionShape(s, now);
    SigningSectionShape(s, minBalance);
    CertificateSectionShape(s, now);
  }

  lemma BlockSectionShape(s: Snapshot, now: Micros, rate: real)
    ensures HeadersIn(BlockSection(s, now, rate)) == [BlockInformation]
    ensures WarningsIn(BlockSection(s, now, rate))
      == StaleBlockRule(s, now) + BehindGovernorsRule(s) + GovernorSyncRule(s, now)
  {
    var info := [CurrentBlock(s.currentBlock),
                 BlockProcessedAt(Instant(s.lastCommittedBlockAt), SinceLastBlock(s, now))];
    var rateLine := [ProcessRate(rate)];
    var governors := [LastBlockFromGovernors(s.lastBlockFromGovernors),
                      GovernorSyncAt(Instant(s.lastSyncedWithGovernorNodes), SinceGovernorSync(s, now))];
    var p1 := [Header(BlockInformation)] + info;
    HeaderThen(BlockInformation, info);
    var p2 := p1 + Warns(StaleBlockRule(s, now));
    assert HeadersIn(p2) == [BlockInformation] && WarningsIn(p2) == StaleBlockRule(s, now) by {
      WarningsInConcat(p1, Warns(StaleBlockRule(s, now)));
      HeadersInConcat(p1, Warns(StaleBlockRule(s, now)));
    }
    var p3 := p2 + rateLine;
    assert HeadersIn(p3) == [BlockInformation] && WarningsIn(p3) == StaleBlockRule(s, now) by {
      WarningsInConcat(p2, rateLine);
      HeadersInConcat(p2, rateLine);
      PlainLines(rateLine);
    }
    var p4 := p3 + Warns(BehindGovernorsRule(s));
    assert HeadersIn(p4) == [BlockInformation]
      && WarningsIn(p4) == StaleBlockRule(s, now) + BehindGovernorsRule(s) by {
      WarningsInConcat(p3, Warns(BehindGovernorsRule(s)));
      HeadersInConcat(p3, Warns(BehindGovernorsRule(s)));
    }
    var p5 := p4 + governors;
    assert HeadersIn(p5) == [BlockInformation]
      && WarningsIn(p5) == StaleBlockRule(s, now) + BehindGovernorsRule(s) by {
      WarningsInConcat(p4, governors);
      HeadersInConcat(p4, governors);
      PlainLines(governors);
    }
    WarningsInConcat(p5, Warns(GovernorSyncRule(s, now)));
    HeadersInConcat(p5, Warns(GovernorSyncRule(s, now)));
  }

  lemma SuperblockSectionShape(s: Snapshot, now: Micros)
    ensures HeadersIn(SuperblockSection(s, now)) == [SuperblockInformation]
    ensures WarningsIn(SuperblockSection(s, now)) == BehindBootnodesRule(s) + SuperblockSyncRule(s, now)
  {
    var info := [CurrentSuperblock(s.currentSuperblock)];
    var bootnodes := [LastSuperblockFromBootnodes(s.lastSuperblockFromBootnodes),
                      BootnodeSyncAt(Instant(s.lastSyncedWithBootnodes), SinceBootnodeSync(s, now))];
    var p1 := [Header(SuperblockInformation)] + info;
    HeaderThen(SuperblockInformation, info);
    var p2 := p1 + Warns(BehindBootnodesRule(s));
    assert HeadersIn(p2) == [SuperblockInformation] && WarningsIn(p2) == BehindBootnodesRule(s) by {
      WarningsInConcat(p1, Warns(BehindBootnodesRule(s)));
      HeadersInConcat(p1, Warns(BehindBootnodesRule(s)));
    }
    var p3 := p2 + bootnodes;
    assert HeadersIn(p3) == [SuperblockInformation] && WarningsIn(p3) == BehindBootnodesRule(s) by {
      WarningsInConcat(p2, bootnodes);
      HeadersInConcat(p2, bootnodes);
      PlainLines(bootnodes);
    }
    WarningsInConcat(p3, Warns(SuperblockSyncRule(s, now)));
    HeadersInConcat(p3, Warns(SuperblockSyncRule(s, now)));
  }

  lemma SigningSectionShape(s: Snapshot, minBalance: int)
    ensures HeadersIn(SigningSection(s, minBalance)) == [SigningAddressInformation]
    ensures WarningsIn(SigningSection(s, minBalance)) == LowBalanceRule(s, minBalance)
  {
    var info := [AddressBalance(s.signingAddress, ScaledBalance(s.signingAddressBalance))];
    HeaderThen(SigningAddressInformation, info);
    WarningsInConcat([Header(SigningAddressInformation)] + info, Warns(LowBalanceRule(s, minBalance)));
    HeadersInConcat([Header(SigningAddressInformation)] + info, Warns(LowBalanceRule(s, minBalance)));
  }

  lemma CertificateSectionShape(s: Snapshot, now: Micros)
    ensures HeadersIn(CertificateSection(s, now)) == [CertificateInformation]
    ensures WarningsIn(CertificateSection(s, now)) == ExpiredRule(s, now) + ExpiringSoonRule(s, now)
  {
    var info := [CertificateDnsNames(s.certificateDnsNames),
                 CertificateValidUntil(Instant(s.certificatesValidUpto), CertificateRemaining(s, now))];
    var p1 := [Header(CertificateInformation)] + info;
    HeaderThen(CertificateInformation, info);
    var p2 := p1 + Warns(ExpiredRule(s, now));
    assert HeadersIn(p2) == [CertificateInformation] && WarningsIn(p2) == ExpiredRule(s, now) by {
      WarningsInConcat(p1, Warns(ExpiredRule(s, now)));
      HeadersInConcat(p1, Warns(ExpiredRule(s, now)));
    }
    WarningsInConcat(p2, Warns(ExpiringSoonRule(s, now)));
    HeadersInConcat(p2, Warns(ExpiringSoonRule(s, now)));
  }

  /** The whole report of one poll: the polled URL, the five sections in
      order, and the binary version. */
  function Report(address: string, s: Snapshot, minBalance: int, now: Micros, rate: real): seq<Line>
  {
    [MonitoringUrl(address + "/status")]
    + SyncSection(s) + BlockSection(s, now, rate) + SuperblockSection(s, now)
    + SigningSection(s, minBalance) + CertificateSection(s, now)
    + [BinaryVersion(s.version)]
  }

  /** The report opens with the polled URL and closes with the binary version. */
  lemma ReportEnds(address: string, s: Snapshot, minBalance: int, now: Micros, rate: real)
    ensures var r := Report(address, s, minBalance, now, rate);
      |r| > 0 && r[0] == MonitoringUrl(address + "/status") && r[|r| - 1] == BinaryVersion(s.version)
  {
    var url := [MonitoringUrl(address + "/status")];
    var p1 := url + SyncSection(s);
    var p2 := p1 + BlockSection(s, now, rate);
    var p3 := p2 + SuperblockSection(s, now);
    var p4 := p3 + SigningSection(s, minBalance);
    var p5 := p4 + CertificateSection(s, now);
    assert p1[0] == url[0];
    assert p2[0] == p1[0];
    assert p3[0] == p2[0];
    assert p4[0] == p3[0];
    assert p5[0] == p4[0];
    assert (p5 + [BinaryVersion(s.version)])[0] == p5[0];
  }

  /** The report's headers are the five sections, in order. */
  lemma ReportHeaders(address: string, s: Snapshot, minBalance: int, now: Micros, rate: real)
    ensures HeadersIn(Report(address, s, minBalance, now, rate))
      == [SyncStatus, BlockInformation, SuperblockInformation, SigningAddressInformation, CertificateInformation]
  {
    SectionShapes(s, minBalance, now, rate);
    var url := [MonitoringUrl(address + "/status")];
    var p1 := url + SyncSection(s);
    assert HeadersIn(p1) == [SyncStatus] by {
      WarningsInConcat(url, SyncSection(s));
      HeadersInConcat(url, SyncSection(s));
      PlainLines(url);
    }
    var p2 := p1 + BlockSection(s, now, rate);
    assert HeadersIn(p2) == [SyncStatus, BlockInformation] by {
      WarningsInConcat(p1, BlockSection(s, now, rate));
      HeadersInConcat(p1, BlockSection(s, now, rate));
    }
    var p3 := p2 + SuperblockSection(s, now);
    assert HeadersIn(p3) == [SyncStatus, BlockInformation, SuperblockInformation] by {
      WarningsInConcat(p2, SuperblockSection(s, now));
      HeadersInConcat(p2, SuperblockSection(s, now));
    }
    var p4 := p3 + SigningSection(s, minBalance);
    assert HeadersIn(p4) == [SyncStatus, BlockInformation, SuperblockInformation, SigningAddressInformation] by {
      WarningsInConcat(p3, SigningSection(s, minBalance));
      HeadersInConcat(p3, SigningSection(s, minBalance));
    }
    var p5 := p4 + CertificateSection(s, now);
    assert HeadersIn(p5) == [SyncStatus, BlockInformation, SuperblockInformation,
                             SigningAddressInformation, CertificateInformation] by {
      WarningsInConcat(p4, CertificateSection(s, now));
      HeadersInConcat(p4, CertificateSection(s, now));
    }
    var version := [BinaryVersion(s.version)];
    WarningsInConcat(p5, version);
    HeadersInConcat(p5, version);
    PlainLines(version);
  }

  /** The warnings of two pieces joined, from the warnings of each piece
      given as plain sequences, so that the pieces' contents stay out of view. */
  lemma WarningsOfJoin(a: seq<Line>, b: seq<Line>, wa: seq<Warning>, wb: seq<Warning>)
    requires WarningsIn(a) == wa && WarningsIn(b) == wb
    ensures WarningsIn(a + b) == wa + wb
  {
    WarningsInConcat(a, b);
  }

  /** Associativity, stated over plain sequences so that the report proof
      regroups the rules' warnings without unfolding them. */
  lemma Regroup(a: seq<Warning>, b: seq<Warning>, c: seq<Warning>)
    ensures a + (b + c) == a + b + c
  {
  }

  /** The report's warning lines are exactly the warnings the rules raise,
      in rule order. */
  lemma ReportWarnings(address: string, s: Snapshot, minBalance: int, now: Micros, rate: real)
    ensures WarningsIn(Report(address, s, minBalance, now, rate)) == Triggered(s, minBalance, now)
  {
    SectionShapes(s, minBalance, now, rate);
    var stale, behindGovernors, governorSync := StaleBlockRule(s, now), BehindGovernorsRule(s), GovernorSyncRule(s, now);
    var behindBootnodes, superblockSync := BehindBootnodesRule(s), SuperblockSyncRule(s, now);
    var lowBalance, expired, soon := LowBalanceRule(s, minBalance), ExpiredRule(s, now), ExpiringSoonRule(s, now);
    var url := [MonitoringUrl(address + "/status")];
    assert WarningsIn(url) == [] by { PlainLines(url); }
    var p1 := url + SyncSection(s);
    WarningsOfJoin(url, SyncSection(s), [], []);
    var p2 := p1 + BlockSection(s, now, rate);
    WarningsOfJoin(p1, BlockSection(s, now, rate), [], stale + behindGovernors + governorSync);
    var w2 := stale + behindGovernors + governorSync;
    assert WarningsIn(p2) == w2;
    var p3 := p2 + SuperblockSection(s, now);
    WarningsOfJoin(p2, SuperblockSection(s, now), w2, behindBootnodes + superblockSync);
    Regroup(w2, behindBootnodes, superblockSync);
    var w3 := w2 + behindBootnodes + superblockSync;
    var p4 := p3 + SigningSection(s, minBalance);
    WarningsOfJoin(p3, SigningSection(s, minBalance), w3, lowBalance);
    var w4 := w3 + lowBalance;
    var p5 := p4 + CertificateSection(s, now);
    WarningsOfJoin(p4, CertificateSection(s, now), w4, expired + soon);
    Regroup(w4, expired, soon);
    var version := [BinaryVersion(s.version)];
    assert WarningsIn(version) == [] by { PlainLines(version); }
    WarningsOfJoin(p5, version, w4 + expired + soon, []);
    assert w4 + expired + soon + [] == w4 + expired + soon;
  }
}
