/** The monitor's per-poll step: the engine owns the rolling block window and,
    given one decoded snapshot, updates the window and builds the report. */
module Monitor {
  import opened Window
  import opened Balance
  import opened Rules
  import opened Dashboard

  class Engine {
    /** The rolling window of samples, oldest first. */
    var history: seq<Sample>
    /** Every sample observed since the engine was created, in order. */
    ghost var observed: seq<Sample>

    ghost predicate Valid()
      reads this
    {
      history == History(observed)
    }

    constructor ()
      ensures Valid() && observed == [] && history == []
    {
      history := [];
      observed := [];
    }

    /** The window update of one poll: append the sample and, past
        `Capacity`, drop the oldest one. */
    method Record(sample: Sample)
      requires Valid()
      modifies this
      ensures Valid()
      ensures observed == old(observed) + [sample]
      ensures history == Push(old(history), sample)
      ensures history == LastN(observed, Capacity)
    {
      history := history + [sample];
      if |history| > Capacity {
        history := history[1..];
      }
      observed := observed + [sample];
      assert observed[..|observed| - 1] == old(observed);
      HistoryIsLastN(observed);
    }

    /** One poll: record this snapshot's sample in the window, then build the
        report from the snapshot, the configured minimum balance, the current
        time and the window's rate. */
    method Evaluate(address: string, s: Snapshot, minBalance: int, now: Micros) returns (report: seq<Line>)
      requires Valid()
      modifies this
      ensures Valid()
      ensures observed == old(observed) + [Observe(s)]
      ensures history == Push(old(history), Observe(s))
      ensures history == LastN(observed, Capacity)
      ensures report == Report(address, s, minBalance, now, BlockRate(history))
    {
      var parts := [MonitoringUrl(address + "/status")];
      Record(Sample(s.currentBlock, Instant(s.lastCommittedBlockAt)));
      var lines := SyncLines(s);
      parts := parts + lines;
      lines := BlockLines(s, now, BlockRate(history));
      parts := parts + lines;
      lines := SuperblockLines(s, now);
      parts := parts + lines;
      lines := SigningLines(s, minBalance);
      parts := parts + lines;
      lines := CertificateLines(s, now);
      parts := parts + lines;
      parts := parts + [BinaryVersion(s.version)];
      report := parts;
    }
  }

  method SyncLines(s: Snapshot) returns (lines: seq<Line>)
    ensures lines == SyncSection(s)
  {
    lines := [Header(SyncStatus)];
    if s.isRecoveryComplete {
      lines := lines + [RecoveryState(true)];
    } else {
      lines := lines + [RecoveryState(false)];
    }
  }

  method BlockLines(s: Snapshot, now: Micros, rate: real) returns (lines: seq<Line>)
    ensures lines == BlockSection(s, now, rate)
  {
    var lastCommittedBlockAt := Instant(s.lastCommittedBlockAt);
    var timeSinceLastBlock := now - lastCommittedBlockAt;
    var lastSyncedWithGovernorNodes := Instant(s.lastSyncedWithGovernorNodes);
    var timeSinceLastSyncWithGovs := now - lastSyncedWithGovernorNodes;
    var blocksBehind := s.lastBlockFromGovernors - s.currentBlock;
    lines := [Header(BlockInformation)];
    lines := lines + [CurrentBlock(s.currentBlock), BlockProcessedAt(lastCommittedBlockAt, timeSinceLastBlock)];
    ghost var shape := lines;
    if timeSinceLastBlock > StaleBlockLimit {
      lines := lines + [Warn(StaleBlock)];
    }
    shape := shape + Warns(StaleBlockRule(s, now));
    assert lines == shape by { WarnsWhen(timeSinceLastBlock > StaleBlockLimit, StaleBlock); }
    lines := lines + [ProcessRate(rate)];
    shape := shape + [ProcessRate(rate)];
    if blocksBehind > LagLimit {
      lines := lines + [Warn(BehindGovernors(blocksBehind))];
    }
    shape := shape + Warns(BehindGovernorsRule(s));
    assert lines == shape by { WarnsWhen(blocksBehind > LagLimit, BehindGovernors(blocksBehind)); }
    lines := lines + [LastBlockFromGovernors(s.lastBlockFromGovernors),
                      GovernorSyncAt(lastSyncedWithGovernorNodes, timeSinceLastSyncWithGovs)];
    shape := shape + [LastBlockFromGovernors(s.lastBlockFromGovernors),
                      GovernorSyncAt(lastSyncedWithGovernorNodes, timeSinceLastSyncWithGovs)];
    if timeSinceLastSyncWithGovs > GovernorSyncLimit {
      lines := lines + [Warn(GovernorSyncStale)];
    }
    shape := shape + Warns(GovernorSyncRule(s, now));
    assert lines == shape by { WarnsWhen(timeSinceLastSyncWithGovs > GovernorSyncLimit, GovernorSyncStale); }
  }

  method SuperblockLines(s: Snapshot, now: Micros) returns (lines: seq<Line>)
    ensures lines == SuperblockSection(s, now)
  {
    var lastSyncedWithBootnodes := Instant(s.lastSyncedWithBootnodes);
    var timeSinceLastSyncWithBootnodes := now - lastSyncedWithBootnodes;
    var timeSinceLastSyncWithGovs := now - Instant(s.lastSyncedWithGovernorNodes);
    var superblocksBehind := s.lastSuperblockFromBootnodes - s.currentSuperblock;
    lines := [Header(SuperblockInformation)];
    lines := lines + [CurrentSuperblock(s.currentSuperblock)];
    ghost var shape := lines;
    if superblocksBehind > LagLimit {
      lines := lines + [Warn(BehindBootnodes(superblocksBehind))];
    }
    shape := shape + Warns(BehindBootnodesRule(s));
    assert lines == shape by { WarnsWhen(superblocksBehind > LagLimit, BehindBootnodes(superblocksBehind)); }
    lines := lines + [LastSuperblockFromBootnodes(s.lastSuperblockFromBootnodes),
                      BootnodeSyncAt(lastSyncedWithBootnodes, timeSinceLastSyncWithBootnodes)];
    shape := shape + [LastSuperblockFromBootnodes(s.lastSuperblockFromBootnodes),
                      BootnodeSyncAt(lastSyncedWithBootnodes, timeSinceLastSyncWithBootnodes)];
    // The superblock sync warning reads the governor sync time.
    if timeSinceLastSyncWithGovs > SuperblockSyncLimit {
      lines := lines + [Warn(SuperblockSyncStale)];
    }
    shape := shape + Warns(SuperblockSyncRule(s, now));
    assert lines == shape by { WarnsWhen(timeSinceLastSyncWithGovs > SuperblockSyncLimit, SuperblockSyncStale); }
  }

  method SigningLines(s: Snapshot, minBalance: int) returns (lines: seq<Line>)
    ensures lines == SigningSection(s, minBalance)
  {
    var signingAddressBalance := ScaledBalance(s.signingAddressBalance);
    lines := [Header(SigningAddressInformation)];
    lines := lines + [AddressBalance(s.signingAddress, signingAddressBalance)];
    ghost var shape := lines;
    if minBalance * WeiPerRbnt > signingAddressBalance {
      lines := lines + [Warn(LowBalance(minBalance))];
    }
    shape := shape + Warns(LowBalanceRule(s, minBalance));
    assert lines == shape by { WarnsWhen(minBalance * WeiPerRbnt > signingAddressBalance, LowBalance(minBalance)); }
  }

  method CertificateLines(s: Snapshot, now: Micros) returns (lines: seq<Line>)
    ensures lines == CertificateSection(s, now)
  {
    var certificatesValidUpto := Instant(s.certificatesValidUpto);
    var certificateValidDuration := certificatesValidUpto - now;
    lines := [Header(CertificateInformation)];
    lines := lines + [CertificateDnsNames(s.certificateDnsNames),
                      CertificateValidUntil(certificatesValidUpto, certificateValidDuration)];
    ghost var shape := lines;
    if certificateValidDuration <= 0 {
      lines := lines + [Warn(CertificateExpired)];
    }
    shape := shape + Warns(ExpiredRule(s, now));
    assert lines == shape by { WarnsWhen(certificateValidDuration <= 0, CertificateExpired); }
    if certificateValidDuration <= ExpiryNotice {
      lines := lines + [Warn(CertificateExpiringSoon)];
    }
    shape := shape + Warns(ExpiringSoonRule(s, now));
    assert lines == shape by { WarnsWhen(certificateValidDuration <= ExpiryNotice, CertificateExpiringSoon); }
  }
}
