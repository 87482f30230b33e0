/** One poll's status snapshot, the quantities derived from it, and the eight
    threshold rules that each may raise a warning. */
module Rules {
  import opened Window
  import opened Balance

  /** A timestamp field as it arrives: an empty string, or an instant. */
  datatype Stamp = Empty | At(micros: Micros)

  /** The instant an empty timestamp field stands for. */
  const Epoch: Micros := 0

  /** A timestamp field read as an instant; each empty field becomes the epoch. */
  function Instant(t: Stamp): Micros
  {
    match t
    case Empty => Epoch
    case At(u) => u
  }

  /** The decoded status endpoint response (`signingAddressBalance` in wei). */
  datatype Snapshot = Snapshot(
    isRecoveryComplete: bool,
    lastCommittedBlockAt: Stamp,
    currentBlock: int,
    lastBlockFromGovernors: int,
    lastSyncedWithGovernorNodes: Stamp,
    currentSuperblock: int,
    lastSuperblockFromBootnodes: int,
    lastSyncedWithBootnodes: Stamp,
    certificateDnsNames: seq<string>,
    certificatesValidUpto: Stamp,
    signingAddress: string,
    signingAddressBalance: int,
    version: string)

  const Minute: Micros := 60 * MicrosPerSecond
  const Day: Micros := 24 * 60 * Minute

  const StaleBlockLimit: Micros := 5 * Minute
  const GovernorSyncLimit: Micros := Minute
  const SuperblockSyncLimit: Micros := 2 * Minute
  const ExpiryNotice: Micros := 7 * Day
  /** Lag, in blocks or superblocks, beyond which the node is reported behind. */
  const LagLimit: int := 100

  function SinceLastBlock(s: Snapshot, now: Micros): Micros
  {
    now - Instant(s.lastCommittedBlockAt)
  }

  function SinceGovernorSync(s: Snapshot, now: Micros): Micros
  {
    now - Instant(s.lastSyncedWithGovernorNodes)
  }

  function SinceBootnodeSync(s: Snapshot, now: Micros): Micros
  {
    now - Instant(s.lastSyncedWithBootnodes)
  }

  /** How long the certificate remains valid; negative once it has expired. */
  function CertificateRemaining(s: Snapshot, now: Micros): Micros
  {
    Instant(s.certificatesValidUpto) - now
  }

  function BlocksBehind(s: Snapshot): int
  {
    s.lastBlockFromGovernors - s.currentBlock
  }

  function SuperblocksBehind(s: Snapshot): int
  {
    s.lastSuperblockFromBootnodes - s.currentSuperblock
  }

  /** The sample this poll adds to the rolling window. */
  function Observe(s: Snapshot): Sample
  {
    Sample(s.currentBlock, Instant(s.lastCommittedBlockAt))
  }

  datatype Warning =
    | StaleBlock
    | BehindGovernors(blocks: int)
    | GovernorSyncStale
    | BehindBootnodes(superblocks: int)
    | SuperblockSyncStale
    | LowBalance(minimum: int)
    | CertificateExpired
    | CertificateExpiringSoon

  function When(fires: bool, w: Warning): seq<Warning>
  {
    if fires then [w] else []
  }

  // The eight rules, in the order the report lists them.

  function StaleBlockRule(s: Snapshot, now: Micros): seq<Warning>
  {
    When(SinceLastBlock(s, now) > StaleBlockLimit, StaleBlock)
  }

  function BehindGovernorsRule(s: Snapshot): seq<Warning>
  {
    When(BlocksBehind(s) > LagLimit, BehindGovernors(BlocksBehind(s)))
  }

  function GovernorSyncRule(s: Snapshot, now: Micros): seq<Warning>
  {
    When(SinceGovernorSync(s, now) > GovernorSyncLimit, GovernorSyncStale)
  }

  function BehindBootnodesRule(s: Snapshot): seq<Warning>
  {
    When(SuperblocksBehind(s) > LagLimit, BehindBootnodes(SuperblocksBehind(s)))
  }

  /** Reads the governor sync time, not the bootnode one, as the monitor does. */
  function SuperblockSyncRule(s: Snapshot, now: Micros): seq<Warning>
  {
    When(SinceGovernorSync(s, now) > SuperblockSyncLimit, SuperblockSyncStale)
  }

  function LowBalanceRule(s: Snapshot, minBalance: int): seq<Warning>
  {
    When(BelowMinimum(minBalance, s.signingAddressBalance), LowBalance(minBalance))
  }

  function ExpiredRule(s: Snapshot, now: Micros): seq<Warning>
  {
    When(CertificateRemaining(s, now) <= 0, CertificateExpired)
  }

  function ExpiringSoonRule(s: Snapshot, now: Micros): seq<Warning>
  {
    When(CertificateRemaining(s, now) <= ExpiryNotice, CertificateExpiringSoon)
  }

  /** Every warning one poll raises, in report order. */
  function Triggered(s: Snapshot, minBalance: int, now: Micros): seq<Warning>
  {
    StaleBlockRule(s, now) + BehindGovernorsRule(s) + GovernorSyncRule(s, now)
    + BehindBootnodesRule(s) + SuperblockSyncRule(s, now)
    + LowBalanceRule(s, minBalance) + ExpiredRule(s, now) + ExpiringSoonRule(s, now)
  }

  /** A warning is raised exactly when one of the eight rules raises it. */
  lemma TriggeredMembers(s: Snapshot, minBalance: int, now: Micros, w: Warning)
    ensures w in Triggered(s, minBalance, now) <==>
      || w in StaleBlockRule(s, now) || w in BehindGovernorsRule(s) || w in GovernorSyncRule(s, now)
      || w in BehindBootnodesRule(s) || w in SuperblockSyncRule(s, now)
      || w in LowBalanceRule(s, minBalance) || w in ExpiredRule(s, now) || w in ExpiringSoonRule(s, now)
  {
  }

  /** Each rule fires exactly when its threshold is crossed, strictly for the
      durations and lags, and at or below the limit for the certificate. */
  lemma TriggeredRules(s: Snapshot, minBalance: int, now: Micros)
    ensures StaleBlock in Triggered(s, minBalance, now) <==> SinceLastBlock(s, now) > StaleBlockLimit
    ensures BehindGovernors(BlocksBehind(s)) in Triggered(s, minBalance, now) <==> BlocksBehind(s) > LagLimit
    ensures GovernorSyncStale in Triggered(s, minBalance, now) <==> SinceGovernorSync(s, now) > GovernorSyncLimit
    ensures BehindBootnodes(SuperblocksBehind(s)) in Triggered(s, minBalance, now) <==> SuperblocksBehind(s) > LagLimit
    ensures SuperblockSyncStale in Triggered(s, minBalance, now) <==> SinceGovernorSync(s, now) > SuperblockSyncLimit
    ensures LowBalance(minBalance) in Triggered(s, minBalance, now) <==> BelowMinimum(minBalance, s.signingAddressBalance)
    ensures CertificateExpired in Triggered(s, minBalance, now) <==> CertificateRemaining(s, now) <= 0
    ensures CertificateExpiringSoon in Triggered(s, minBalance, now) <==> CertificateRemaining(s, now) <= ExpiryNotice
    ensures (exists w :: w in Triggered(s, minBalance, now) && w.BehindGovernors?) <==> BlocksBehind(s) > LagLimit
    ensures (exists w :: w in Triggered(s, minBalance, now) && w.BehindBootnodes?) <==> SuperblocksBehind(s) > LagLimit
    ensures (exists w :: w in Triggered(s, minBalance, now) && w.LowBalance?) <==> BelowMinimum(minBalance, s.signingAddressBalance)
  {
    DurationRules(s, minBalance, now);
    LagRules(s, minBalance, now);
    BalanceAndCertificateRules(s, minBalance, now);
    TriggeredValues(s, minBalance, now);
  }

  /** A lag or balance warning always carries the current lag or the
      configured minimum: no warning of those kinds with another value is
      ever raised. */
  lemma TriggeredValues(s: Snapshot, minBalance: int, now: Micros)
    ensures forall w :: w in Triggered(s, minBalance, now) && w.BehindGovernors? ==> w == BehindGovernors(BlocksBehind(s))
    ensures forall w :: w in Triggered(s, minBalance, now) && w.BehindBootnodes? ==> w == BehindBootnodes(SuperblocksBehind(s))
    ensures forall w :: w in Triggered(s, minBalance, now) && w.LowBalance? ==> w == LowBalance(minBalance)
  {
    forall w | w in Triggered(s, minBalance, now)
      ensures w.BehindGovernors? ==> w == BehindGovernors(BlocksBehind(s))
      ensures w.BehindBootnodes? ==> w == BehindBootnodes(SuperblocksBehind(s))
      ensures w.LowBalance? ==> w == LowBalance(minBalance)
    {
      TriggeredMembers(s, minBalance, now, w);
    }
  }

  lemma DurationRules(s: Snapshot, minBalance: int, now: Micros)
    ensures StaleBlock in Triggered(s, minBalance, now) <==> SinceLastBlock(s, now) > StaleBlockLimit
    ensures GovernorSyncStale in Triggered(s, minBalance, now) <==> SinceGovernorSync(s, now) > GovernorSyncLimit
    ensures SuperblockSyncStale in Triggered(s, minBalance, now) <==> SinceGovernorSync(s, now) > SuperblockSyncLimit
  {
    var ws := Triggered(s, minBalance, now);
    assert StaleBlock in ws <==> SinceLastBlock(s, now) > StaleBlockLimit by {
      TriggeredMembers(s, minBalance, now, StaleBlock);
    }
    assert GovernorSyncStale in ws <==> SinceGovernorSync(s, now) > GovernorSyncLimit by {
      TriggeredMembers(s, minBalance, now, GovernorSyncStale);
    }
    assert SuperblockSyncStale in ws <==> SinceGovernorSync(s, now) > SuperblockSyncLimit by {
      TriggeredMembers(s, minBalance, now, SuperblockSyncStale);
    }
  }

  lemma LagRules(s: Snapshot, minBalance: int, now: Micros)
    ensures BehindGovernors(BlocksBehind(s)) in Triggered(s, minBalance, now) <==> BlocksBehind(s) > LagLimit
    ensures BehindBootnodes(SuperblocksBehind(s)) in Triggered(s, minBalance, now) <==> SuperblocksBehind(s) > LagLimit
  {
    var ws := Triggered(s, minBalance, now);
    assert BehindGovernors(BlocksBehind(s)) in ws <==> BlocksBehind(s) > LagLimit by {
      TriggeredMembers(s, minBalance, now, BehindGovernors(BlocksBehind(s)));
    }
    assert BehindBootnodes(SuperblocksBehind(s)) in ws <==> SuperblocksBehind(s) > LagLimit by {
      TriggeredMembers(s, minBalance, now, BehindBootnodes(SuperblocksBehind(s)));
    }
  }

  lemma BalanceAndCertificateRules(s: Snapshot, minBalance: int, now: Micros)
    ensures LowBalance(minBalance) in Triggered(s, minBalance, now) <==> BelowMinimum(minBalance, s.signingAddressBalance)
    ensures CertificateExpired in Triggered(s, minBalance, now) <==> CertificateRemaining(s, now) <= 0
    ensures CertificateExpiringSoon in Triggered(s, minBalance, now) <==> CertificateRemaining(s, now) <= ExpiryNotice
  {
    var ws := Triggered(s, minBalance, now);
    assert LowBalance(minBalance) in ws <==> BelowMinimum(minBalance, s.signingAddressBalance) by {
      TriggeredMembers(s, minBalance, now, LowBalance(minBalance));
    }
    assert CertificateExpired in ws <==> CertificateRemaining(s, now) <= 0 by {
      TriggeredMembers(s, minBalance, now, CertificateExpired);
    }
    assert CertificateExpiringSoon in ws <==> CertificateRemaining(s, now) <= ExpiryNotice by {
      TriggeredMembers(s, minBalance, now, CertificateExpiringSoon);
    }
  }

  /** A node level with or ahead of its peers is never reported behind. */
  lemma NoLagNoWarning(s: Snapshot, minBalance: int, now: Micros)
    requires BlocksBehind(s) <= 0 && SuperblocksBehind(s) <= 0
    ensures forall w :: w in Triggered(s, minBalance, now) ==> !w.BehindGovernors? && !w.BehindBootnodes?
  {
  }

  /** An expired certificate raises both certificate warnings, expired first,
      and they close the list. */
  lemma ExpiredRaisesBoth(s: Snapshot, minBalance: int, now: Micros)
    requires CertificateRemaining(s, now) <= 0
    ensures var ws := Triggered(s, minBalance, now);
      |ws| >= 2 && ws[|ws| - 2..] == [CertificateExpired, CertificateExpiringSoon]
  {
  }

  /** The superblock sync rule ignores the bootnode sync time altogether. */
  lemma SuperblockSyncIgnoresBootnodes(s: Snapshot, t: Stamp, minBalance: int, now: Micros)
    ensures Triggered(s.(lastSyncedWithBootnodes := t), minBalance, now) == Triggered(s, minBalance, now)
  {
  }

  /** Empty timestamp fields stand for the epoch, so once `now` is more than
      a rule's own limit past the epoch that rule fires; an empty certificate
      date is expired from the epoch on, and expiring soon from seven days
      before it. */
  lemma EmptyStampsAreStale(s: Snapshot, minBalance: int, now: Micros)
    ensures s.lastCommittedBlockAt == Empty && now > StaleBlockLimit
      ==> StaleBlock in Triggered(s, minBalance, now)
    ensures s.lastSyncedWithGovernorNodes == Empty && now > GovernorSyncLimit
      ==> GovernorSyncStale in Triggered(s, minBalance, now)
    ensures s.lastSyncedWithGovernorNodes == Empty && now > SuperblockSyncLimit
      ==> SuperblockSyncStale in Triggered(s, minBalance, now)
    ensures s.certificatesValidUpto == Empty && now >= Epoch
      ==> CertificateExpired in Triggered(s, minBalance, now)
    ensures s.certificatesValidUpto == Empty && now >= Epoch - ExpiryNotice
      ==> CertificateExpiringSoon in Triggered(s, minBalance, now)
  {
    if s.lastCommittedBlockAt == Empty && now > StaleBlockLimit {
      assert StaleBlockRule(s, now) == [StaleBlock];
      TriggeredMembers(s, minBalance, now, StaleBlock);
    }
    if s.lastSyncedWithGovernorNodes == Empty && now > GovernorSyncLimit {
      assert GovernorSyncRule(s, now) == [GovernorSyncStale];
      TriggeredMembers(s, minBalance, now, GovernorSyncStale);
    }
    if s.lastSyncedWithGovernorNodes == Empty && now > SuperblockSyncLimit {
      assert SuperblockSyncRule(s, now) == [SuperblockSyncStale];
      TriggeredMembers(s, minBalance, now, SuperblockSyncStale);
    }
    if s.certificatesValidUpto == Empty && now >= Epoch {
      assert ExpiredRule(s, now) == [CertificateExpired];
      TriggeredMembers(s, minBalance, now, CertificateExpired);
    }
    if s.certificatesValidUpto == Empty && now >= Epoch - ExpiryNotice {
      assert ExpiringSoonRule(s, now) == [CertificateExpiringSoon];
      TriggeredMembers(s, minBalance, now, CertificateExpiringSoon);
    }
  }

  /** The certificate boundaries: at exactly zero remaining it is expired (and
      so also expiring soon); a second under seven days is only expiring soon;
      a second over raises neither. */
  lemma CertificateBoundaries(s: Snapshot, minBalance: int, now: Micros)
    ensures CertificateRemaining(s, now) == 0
      ==> CertificateExpired in Triggered(s, minBalance, now)
    ensures CertificateRemaining(s, now) == ExpiryNotice - MicrosPerSecond
      ==> CertificateExpiringSoon in Triggered(s, minBalance, now) && CertificateExpired !in Triggered(s, minBalance, now)
    ensures CertificateRemaining(s, now) == ExpiryNotice + MicrosPerSecond
      ==> CertificateExpiringSoon !in Triggered(s, minBalance, now) && CertificateExpired !in Triggered(s, minBalance, now)
  {
    BalanceAndCertificateRules(s, minBalance, now);
  }

  /** Below 10^28 wei the balance warning is the exact comparison of the
      minimum with wei / 10^18. */
  lemma LowBalanceExact(s: Snapshot, minBalance: int, now: Micros)
    requires Abs(s.signingAddressBalance) < Pow10(Precision)
    ensures LowBalance(minBalance) in Triggered(s, minBalance, now)
      <==> minBalance * WeiPerRbnt > s.signingAddressBalance
    ensures (exists w :: w in Triggered(s, minBalance, now) && w.LowBalance?)
      <==> minBalance * WeiPerRbnt > s.signingAddressBalance
  {
    TriggeredRules(s, minBalance, now);
    BelowMinimumExact(minBalance, s.signingAddressBalance);
  }

  /** 150 blocks behind the governors warns with that count; 150 ahead does not. */
  lemma LagScenarios(s: Snapshot, minBalance: int, now: Micros)
    ensures s.currentBlock == 100 && s.lastBlockFromGovernors == 250
      ==> BehindGovernors(150) in Triggered(s, minBalance, now)
    ensures s.currentBlock == 250 && s.lastBlockFromGovernors == 100
      ==> forall w :: w in Triggered(s, minBalance, now) ==> !w.BehindGovernors?
  {
    LagRules(s, minBalance, now);
    if s.currentBlock == 250 && s.lastBlockFromGovernors == 100 {
      forall w | w in Triggered(s, minBalance, now) ensures !w.BehindGovernors? {
        TriggeredMembers(s, minBalance, now, w);
      }
    }
  }
}
