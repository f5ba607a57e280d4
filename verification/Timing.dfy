/** The command-to-command spacing tables built once from the configuration. */
module Timing {
  import opened Types

  /** Pairs (next command, least distance in cycles from the command just issued). */
  type Lags = seq<(Kind, int)>

  /** One list per issued command and per position of the affected bank relative to it. */
  datatype Table = Table(
    sameBank: Kind -> Lags,
    otherBanksSameBankgroup: Kind -> Lags,
    otherBankgroupsSameRank: Kind -> Lags,
    otherRanks: Kind -> Lags,
    sameRank: Kind -> Lags)

  function ReadToReadL(c: Config): int { Max(c.burst, if c.bankgroups == 1 then c.tCCD_S else c.tCCD_L) }
  function ReadToReadS(c: Config): int { Max(c.burst, c.tCCD_S) }
  function ReadToReadO(c: Config): int { c.burst + c.tRTRS }
  function ReadToWrite(c: Config): int { c.RL() + c.burst - c.WL() + c.tRTRS }
  function ReadToWriteO(c: Config): int { c.ReadDelay() + c.burst + c.tRTRS - c.WriteDelay() }
  function ReadToPrecharge(c: Config): int { c.AL + c.tRTP }
  function ReadpToAct(c: Config): int { c.AL + c.burst + c.tRTP + c.tRP }
  function ReadToActivate(c: Config): int { ReadToPrecharge(c) + c.tRP }
  function WriteToReadL(c: Config): int { c.WriteDelay() + (if c.bankgroups == 1 then c.tWTR_S else c.tWTR_L) }
  function WriteToReadS(c: Config): int { c.WriteDelay() + c.tWTR_S }
  function WriteToReadO(c: Config): int { c.WriteDelay() + c.burst + c.tRTRS - c.ReadDelay() }
  function WriteToWriteL(c: Config): int { ReadToReadL(c) }
  function WriteToWriteS(c: Config): int { ReadToReadS(c) }
  function WriteToWriteO(c: Config): int { c.burst }
  function WriteToPrecharge(c: Config): int { c.WL() + c.burst + c.tWR }
  function WriteToActivate(c: Config): int { WriteToPrecharge(c) + c.tRP }
  function ActivateToActivateL(c: Config): int { if c.bankgroups == 1 then c.tRRD_S else c.tRRD_L }
  function ActivateToRead(c: Config): int { if c.IsGDDR() || c.IsHBM() then c.tRCDRD else c.tRCD - c.AL }
  function ActivateToWrite(c: Config): int { if c.IsGDDR() || c.IsHBM() then c.tRCDWR else c.tRCD - c.AL }

  predicate NeedsPPD(c: Config) { c.IsGDDR() || c.protocol.LPDDR4? }

  function ReadWriteLags(toRead: int, toWrite: int): Lags {
    [(Read, toRead), (Write, toWrite), (ReadPrecharge, toRead), (WritePrecharge, toWrite)]
  }

  function ClosedLags(lag: int): Lags {
    [(Activate, lag), (Kind.Refresh, lag), (RefreshBank, lag), (SrefEnter, lag)]
  }

  function SameBank(c: Config, k: Kind): Lags {
    match k
    case Read => ReadWriteLags(ReadToReadL(c), ReadToWrite(c)) + [(Precharge, ReadToPrecharge(c))]
    case Write => ReadWriteLags(WriteToReadL(c), WriteToWriteL(c)) + [(Precharge, WriteToPrecharge(c))]
    case ReadPrecharge =>
      [(Activate, ReadpToAct(c)), (Kind.Refresh, ReadToActivate(c)),
       (RefreshBank, ReadToActivate(c)), (SrefEnter, ReadToActivate(c))]
    case WritePrecharge => ClosedLags(WriteToActivate(c))
    case Activate =>
      [(Activate, c.TRC())] + ReadWriteLags(ActivateToRead(c), ActivateToWrite(c)) + [(Precharge, c.tRAS)]
    case Precharge => ClosedLags(c.tRP)
    case _ => []
  }

  function OtherBanksSameBankgroup(c: Config, k: Kind): Lags {
    match k
    case Read => ReadWriteLags(ReadToReadL(c), ReadToWrite(c))
    case ReadPrecharge => ReadWriteLags(ReadToReadL(c), ReadToWrite(c))
    case Write => ReadWriteLags(WriteToReadL(c), WriteToWriteL(c))
    case WritePrecharge => ReadWriteLags(WriteToReadL(c), WriteToWriteL(c))
    case Activate => [(Activate, ActivateToActivateL(c)), (RefreshBank, c.TRC())]
    case Precharge => if NeedsPPD(c) then [(Precharge, c.tPPD)] else []
    case RefreshBank => [(Activate, c.tRFC), (RefreshBank, c.tREFI)]
    case _ => []
  }

  function OtherBankgroupsSameRank(c: Config, k: Kind): Lags {
    match k
    case Read => ReadWriteLags(ReadToReadS(c), ReadToWrite(c))
    case ReadPrecharge => ReadWriteLags(ReadToReadS(c), ReadToWrite(c))
    case Write => ReadWriteLags(WriteToReadS(c), WriteToWriteS(c))
    case WritePrecharge => ReadWriteLags(WriteToReadS(c), WriteToWriteS(c))
    case Activate => [(Activate, c.tRRD_S), (RefreshBank, c.TRC())]
    case Precharge => if NeedsPPD(c) then [(Precharge, c.tPPD)] else []
    case RefreshBank => [(Activate, c.tRFC), (RefreshBank, c.tREFI)]
    case _ => []
  }

  function OtherRanks(c: Config, k: Kind): Lags {
    match k
    case Read => ReadWriteLags(ReadToReadO(c), ReadToWriteO(c))
    case ReadPrecharge => ReadWriteLags(ReadToReadO(c), ReadToWriteO(c))
    case Write => ReadWriteLags(WriteToReadO(c), WriteToWriteO(c))
    case WritePrecharge => ReadWriteLags(WriteToReadO(c), WriteToWriteO(c))
    case _ => []
  }

  function SameRank(c: Config, k: Kind): Lags {
    match k
    case RefreshBank => ClosedLags(c.tRFCb)
    case Refresh => [(Activate, c.tRFC), (Kind.Refresh, c.tRFC), (SrefEnter, c.tRFC)]
    case SrefEnter => [(SrefExit, c.tCKESR)]
    case SrefExit => ClosedLags(c.tXS)
    case _ => []
  }

  function MakeTable(c: Config): Table {
    Table(k => SameBank(c, k), k => OtherBanksSameBankgroup(c, k), k => OtherBankgroupsSameRank(c, k),
          k => OtherRanks(c, k), k => SameRank(c, k))
  }

  /** The list that issuing `cmd` applies to the registers of bank `id`. */
  function Applied(tm: Table, cmd: Command, id: BankId): Lags {
    if cmd.kind.IsRankCmd() then
      if id.rank == cmd.addr.rank then tm.sameRank(cmd.kind) else []
    else if id.rank != cmd.addr.rank then tm.otherRanks(cmd.kind)
    else if id.bankgroup != cmd.addr.bankgroup then tm.otherBankgroupsSameRank(cmd.kind)
    else if id.bank != cmd.addr.bank then tm.otherBanksSameBankgroup(cmd.kind)
    else tm.sameBank(cmd.kind)
  }
}
