/** Commands, addresses, transactions and the configuration record shared by the DRAM models. */
module Types {

  datatype Option<+T> = None | Some(value: T)

  function Max(a: int, b: int): int {
    if a < b then b else a
  }

  /** DRAM commands; an invalid command is `None` at the use site. */
  datatype Kind =
    | Read
    | ReadPrecharge
    | Write
    | WritePrecharge
    | Activate
    | Precharge
    | RefreshBank
    | Refresh
    | SrefEnter
    | SrefExit
  {
    predicate IsRefresh() { Refresh? || RefreshBank? }
    predicate IsRead() { Read? || ReadPrecharge? }
    predicate IsWrite() { Write? || WritePrecharge? }
    predicate IsReadWrite() { IsRead() || IsWrite() }
    predicate IsRankCmd() { Refresh? || SrefEnter? || SrefExit? }
  }

  datatype Address = Address(channel: int, rank: int, bankgroup: int, bank: int, row: int, column: int)

  /** Position of one bank in a channel. */
  datatype BankId = BankId(rank: int, bankgroup: int, bank: int)

  datatype Command = Command(kind: Kind, addr: Address, hex: nat) {
    function Target(): BankId {
      BankId(addr.rank, addr.bankgroup, addr.bank)
    }
  }

  /** The value `-1` takes in an unsigned 64-bit address. */
  const NO_HEX: nat := 0xFFFF_FFFF_FFFF_FFFF

  datatype Transaction = Transaction(addr: nat, added: nat, complete: nat, isWrite: bool)

  datatype Protocol = DDR3 | DDR4 | GDDR5 | GDDR5X | GDDR6 | LPDDR | LPDDR3 | LPDDR4 | HBM | HBM2 | HMC

  datatype RefreshPolicy = RankSimultaneous | RankStaggered | BankStaggered

  /** The configuration values the controller reads.  `decode` is the address mapping of the
      channel; module AddressMapping shows that the computed one meets `Valid`. */
  datatype Config = Config(
    protocol: Protocol,
    ranks: nat, bankgroups: nat, banksPerGroup: nat,
    decode: nat -> Address,
    perRankQueues: bool, closePage: bool, unifiedQueue: bool, hbmDualCmd: bool,
    cmdQueueSize: nat, transQueueSize: nat,
    refreshPolicy: RefreshPolicy,
    burst: nat, AL: nat, CL: nat, CWL: nat,
    tCCD_L: nat, tCCD_S: nat, tRTRS: nat, tRTP: nat, tWTR_L: nat, tWTR_S: nat, tWR: nat, tRP: nat,
    tRRD_L: nat, tRRD_S: nat, tRAS: nat, tRCD: nat, tRFC: nat, tRFCb: nat, tCKESR: nat, tXS: nat,
    tREFI: nat, tREFIb: nat, tFAW: nat, tPPD: nat, t32AW: nat, tRCDRD: nat, tRCDWR: nat)
  {
    predicate IsGDDR() { protocol.GDDR5? || protocol.GDDR5X? || protocol.GDDR6? }
    predicate IsHBM() { protocol.HBM? || protocol.HBM2? }
    predicate DualCmd() { hbmDualCmd && IsHBM() }

    function RL(): nat { AL + CL }
    function WL(): nat { AL + CWL }
    function ReadDelay(): nat { RL() + burst }
    function WriteDelay(): nat { WL() + burst }
    function TRC(): nat { tRAS + tRP }
    function Banks(): nat { bankgroups * banksPerGroup }

    predicate InRange(id: BankId) {
      0 <= id.rank < ranks && 0 <= id.bankgroup < bankgroups && 0 <= id.bank < banksPerGroup
    }

    /** Cycles between two refresh insertions. */
    function RefreshInterval(): nat
      requires ranks > 0
    {
      match refreshPolicy
      case RankSimultaneous => tREFI
      case BankStaggered => tREFIb
      case RankStaggered => tREFI / ranks
    }

    /** The kind of command a transaction becomes under the row policy. */
    function AccessKind(isWrite: bool): Kind {
      if closePage then (if isWrite then WritePrecharge else ReadPrecharge)
      else if isWrite then Write else Read
    }

    /** The address mapping stays within the geometry. */
    ghost predicate DecodesInto() {
      forall hex: nat :: InRange(Command(Read, decode(hex), hex).Target()) && 0 <= decode(hex).row
    }

    /** What the simulator takes for granted of a configuration: a non-empty geometry, an address
        mapping into it, a non-zero refresh interval, and an activate-to-access spacing that is not
        negative. */
    ghost predicate Valid() {
      && ranks > 0 && bankgroups > 0 && banksPerGroup > 0
      && RefreshInterval() > 0
      && DecodesInto()
      && (!IsGDDR() && !IsHBM() ==> AL <= tRCD)
    }
  }
}
