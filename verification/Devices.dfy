/** Four shipped device configurations, and the two-rank HBM2 system on which dual issue loses reads. */
module Devices {
  import opened Types
  import opened Timing
  import opened SharedCycle
  import opened ControllerRuns
  import opened ClockSums
  import opened RefreshCadence
  import opened AddressMapping
  import Trace

  /** The values a configuration file may leave out. */
  function Defaults(decode: nat -> Address): Config {
    Config(protocol := DDR3, ranks := 1, bankgroups := 2, banksPerGroup := 2, decode := decode,
           perRankQueues := false, closePage := false, unifiedQueue := false, hbmDualCmd := true,
           cmdQueueSize := 16, transQueueSize := 32, refreshPolicy := RankStaggered,
           burst := 4, AL := 0, CL := 12, CWL := 12, tCCD_L := 6, tCCD_S := 4, tRTRS := 2, tRTP := 5,
           tWTR_L := 5, tWTR_S := 5, tWR := 10, tRP := 10, tRRD_L := 4, tRRD_S := 4, tRAS := 24, tRCD := 10,
           tRFC := 74, tRFCb := 20, tCKESR := 12, tXS := 432, tREFI := 7800, tREFIb := 1950, tFAW := 50,
           tPPD := 0, t32AW := 330, tRCDRD := 24, tRCDWR := 20)
  }

  /** DDR4_8Gb_x4_2666: eight ranks. */
  function Ddr4At2666(decode: nat -> Address): Config {
    Defaults(decode).(
      protocol := DDR4, ranks := 8, bankgroups := 4, banksPerGroup := 4, cmdQueueSize := 8,
      CL := 19, CWL := 14, tRCD := 19, tRP := 19, tRAS := 43, tRFC := 467, tREFI := 10398, tRRD_S := 4,
      tRRD_L := 7, tWTR_S := 4, tWTR_L := 10, tFAW := 16, tWR := 20, tRTP := 10, tCCD_S := 4, tCCD_L := 7,
      tCKESR := 8, tXS := 480, tRTRS := 1)
  }

  /** DDR4_8Gb_x8_3200: two ranks, and a negative spacing from writes to reads of the other rank. */
  function Ddr4At3200(decode: nat -> Address): Config {
    Defaults(decode).(
      protocol := DDR4, ranks := 2, bankgroups := 4, banksPerGroup := 4, cmdQueueSize := 8,
      CL := 22, CWL := 16, tRCD := 22, tRP := 22, tRAS := 52, tRFC := 560, tREFI := 12480, tRRD_S := 4,
      tRRD_L := 8, tWTR_S := 4, tWTR_L := 12, tFAW := 34, tWR := 24, tRTP := 12, tCCD_S := 4, tCCD_L := 8,
      tCKESR := 9, tXS := 576, tRTRS := 1)
  }

  /** GDDR5_8Gb_x32: one rank, bank groups disabled. */
  function Gddr5(decode: nat -> Address): Config {
    Defaults(decode).(
      protocol := GDDR5, ranks := 1, bankgroups := 1, banksPerGroup := 16, cmdQueueSize := 8, burst := 2,
      CL := 24, CWL := 7, tRCDRD := 24, tRCDWR := 20, tRP := 24, tRAS := 56, tRFC := 74, tREFI := 3800,
      tRRD_S := 10, tRRD_L := 10, tWTR_S := 10, tWTR_L := 10, tFAW := 40, tWR := 24, tCCD_S := 2, tCCD_L := 3,
      tXS := 94, tCKESR := 2, tRTRS := 1, tPPD := 5, t32AW := 360, tRFCb := 30, tREFIb := 238)
  }

  /** HBM2_4Gb_x128: one rank at the shipped channel size of 512 MB, two at 1024 MB. */
  function Hbm2(decode: nat -> Address, ranks: nat): Config {
    Defaults(decode).(
      protocol := HBM, ranks := ranks, bankgroups := 4, banksPerGroup := 4, cmdQueueSize := 8, burst := 2,
      CL := 14, CWL := 4, tRCDRD := 14, tRCDWR := 14, tRP := 14, tRAS := 34, tRFC := 260, tREFI := 3900,
      tREFIb := 128, tRRD_S := 4, tRRD_L := 6, tWTR_S := 6, tWTR_L := 8, tFAW := 30, tWR := 16, tCCD_S := 1,
      tCCD_L := 2, tXS := 268)
  }

  /** Every shipped configuration above meets the assumptions. */
  lemma ShippedAreSound(decode: nat -> Address)
    ensures Ddr4At2666(decode).DecodesInto() ==> Covered(Ddr4At2666(decode))
    ensures Ddr4At3200(decode).DecodesInto() ==> Covered(Ddr4At3200(decode)) && WriteToReadO(Ddr4At3200(decode)) == -1
    ensures Gddr5(decode).DecodesInto() ==> Covered(Gddr5(decode))
    ensures Hbm2(decode, 1).DecodesInto() ==> Covered(Hbm2(decode, 1)) && Hbm2(decode, 1).DualCmd()
  {
    hide Config.DecodesInto;
  }

  /** The run theorems cover the configuration, no sum wraps, and refreshes are served before the next one. */
  ghost predicate Covered(cfg: Config) {
    Sound(cfg) && SpacingsCovered(cfg) && WorstCase(cfg) < cfg.RefreshInterval()
  }

  /** With two ranks the HBM2 timings are valid, but a write and a read of the other rank may meet. */
  lemma TwoRankHbm2Meets(decode: nat -> Address)
    requires Hbm2(decode, 2).DecodesInto()
    ensures var cfg := Hbm2(decode, 2);
      && cfg.Valid() && cfg.DualCmd() && SpacingsCovered(cfg) && WriteToReadO(cfg) == -6
      && !AccessSpacingsPositive(cfg) && !CyclesUnshared(cfg)
      && CanMeet(cfg, BankId(1, 0, 0), true, false)
      && Trace.Accepted(cfg, Meeting(cfg, BankId(1, 0, 0), true, false))
  {
    hide Config.DecodesInto;
    var cfg := Hbm2(decode, 2);
    MeetingAccepted(cfg, BankId(1, 0, 0), true, false);
  }

  // ---- a real mapping

  function DecodeWith(l: Layout): nat -> Address
    requires l.Valid()
  {
    (hex: nat) => Decode(l, hex)
  }

  /** The mapping string `rochrababgco` for DDR4_8Gb_x4_2666. */
  const LAYOUT: Layout := Layout(
    ["co", "bg", "ba", "ra", "ch", "ro"],
    map["ch" := 0, "ra" := 3, "bg" := 2, "ba" := 2, "ro" := 17, "co" := 7],
    map["co" := 0, "bg" := 7, "ba" := 9, "ra" := 11, "ch" := 14, "ro" := 14], 6)

  lemma LayoutIsValid()
    ensures LAYOUT.Valid()
  {
    var o := LAYOUT.order;
    assert o[0] == "co" && o[1] == "bg" && o[2] == "ba" && o[3] == "ra" && o[4] == "ch" && o[5] == "ro";
    assert ToSet(o) == Fields();
    var ws := WidthsOf(o, LAYOUT.widths);
    assert ws == [7, 2, 2, 3, 0, 17];
    forall i | 0 <= i < 6 ensures LAYOUT.pos[o[i]] == Sum(ws[..i]) {
      PrefixSums(ws, i);
    }
  }

  lemma {:induction false} PrefixSums(ws: seq<nat>, i: nat)
    requires ws == [7, 2, 2, 3, 0, 17] && i <= 6
    ensures Sum(ws[..i]) == [0, 7, 9, 11, 14, 14, 31][i]
  {
    if i > 0 {
      PrefixSums(ws, i - 1);
      SumNext(ws, i - 1);
    } else {
      SumOfNone();
    }
  }

  /** The run theorems have something to speak about: a shipped device with its own mapping. */
  lemma SoundIsInhabited()
    ensures LAYOUT.Valid() && Covered(Ddr4At2666(DecodeWith(LAYOUT)))
  {
    LayoutIsValid();
    hide Layout.Valid, Decode;
    var cfg := Ddr4At2666(DecodeWith(LAYOUT));
    var g := Geometry(1, 8, 4, 4, 131072, 1024, 8, 64);
    assert Pow2(0) == 1 && Pow2(1) == 2 && Pow2(2) == 4 && Pow2(3) == 8 && Pow2(4) == 16;
    LargePowers();
    assert WidthsFollow(g, LAYOUT.widths);
    LayoutDecodesInto(cfg, g, LAYOUT);
    ShippedAreSound(DecodeWith(LAYOUT));
  }

  lemma LargePowers()
    ensures Pow2(7) == 128 && Pow2(17) == 131072 && Pow2(18) == 262144
  {
    assert Pow2(4) == 16 && Pow2(7) == 128 && Pow2(10) == 1024 && Pow2(13) == 8192 && Pow2(16) == 65536;
  }
}
