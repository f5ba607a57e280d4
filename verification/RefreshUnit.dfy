/** The mutable refresh scheduler of a channel. */
module RefreshUnit {
  import opened Types
  import opened ChannelStateModel
  import RefreshPlan

  class RefreshScheduler {
    const cfg: Config
    const ch: ChannelState
    var clk: nat
    var nextRank: nat
    var nextBg: nat
    var nextBank: nat

    ghost function View(): RefreshPlan.State
      reads this
    {
      RefreshPlan.State(clk, nextRank, nextBg, nextBank)
    }

    constructor (cfg: Config, ch: ChannelState)
      ensures this.cfg == cfg && this.ch == ch && View() == RefreshPlan.INITIAL
    {
      this.cfg, this.ch := cfg, ch;
      clk, nextRank, nextBg, nextBank := 0, 0, 0, 0;
    }

    /** One cycle inserts the request that the plan has for it, if any. */
    method ClockTick()
      requires cfg.ranks > 0 && cfg.RefreshInterval() > 0 && cfg.bankgroups > 0 && cfg.banksPerGroup > 0
      modifies this, ch`refreshQ
      ensures View() == RefreshPlan.Tick(cfg, old(View())).1
      ensures ch.refreshQ == old(ch.refreshQ) + RefreshPlan.Tick(cfg, old(View())).0
    {
      if clk % cfg.RefreshInterval() == 0 && clk > 0 {
        InsertRefresh();
      }
      clk := clk + 1;
    }

    method InsertRefresh()
      requires cfg.ranks > 0 && cfg.bankgroups > 0 && cfg.banksPerGroup > 0
      modifies this`nextRank, this`nextBg, this`nextBank, ch`refreshQ
      ensures View() == RefreshPlan.Advance(cfg, old(View()))
      ensures ch.refreshQ == old(ch.refreshQ) + [RefreshPlan.Request(cfg, old(View()))]
    {
      match cfg.refreshPolicy
      case RankSimultaneous =>
        ch.RankNeedRefresh(0, true);
      case RankStaggered =>
        ch.RankNeedRefresh(nextRank, true);
        IterateNext();
      case BankStaggered =>
        ch.BankNeedRefresh(nextRank, nextBg, nextBank, true);
        IterateNext();
    }

    method IterateNext()
      requires cfg.ranks > 0 && cfg.bankgroups > 0 && cfg.banksPerGroup > 0
      requires !cfg.refreshPolicy.RankSimultaneous?
      modifies this`nextRank, this`nextBg, this`nextBank
      ensures View() == RefreshPlan.Advance(cfg, old(View()))
    {
      match cfg.refreshPolicy
      case RankStaggered =>
        nextRank := (nextRank + 1) % cfg.ranks;
      case BankStaggered =>
        nextBg := (nextBg + 1) % cfg.bankgroups;
        if nextBg == 0 {
          nextBank := (nextBank + 1) % cfg.banksPerGroup;
          if nextBank == 0 {
            nextRank := (nextRank + 1) % cfg.ranks;
          }
        }
    }
  }
}
