/** The mutable buffer, proved against the value model. */
module GlobalBufferModel {
  import opened Replacement
  import opened Buffer
  import opened BufferRuns

  class GlobalBuffer {
    const p: Params
    var cache: seq<seq<Block>>
    /** The LRU or FIFO list of each set. */
    var lists: seq<seq<Block>>
    var predictions: seq<seq<int>>
    var asked: map<nat, Edge>
    var requested: map<nat, bool>
    var waiting: seq<Edge>
    var queueEmpty: bool
    var canReceive: bool
    var canTransfer: bool
    ghost var history: seq<Event>

    ghost function InFlight(): set<nat>
      reads this
    {
      set a | a in requested && requested[a]
    }

    ghost function View(): State
      reads this
    {
      State(cache, lists, predictions, asked, InFlight(), waiting, queueEmpty, canReceive, canTransfer, false, history)
    }

    ghost predicate Valid()
      reads this
    {
      p.Valid() && Inv(p, View())
    }

    constructor (p: Params)
      requires p.Valid()
      ensures Valid() && this.p == p && View() == Initial(p)
    {
      this.p := p;
      cache := seq(p.sets, _ => seq(p.ways, _ => UNUSED));
      lists := seq(p.sets, _ => []);
      predictions := seq(p.sets, _ => seq(p.ways, _ => 3));
      asked, requested, waiting, history := map[], map[], [], [];
      queueEmpty, canReceive, canTransfer := true, true, false;
      new;
      InitialInv(p);
    }

    // ---- scans

    method FindWay(k: nat, b: Block) returns (w: nat)
      requires k < |cache|
      ensures w == WayOf(cache[k], b, 0)
    {
      w := 0;
      while w < |cache[k]|
        invariant 0 <= w <= |cache[k]| && WayOf(cache[k], b, 0) == WayOf(cache[k], b, w)
      {
        if cache[k][w] == b {
          return;
        }
        w := w + 1;
      }
    }

    method FindFree(k: nat) returns (w: nat)
      requires k < |cache|
      ensures w == FreeWay(cache[k], 0)
    {
      w := 0;
      while w < |cache[k]|
        invariant 0 <= w <= |cache[k]| && FreeWay(cache[k], 0) == FreeWay(cache[k], w)
      {
        if cache[k][w].col == -1 {
          return;
        }
        w := w + 1;
      }
    }

    // ---- edges come in

    method RequestData(e: Edge)
      modifies this`asked, this`requested, this`history
      ensures View() == Ask(old(View()), e)
    {
      asked := asked[e.address := e];
      requested := requested[e.address := true];
      history := history + [Request(BlockOf(e))];
      assert InFlight() == old(InFlight()) + {e.address};
    }

    method UseBlock(k: nat, w: nat, b: Block)
      requires View().Shaped(p) && k < p.sets && w < p.ways
      modifies this`lists, this`predictions, this`history, this`canTransfer
      ensures View() == Use(p, old(View()), k, w, b)
    {
      if p.algo.LRU? {
        var l := LruScan(lists[k], b);
        lists := lists[k := l];
      } else if p.algo.RRIP? {
        predictions := predictions[k := predictions[k][w := 0]];
      }
      history := history + [Hit(b)];
      canTransfer := true;
    }

    /** An edge arrives: a hit refreshes its block, a miss asks for it unless it is on its way. */
    method ReceiveEdge(e: Edge)
      requires Valid() && p.Knows(e)
      modifies this
      ensures Valid() && old(View()).Shaped(p) && View() == Buffer.ReceiveEdge(p, old(View()), e)
    {
      hide Inv, WayOf, Use, Resident;
      ghost var s := View();
      InvShaped(p, s);
      ReceiveEdgeKeepsInv(p, s, e);
      waiting := waiting + [e];
      queueEmpty := false;
      if |waiting| == QUEUE_LIMIT {
        canReceive := false;
      }
      var b := BlockOf(e);
      var k := p.SetOf(b);
      var w := FindWay(k, b);
      if w < p.ways {
        UseBlock(k, w, b);
      } else if e.address !in requested || !requested[e.address] {
        RequestData(e);
      }
    }

    // ---- data come in

    method PlaceBlock(k: nat, w: nat, b: Block)
      requires View().Shaped(p) && k < p.sets && w < p.ways
      modifies this`cache, this`history
      ensures View() == Place(p, old(View()), k, w, b)
    {
      history := history + (if cache[k][w].Unused() then [] else [Evict(cache[k][w])]) + [Fill(b)];
      cache := cache[k := cache[k][w := b]];
    }

    method EnterList(k: nat, list: seq<Block>, b: Block)
      requires View().Shaped(p) && k < p.sets
      modifies this`lists
      ensures lists == old(lists)[k := Access(p.algo, list, b)]
    {
      if p.algo.LRU? {
        var l := LruScan(list, b);
        lists := lists[k := l];
      } else {
        lists := lists[k := list + [b]];
      }
    }

    /** The block takes the first unused way, or the way of the victim; the victim is always found. */
    method FillFromList(k: nat, b: Block)
      requires Valid() && k < p.sets && !p.algo.RRIP?
      modifies this`cache, this`lists, this`history
      ensures old(View()).Shaped(p) && View() == FillByList(p, old(View()), k, b)
    {
      hide Inv, WayOf, FreeWay, Resident, Access, InAgeOrder, FairEviction;
      ghost var s := View();
      InvShaped(p, s);
      var free := FindFree(k);
      if free < p.ways {
        PlaceBlock(k, free, b);
        EnterList(k, lists[k], b);
      } else {
        VictimOfFullSet(p, s, k);
        var (v, rest) := Victim(p.algo, lists[k]);
        var w := FindWay(k, v);
        PlaceBlock(k, w, b);
        EnterList(k, rest, b);
      }
    }

    method FillFromPredictions(k: nat, b: Block)
      requires Valid() && k < p.sets && p.algo.RRIP?
      modifies this`cache, this`predictions, this`history
      ensures old(View()).Shaped(p) && View() == FillByPrediction(p, old(View()), k, b)
    {
      hide Inv, RripReplace, Resident;
      ghost var s := View();
      InvShaped(p, s);
      InvPredictions(p, s);
      RripChoice(p, s, k);
      var w, row := SearchVictim(predictions[k]);
      PlaceBlock(k, w, b);
      predictions := predictions[k := row];
    }

    /** Data arrive for an address in flight. */
    method ReceiveData(address: nat)
      requires Valid() && address in InFlight()
      modifies this
      ensures Valid() && old(View()).Shaped(p) && address in old(asked)
      ensures View() == ReceiveBlock(p, old(View()), address)
    {
      hide Inv, Resident, FillByList, FillByPrediction;
      ghost var s := View();
      InvShaped(p, s);
      ReceiveBlockKeepsInv(p, s, address);
      var b := BlockOf(asked[address]);
      var k := p.SetOf(b);
      if p.algo.RRIP? {
        FillFromPredictions(k, b);
      } else {
        FillFromList(k, b);
      }
      requested := requested[address := false];
      assert InFlight() == s.inFlight - {address};
      if waiting != [] && address == waiting[0].address {
        canTransfer := true;
      }
    }

    // ---- edges go out

    method CanTransfer()
      requires Valid()
      modifies this
      ensures Valid() && old(View()).Shaped(p) && View() == CheckTransfer(p, old(View()))
    {
      hide Inv, Resident, WayOf;
      ghost var s := View();
      InvShaped(p, s);
      CheckKeepsInv(p, s);
      if queueEmpty {
        canTransfer := false;
      } else {
        var e := waiting[0];
        var w := FindWay(p.SetOf(BlockOf(e)), BlockOf(e));
        if w == p.ways {
          if e.address !in requested || !requested[e.address] {
            RequestData(e);
          }
        }
        canTransfer := w < p.ways;
      }
    }

    method TransferEdge() returns (e: Edge)
      requires Valid() && waiting != []
      modifies this`canReceive, this`waiting, this`queueEmpty
      ensures Valid() && e == old(waiting)[0] && View() == Buffer.TransferEdge(old(View()))
    {
      TransferKeepsInv(p, View());
      hide Inv;
      canReceive := true;
      e := waiting[0];
      waiting := waiting[1..];
      if waiting == [] {
        queueEmpty := true;
      }
    }
  }
}
