/** When transactions are answered.  What a controller has answered, each with its completion time, and what
    it has not, is determined by the transactions it accepted and the commands it issued. */
module Completion {
  import opened Types
  import opened Timing
  import opened Trace
  import opened Control
  import opened Bookkeeping
  import opened RunTheorems
  import Queues

  // ---- the completion time of an accepted transaction

  predicate WritesAt(e: Issued, a: nat, from: nat, to: nat) {
    e.cmd.kind.IsWrite() && e.cmd.hex == a && from <= e.clk < to
  }

  predicate ReadsAt(e: Issued, a: nat, from: nat) {
    e.cmd.kind.IsRead() && e.cmd.hex == a && from <= e.clk
  }

  /** A write of `a` was issued in the cycles from `from` up to, not including, `to`. */
  predicate Written(tr: seq<Issued>, a: nat, from: nat, to: nat) {
    exists k :: 0 <= k < |tr| && WritesAt(tr[k], a, from, to)
  }

  /** One of the first `n` transactions is a write of `a` that had not been issued when cycle `now` began. */
  predicate WriteHeld(acc: seq<Transaction>, tr: seq<Issued>, n: nat, a: nat, now: nat)
    requires n <= |acc|
  {
    exists j :: 0 <= j < n && acc[j].isWrite && acc[j].addr == a && !Written(tr, a, acc[j].added, now)
  }

  /** A read that found a write of its address on the way to the DRAM. */
  predicate Forwarded(acc: seq<Transaction>, tr: seq<Issued>, n: nat)
    requires n < |acc|
  {
    !acc[n].isWrite && WriteHeld(acc, tr, n, acc[n].addr, acc[n].added)
  }

  /** Cycle of the first read of `a` issued at or after `from`. */
  function FirstReadAt(tr: seq<Issued>, a: nat, from: nat): Option<nat>
    decreases |tr|
  {
    if tr == [] then None
    else
      var before := FirstReadAt(tr[..|tr| - 1], a, from);
      if before.Some? then before
      else if ReadsAt(tr[|tr| - 1], a, from) then Some(tr[|tr| - 1].clk) else None
  }

  /** Writes and forwarded reads are done in the cycle after they came; other reads when the data of the first
      read of their address have left the bus. */
  function DoneAt(cfg: Config, acc: seq<Transaction>, tr: seq<Issued>, n: nat): Option<nat>
    requires n < |acc|
  {
    if acc[n].isWrite || Forwarded(acc, tr, n) then Some(acc[n].added + 1)
    else
      var read := FirstReadAt(tr, acc[n].addr, acc[n].added);
      if read.Some? then Some(read.value + cfg.AL + cfg.CL + cfg.burst) else None
  }

  /** The answers to the first `n` accepted transactions. */
  function Answered(cfg: Config, acc: seq<Transaction>, tr: seq<Issued>, n: nat): multiset<Transaction>
    requires n <= |acc|
  {
    if n == 0 then multiset{}
    else
      var done := DoneAt(cfg, acc, tr, n - 1);
      Answered(cfg, acc, tr, n - 1) + (if done.Some? then multiset{acc[n-1].(complete := done.value)} else multiset{})
  }

  /** Those of the first `n` accepted transactions that have no answer yet, in order. */
  function Unanswered(cfg: Config, acc: seq<Transaction>, tr: seq<Issued>, n: nat): seq<Transaction>
    requires n <= |acc|
  {
    if n == 0 then []
    else Unanswered(cfg, acc, tr, n - 1) + (if DoneAt(cfg, acc, tr, n - 1).Some? then [] else [acc[n-1]])
  }

  // ---- the invariant

  /** What came before cycle `now`. */
  predicate Dated(s: State, now: nat) {
    && s.clk <= now <= s.clk + 1
    && (forall k :: 0 <= k < |s.trace| ==> s.trace[k].clk < now)
    && (forall n :: 0 <= n < |s.accepted| ==> s.accepted[n].added <= s.clk && s.accepted[n].complete == 0)
  }

  /** The pending writes are the accepted ones not yet issued. */
  ghost predicate WritesHeld(s: State, now: nat) {
    && Distinct(s.desk.pendWr)
    && forall a: nat :: HasAddr(s.desk.pendWr, a) <==> WriteHeld(s.accepted, s.trace, |s.accepted|, a, now)
  }

  predicate AnswersOk(cfg: Config, s: State) {
    && multiset(s.ret) + multiset(s.delivered) == Answered(cfg, s.accepted, s.trace, |s.accepted|)
    && s.desk.pendRd == Unanswered(cfg, s.accepted, s.trace, |s.accepted|)
  }

  ghost predicate Timely(cfg: Config, s: State, now: nat) {
    Dated(s, now) && WritesHeld(s, now) && AnswersOk(cfg, s)
  }

  // ---- accepting

  lemma HeldByPrefix(acc: seq<Transaction>, t: Transaction, tr: seq<Issued>, n: nat, a: nat, now: nat)
    requires n <= |acc|
    ensures WriteHeld(acc + [t], tr, n, a, now) <==> WriteHeld(acc, tr, n, a, now)
  {
    hide Written;
    var more := acc + [t];
    assert forall j :: 0 <= j < n ==> more[j] == acc[j];
  }

  lemma DoneByPrefix(cfg: Config, acc: seq<Transaction>, t: Transaction, tr: seq<Issued>, n: nat)
    requires n < |acc|
    ensures DoneAt(cfg, acc + [t], tr, n) == DoneAt(cfg, acc, tr, n) && (acc + [t])[n] == acc[n]
  {
    hide WriteHeld, FirstReadAt;
    HeldByPrefix(acc, t, tr, n, acc[n].addr, acc[n].added);
  }

  lemma {:induction false} AnswersByPrefix(cfg: Config, acc: seq<Transaction>, t: Transaction, tr: seq<Issued>, n: nat)
    requires n <= |acc|
    ensures Answered(cfg, acc + [t], tr, n) == Answered(cfg, acc, tr, n)
    ensures Unanswered(cfg, acc + [t], tr, n) == Unanswered(cfg, acc, tr, n)
  {
    hide DoneAt;
    if n > 0 {
      AnswersByPrefix(cfg, acc, t, tr, n - 1);
      DoneByPrefix(cfg, acc, t, tr, n - 1);
    }
  }

  lemma AnswersGrow(cfg: Config, acc: seq<Transaction>, t: Transaction, tr: seq<Issued>)
    ensures var (done, more) := (DoneAt(cfg, acc + [t], tr, |acc|), acc + [t]);
      if done.Some? then
        && Answered(cfg, more, tr, |more|) == Answered(cfg, acc, tr, |acc|) + multiset{t.(complete := done.value)}
        && Unanswered(cfg, more, tr, |more|) == Unanswered(cfg, acc, tr, |acc|)
      else
        && Answered(cfg, more, tr, |more|) == Answered(cfg, acc, tr, |acc|)
        && Unanswered(cfg, more, tr, |more|) == Unanswered(cfg, acc, tr, |acc|) + [t]
  {
    hide DoneAt;
    AnswersByPrefix(cfg, acc, t, tr, |acc|);
  }

  lemma {:induction false} NoReadYet(tr: seq<Issued>, a: nat, from: nat)
    requires forall k :: 0 <= k < |tr| ==> tr[k].clk < from
    ensures FirstReadAt(tr, a, from).None?
    decreases |tr|
  {
    if tr != [] {
      NoReadYet(tr[..|tr| - 1], a, from);
    }
  }

  /** What becomes of a transaction accepted in cycle `s.clk`. */
  lemma NewcomerDone(cfg: Config, s: State, t: Transaction)
    requires Dated(s, s.clk) && WritesHeld(s, s.clk) && t.added == s.clk
    ensures DoneAt(cfg, s.accepted + [t], s.trace, |s.accepted|)
         == if t.isWrite || HasAddr(s.desk.pendWr, t.addr) then Some(s.clk + 1) else None
  {
    hide WriteHeld, HasAddr, FirstReadAt;
    HeldByPrefix(s.accepted, t, s.trace, |s.accepted|, t.addr, s.clk);
    NoReadYet(s.trace, t.addr, s.clk);
  }

  lemma NotWritten(tr: seq<Issued>, a: nat, from: nat, to: nat)
    requires forall k :: 0 <= k < |tr| ==> tr[k].clk < from
    ensures !Written(tr, a, from, to)
  {
  }

  lemma HeldGrows(s: State, t: Transaction, a: nat)
    requires Dated(s, s.clk) && t.added == s.clk
    ensures WriteHeld(s.accepted + [t], s.trace, |s.accepted| + 1, a, s.clk)
       <==> WriteHeld(s.accepted, s.trace, |s.accepted|, a, s.clk) || (t.isWrite && t.addr == a)
  {
    hide Written;
    NotWritten(s.trace, a, s.clk, s.clk);
    var acc := s.accepted + [t];
    assert forall j :: 0 <= j < |s.accepted| ==> acc[j] == s.accepted[j];
    if WriteHeld(s.accepted, s.trace, |s.accepted|, a, s.clk) {
      var j :| 0 <= j < |s.accepted| && s.accepted[j].isWrite && s.accepted[j].addr == a
               && !Written(s.trace, a, s.accepted[j].added, s.clk);
      assert acc[j].isWrite && acc[j].addr == a && !Written(s.trace, a, acc[j].added, s.clk);
    }
    if t.isWrite && t.addr == a {
      assert acc[|s.accepted|] == t;
    }
  }

  lemma PushedAddr(q: seq<Transaction>, t: Transaction, a: nat)
    ensures HasAddr(q + [t], a) <==> HasAddr(q, a) || t.addr == a
  {
    assert t in q + [t];
    if HasAddr(q, a) {
      var x :| x in q && x.addr == a;
      assert x in q + [t];
    }
  }

  lemma PushedDistinct(q: seq<Transaction>, t: Transaction)
    requires Distinct(q) && !HasAddr(q, t.addr)
    ensures Distinct(q + [t])
  {
    forall i | 0 <= i < |q| ensures q[i].addr != t.addr {
      assert q[i] in q;
    }
  }

  lemma AddKeepsHeld(cfg: Config, s: State, addr: nat, isWrite: bool)
    requires Dated(s, s.clk) && WritesHeld(s, s.clk)
    ensures WritesHeld(AddTransaction(cfg, s, addr, isWrite), s.clk)
  {
    hide HasAddr, WriteHeld, Distinct;
    var t := Transaction(addr, s.clk, 0, isWrite);
    var s' := AddTransaction(cfg, s, addr, isWrite);
    forall a: nat ensures HasAddr(s'.desk.pendWr, a) <==> WriteHeld(s'.accepted, s.trace, |s'.accepted|, a, s.clk) {
      HeldGrows(s, t, a);
      PushedAddr(s.desk.pendWr, t, a);
    }
    if isWrite && !HasAddr(s.desk.pendWr, addr) {
      PushedDistinct(s.desk.pendWr, t);
    }
  }

  /** Where an accepted transaction goes: answered at once, or pending. */
  lemma AddShape(cfg: Config, s: State, addr: nat, isWrite: bool)
    ensures var (s', t) := (AddTransaction(cfg, s, addr, isWrite), Transaction(addr, s.clk, 0, isWrite));
      && s'.accepted == s.accepted + [t] && s'.clk == s.clk && s'.trace == s.trace && s'.delivered == s.delivered
      && if isWrite || HasAddr(s.desk.pendWr, addr) then
           s'.ret == s.ret + [t.(complete := s.clk + 1)] && s'.desk.pendRd == s.desk.pendRd
         else s'.ret == s.ret && s'.desk.pendRd == s.desk.pendRd + [t]
  {
  }

  lemma AddKeepsAnswers(cfg: Config, s: State, addr: nat, isWrite: bool)
    requires Timely(cfg, s, s.clk)
    ensures AnswersOk(cfg, AddTransaction(cfg, s, addr, isWrite))
  {
    hide HasAddr, DoneAt, Answered, Unanswered, AddTransaction, Distinct, WriteHeld;
    var t := Transaction(addr, s.clk, 0, isWrite);
    AddShape(cfg, s, addr, isWrite);
    NewcomerDone(cfg, s, t);
    AnswersGrow(cfg, s.accepted, t, s.trace);
    BagPush(s.ret, t.(complete := s.clk + 1), multiset(s.delivered));
  }

  lemma BagPush<T>(q: seq<T>, x: T, more: multiset<T>)
    ensures multiset(q + [x]) + more == multiset(q) + more + multiset{x}
  {
  }

  lemma AddKeepsTimely(cfg: Config, s: State, addr: nat, isWrite: bool)
    requires Timely(cfg, s, s.clk)
    ensures Timely(cfg, AddTransaction(cfg, s, addr, isWrite), s.clk)
  {
    hide HasAddr, WritesHeld, AnswersOk, AddTransaction;
    AddShape(cfg, s, addr, isWrite);
    AddKeepsHeld(cfg, s, addr, isWrite);
    AddKeepsAnswers(cfg, s, addr, isWrite);
  }

  // ---- issuing

  lemma FirstReadNext(tr: seq<Issued>, e: Issued, a: nat, from: nat)
    ensures FirstReadAt(tr + [e], a, from)
         == if FirstReadAt(tr, a, from).Some? then FirstReadAt(tr, a, from)
            else if ReadsAt(e, a, from) then Some(e.clk) else None
  {
    assert (tr + [e])[..|tr|] == tr;
  }

  lemma WrittenNext(tr: seq<Issued>, e: Issued, a: nat, from: nat, to: nat)
    ensures Written(tr + [e], a, from, to) <==> Written(tr, a, from, to) || WritesAt(e, a, from, to)
  {
    hide WritesAt;
    var more := tr + [e];
    assert more[|tr|] == e && forall k :: 0 <= k < |tr| ==> more[k] == tr[k];
    if Written(tr, a, from, to) {
      var k :| 0 <= k < |tr| && WritesAt(tr[k], a, from, to);
      assert WritesAt(more[k], a, from, to);
    }
  }

  lemma ForwardedStays(acc: seq<Transaction>, tr: seq<Issued>, e: Issued, n: nat)
    requires n < |acc| && acc[n].added <= e.clk
    ensures Forwarded(acc, tr + [e], n) <==> Forwarded(acc, tr, n)
  {
    hide Written;
    forall from: nat ensures Written(tr + [e], acc[n].addr, from, acc[n].added) <==> Written(tr, acc[n].addr, from, acc[n].added) {
      WrittenNext(tr, e, acc[n].addr, from, acc[n].added);
    }
  }

  /** A read answers the reads of its address that have no answer yet; no other command answers any. */
  lemma DoneNext(cfg: Config, acc: seq<Transaction>, tr: seq<Issued>, e: Issued, n: nat)
    requires n < |acc| && acc[n].added <= e.clk
    ensures DoneAt(cfg, acc, tr + [e], n)
         == if DoneAt(cfg, acc, tr, n).None? && e.cmd.kind.IsRead() && e.cmd.hex == acc[n].addr
            then Some(e.clk + cfg.AL + cfg.CL + cfg.burst) else DoneAt(cfg, acc, tr, n)
  {
    hide Forwarded, FirstReadAt;
    ForwardedStays(acc, tr, e, n);
    FirstReadNext(tr, e, acc[n].addr, acc[n].added);
  }

  lemma {:induction false} WithPush(q: seq<Transaction>, t: Transaction, a: nat)
    ensures if t.addr == a then With(q + [t], a) == With(q, a) + [t] && Without(q + [t], a) == Without(q, a)
            else With(q + [t], a) == With(q, a) && Without(q + [t], a) == Without(q, a) + [t]
    decreases |q|
  {
    if q == [] {
      assert q + [t] == [t] && [t][1..] == [];
    } else {
      WithPush(q[1..], t, a);
      assert (q + [t])[1..] == q[1..] + [t] && (q + [t])[0] == q[0];
    }
  }

  lemma StampPush(q: seq<Transaction>, t: Transaction, done: nat)
    ensures multiset(StampAll(q + [t], done)) == multiset(StampAll(q, done)) + multiset{t.(complete := done)}
  {
    assert StampAll(q + [t], done) == StampAll(q, done) + [t.(complete := done)];
  }

  /** A read `e` answers those of the first `n` transactions that ask for its address and have no answer. */
  predicate ReadAnswersUpTo(cfg: Config, acc: seq<Transaction>, tr: seq<Issued>, e: Issued, n: nat)
    requires n <= |acc|
  {
    var owed := With(Unanswered(cfg, acc, tr, n), e.cmd.hex);
    && Answered(cfg, acc, tr + [e], n)
       == Answered(cfg, acc, tr, n) + multiset(StampAll(owed, e.clk + cfg.AL + cfg.CL + cfg.burst))
    && Unanswered(cfg, acc, tr + [e], n) == Without(Unanswered(cfg, acc, tr, n), e.cmd.hex)
  }

  lemma {:induction false} ReadAnswers(cfg: Config, acc: seq<Transaction>, tr: seq<Issued>, e: Issued, n: nat)
    requires n <= |acc| && (forall i :: 0 <= i < n ==> acc[i].added <= e.clk) && e.cmd.kind.IsRead()
    ensures ReadAnswersUpTo(cfg, acc, tr, e, n)
  {
    hide DoneAt, Answered, Unanswered, With, Without, StampAll;
    var a, done := e.cmd.hex, e.clk + cfg.AL + cfg.CL + cfg.burst;
    if n == 0 {
      NothingAnswered(cfg, acc, tr);
      NothingAnswered(cfg, acc, tr + [e]);
      NothingStamped(a, done);
    } else {
      ReadAnswers(cfg, acc, tr, e, n - 1);
      AnswersStep(cfg, acc, tr, e, n);
    }
  }

  lemma AnswersStep(cfg: Config, acc: seq<Transaction>, tr: seq<Issued>, e: Issued, n: nat)
    requires 0 < n <= |acc| && acc[n-1].added <= e.clk && e.cmd.kind.IsRead()
    requires ReadAnswersUpTo(cfg, acc, tr, e, n - 1)
    ensures ReadAnswersUpTo(cfg, acc, tr, e, n)
  {
    hide DoneAt, Answered, Unanswered, With, Without, StampAll;
    var a, done := e.cmd.hex, e.clk + cfg.AL + cfg.CL + cfg.burst;
    DoneNext(cfg, acc, tr, e, n - 1);
    NextAnswer(cfg, acc, tr, n);
    NextAnswer(cfg, acc, tr + [e], n);
    var owed := Unanswered(cfg, acc, tr, n - 1);
    if DoneAt(cfg, acc, tr, n - 1).Some? {
      AnsweredBefore(Answered(cfg, acc, tr, n - 1), acc[n-1].(complete := DoneAt(cfg, acc, tr, n - 1).value),
                     multiset(StampAll(With(owed, a), done)));
    } else {
      WithPush(owed, acc[n-1], a);
      StampPush(With(owed, a), acc[n-1], done);
    }
  }

  lemma AnsweredBefore<T>(all: multiset<T>, one: T, more: multiset<T>)
    ensures all + more + multiset{one} == all + multiset{one} + more
  {
  }

  lemma NothingAnswered(cfg: Config, acc: seq<Transaction>, tr: seq<Issued>)
    ensures Answered(cfg, acc, tr, 0) == multiset{} && Unanswered(cfg, acc, tr, 0) == []
  {
  }

  lemma NextAnswer(cfg: Config, acc: seq<Transaction>, tr: seq<Issued>, n: nat)
    requires 0 < n <= |acc|
    ensures var done := DoneAt(cfg, acc, tr, n - 1);
      if done.Some? then
        && Answered(cfg, acc, tr, n) == Answered(cfg, acc, tr, n - 1) + multiset{acc[n-1].(complete := done.value)}
        && Unanswered(cfg, acc, tr, n) == Unanswered(cfg, acc, tr, n - 1)
      else
        && Answered(cfg, acc, tr, n) == Answered(cfg, acc, tr, n - 1)
        && Unanswered(cfg, acc, tr, n) == Unanswered(cfg, acc, tr, n - 1) + [acc[n-1]]
  {
    hide DoneAt;
  }

  lemma NothingStamped(a: nat, done: nat)
    ensures StampAll(With([], a), done) == [] && Without([], a) == []
  {
  }

  lemma {:induction false} OthersAnswerNothing(cfg: Config, acc: seq<Transaction>, tr: seq<Issued>, e: Issued, n: nat)
    requires n <= |acc| && (forall i :: 0 <= i < n ==> acc[i].added <= e.clk) && !e.cmd.kind.IsRead()
    ensures Answered(cfg, acc, tr + [e], n) == Answered(cfg, acc, tr, n)
    ensures Unanswered(cfg, acc, tr + [e], n) == Unanswered(cfg, acc, tr, n)
  {
    hide DoneAt;
    if n > 0 {
      OthersAnswerNothing(cfg, acc, tr, e, n - 1);
      DoneNext(cfg, acc, tr, e, n - 1);
    }
  }

  lemma HeldNext(acc: seq<Transaction>, tr: seq<Issued>, e: Issued, a: nat, now: nat)
    requires (forall i :: 0 <= i < |acc| ==> acc[i].added <= e.clk) && e.clk < now
    ensures WriteHeld(acc, tr + [e], |acc|, a, now)
       <==> WriteHeld(acc, tr, |acc|, a, now) && !(e.cmd.kind.IsWrite() && e.cmd.hex == a)
  {
    hide Written;
    forall from: nat ensures Written(tr + [e], a, from, now) <==> Written(tr, a, from, now) || WritesAt(e, a, from, now) {
      WrittenNext(tr, e, a, from, now);
    }
  }

  lemma RetiredAddr(q: seq<Transaction>, b: nat, a: nat)
    requires Distinct(q)
    ensures HasAddr(RemoveFirst(q, b), a) <==> HasAddr(q, a) && a != b
    ensures Distinct(RemoveFirst(q, b))
  {
    RemoveFirstMeaning(q, b);
    WithoutMeaning(q, b);
    if HasAddr(q, a) && a != b {
      var t :| t in q && t.addr == a;
      assert t in Without(q, b);
    }
  }

  /** What issuing a command does to the desk and the answers. */
  lemma IssueShape(cfg: Config, tm: Table, s: State, cmd: Command)
    ensures var (s', owed) := (IssueCommand(cfg, tm, s, cmd), With(s.desk.pendRd, cmd.hex));
      && s'.trace == s.trace + [Event(s, cmd)] && s'.clk == s.clk && s'.accepted == s.accepted && s'.delivered == s.delivered
      && s'.desk.pendWr == (if cmd.kind.IsWrite() && HasAddr(s.desk.pendWr, cmd.hex) then RemoveFirst(s.desk.pendWr, cmd.hex)
                            else s.desk.pendWr)
      && (cmd.kind.IsRead() && owed != [] ==>
            && s'.desk.pendRd == Without(s.desk.pendRd, cmd.hex)
            && s'.ret == s.ret + StampAll(owed, s.clk + cfg.ReadDelay()))
      && (cmd.kind.IsRead() && owed == [] ==> s'.desk.pendRd == s.desk.pendRd && s'.ret == s.ret)
      && (!cmd.kind.IsRead() ==> s'.desk.pendRd == s.desk.pendRd && s'.ret == s.ret)
  {
  }

  lemma IssueKeepsHeld(cfg: Config, tm: Table, s: State, cmd: Command)
    requires Dated(s, s.clk + 1) && WritesHeld(s, s.clk + 1)
    ensures WritesHeld(IssueCommand(cfg, tm, s, cmd), s.clk + 1)
  {
    hide HasAddr, WriteHeld, Distinct, IssueCommand, RemoveFirst;
    IssueShape(cfg, tm, s, cmd);
    var s' := IssueCommand(cfg, tm, s, cmd);
    forall a: nat ensures HasAddr(s'.desk.pendWr, a) <==> WriteHeld(s.accepted, s'.trace, |s.accepted|, a, s.clk + 1) {
      HeldNext(s.accepted, s.trace, Event(s, cmd), a, s.clk + 1);
      RetiredAddr(s.desk.pendWr, cmd.hex, a);
    }
    RetiredAddr(s.desk.pendWr, cmd.hex, 0);
  }

  lemma WithoutAbsent(q: seq<Transaction>, a: nat)
    requires With(q, a) == []
    ensures Without(q, a) == q
  {
    WithEmpty(q, a);
    forall i | 0 <= i < |q| ensures q[i].addr != a {
      assert q[i] in q;
    }
    AllKept(q, a);
  }

  lemma StampNone(done: nat)
    ensures StampAll([], done) == []
  {
  }

  lemma IssueKeepsAnswers(cfg: Config, tm: Table, s: State, cmd: Command)
    requires Dated(s, s.clk + 1) && AnswersOk(cfg, s)
    ensures AnswersOk(cfg, IssueCommand(cfg, tm, s, cmd))
  {
    hide IssueCommand, Answered, Unanswered, With, Without, StampAll;
    IssueShape(cfg, tm, s, cmd);
    var e := Event(s, cmd);
    if cmd.kind.IsRead() {
      ReadAnswers(cfg, s.accepted, s.trace, e, |s.accepted|);
      if With(s.desk.pendRd, cmd.hex) == [] {
        WithoutAbsent(s.desk.pendRd, cmd.hex);
        StampNone(s.clk + cfg.ReadDelay());
      }
    } else {
      OthersAnswerNothing(cfg, s.accepted, s.trace, e, |s.accepted|);
    }
  }

  lemma IssueKeepsTimely(cfg: Config, tm: Table, s: State, cmd: Command)
    requires Timely(cfg, s, s.clk + 1)
    ensures Timely(cfg, IssueCommand(cfg, tm, s, cmd), s.clk + 1)
  {
    hide IssueCommand, AnswersOk, WritesHeld;
    IssueShape(cfg, tm, s, cmd);
    IssueKeepsHeld(cfg, tm, s, cmd);
    IssueKeepsAnswers(cfg, tm, s, cmd);
  }

  // ---- one cycle

  /** Only the command queues, the channel or the lists of waiting transactions have changed. */
  predicate SameLedger(s: State, s': State) {
    && s'.accepted == s.accepted && s'.delivered == s.delivered && s'.ret == s.ret && s'.trace == s.trace
    && s'.desk.pendRd == s.desk.pendRd && s'.desk.pendWr == s.desk.pendWr && s'.clk == s.clk
  }

  lemma FetchKeepsLedger(cfg: Config, s: State)
    ensures SameLedger(s, Fetch(cfg, s).1)
  {
  }

  lemma ChooseKeepsLedger(cfg: Config, s: State)
    ensures SameLedger(s, Choose(cfg, s).1)
  {
    hide Fetch;
    FetchKeepsLedger(cfg, s);
    if s.ch.refreshQ != [] {
      FetchKeepsLedger(cfg, s.(cq := Queues.FinishRefresh(cfg, s.ch, s.cq).1));
    }
  }

  lemma ScheduleKeepsLedger(cfg: Config, s: State)
    ensures SameLedger(s, Schedule(cfg, s))
  {
    hide FirstAccepted, DrainTarget;
  }

  lemma LedgerIsAll(cfg: Config, s: State, s': State, now: nat)
    requires Timely(cfg, s, now) && SameLedger(s, s')
    ensures Timely(cfg, s', now)
  {
    hide WriteHeld, HasAddr, Distinct, Answered, Unanswered;
  }

  lemma ServeKeepsTimely(cfg: Config, tm: Table, s: State)
    requires Timely(cfg, s, s.clk + 1)
    ensures Timely(cfg, Serve(cfg, tm, s), s.clk + 1) && Serve(cfg, tm, s).clk == s.clk
  {
    hide Timely, Choose, IssueCommand, Fetch;
    var (cmd, s1) := Choose(cfg, s);
    ChooseKeepsLedger(cfg, s);
    LedgerIsAll(cfg, s, s1, s.clk + 1);
    if cmd.Some? {
      IssueKeepsTimely(cfg, tm, s1, cmd.value);
      IssueShape(cfg, tm, s1, cmd.value);
      var s2 := IssueCommand(cfg, tm, s1, cmd.value);
      FetchKeepsLedger(cfg, s2);
      var (second, s3) := Fetch(cfg, s2);
      LedgerIsAll(cfg, s2, s3, s.clk + 1);
      if second.Some? {
        IssueKeepsTimely(cfg, tm, s3, second.value);
        IssueShape(cfg, tm, s3, second.value);
      }
    }
  }

  lemma CycleBegins(cfg: Config, s: State)
    requires Timely(cfg, s, s.clk)
    ensures Timely(cfg, s, s.clk + 1)
  {
    hide Answered, Unanswered, HasAddr, Distinct;
    forall a: nat ensures WriteHeld(s.accepted, s.trace, |s.accepted|, a, s.clk) <==> WriteHeld(s.accepted, s.trace, |s.accepted|, a, s.clk + 1) {
      NotYet(s.accepted, s.trace, a, s.clk);
    }
  }

  lemma NotYet(acc: seq<Transaction>, tr: seq<Issued>, a: nat, now: nat)
    requires forall k :: 0 <= k < |tr| ==> tr[k].clk < now
    ensures WriteHeld(acc, tr, |acc|, a, now) <==> WriteHeld(acc, tr, |acc|, a, now + 1)
  {
    forall from: nat ensures Written(tr, a, from, now) <==> Written(tr, a, from, now + 1) {
      if Written(tr, a, from, now + 1) {
        var k :| 0 <= k < |tr| && WritesAt(tr[k], a, from, now + 1);
        assert WritesAt(tr[k], a, from, now);
      }
      if Written(tr, a, from, now) {
        var k :| 0 <= k < |tr| && WritesAt(tr[k], a, from, now);
        assert WritesAt(tr[k], a, from, now + 1);
      }
    }
    hide Written;
  }

  lemma CycleEnds(cfg: Config, s: State)
    requires Timely(cfg, s, s.clk + 1)
    ensures Timely(cfg, AdvanceClocks(s), s.clk + 1) && AdvanceClocks(s).clk == s.clk + 1
  {
    hide Answered, Unanswered, HasAddr, Distinct, WriteHeld;
  }

  lemma TickKeepsTimely(cfg: Config, tm: Table, s: State)
    requires cfg.ranks > 0 && cfg.RefreshInterval() > 0 && Timely(cfg, s, s.clk)
    ensures Timely(cfg, Tick(cfg, tm, s), Tick(cfg, tm, s).clk)
  {
    hide Timely, Serve, Schedule, AdvanceClocks;
    CycleBegins(cfg, s);
    var s1 := RefreshStep(cfg, s);
    LedgerIsAll(cfg, s, s1, s.clk + 1);
    ServeKeepsTimely(cfg, tm, s1);
    var s2 := Serve(cfg, tm, s1);
    ScheduleKeepsLedger(cfg, s2);
    LedgerIsAll(cfg, s2, Schedule(cfg, s2), s.clk + 1);
    CycleEnds(cfg, Schedule(cfg, s2));
  }

  // ---- returning

  function HandedBack(s: State, i: nat): State
    requires i < |s.ret|
  {
    s.(ret := s.ret[..i] + s.ret[i+1..], delivered := s.delivered + [s.ret[i]])
  }

  /** The first finished transaction is handed back; nothing is while none is finished. */
  lemma ReturnMeaning(s: State, clk: nat) returns (i: nat)
    ensures i <= |s.ret| && forall j :: 0 <= j < i ==> clk < s.ret[j].complete
    ensures i < |s.ret| ==> s.ret[i].complete <= clk && ReturnDone(s, clk) == (Some(s.ret[i]), HandedBack(s, i))
    ensures i == |s.ret| ==> ReturnDone(s, clk) == (None, s)
  {
    i := FirstDone(s.ret, clk, 0);
    FirstDoneMeaning(s.ret, clk, 0);
  }

  lemma {:induction false} FirstDoneMeaning(ret: seq<Transaction>, clk: nat, i: nat)
    requires i <= |ret|
    ensures var r := FirstDone(ret, clk, i);
      && (r < |ret| ==> ret[r].complete <= clk)
      && (forall j :: i <= j < r ==> clk < ret[j].complete)
    decreases |ret| - i
  {
    if i < |ret| && clk < ret[i].complete {
      FirstDoneMeaning(ret, clk, i + 1);
    }
  }

  lemma ReturnKeepsTimely(cfg: Config, s: State, clk: nat)
    requires Timely(cfg, s, s.clk)
    ensures Timely(cfg, ReturnDone(s, clk).1, s.clk)
  {
    hide Timely, ReturnDone, HandedBack;
    var i := ReturnMeaning(s, clk);
    if i < |s.ret| {
      HandBackKeepsTimely(cfg, s, i);
    }
  }

  lemma HandBackKeepsTimely(cfg: Config, s: State, i: nat)
    requires Timely(cfg, s, s.clk) && i < |s.ret|
    ensures Timely(cfg, HandedBack(s, i), s.clk) && HandedBack(s, i).clk == s.clk
  {
    hide WriteHeld, HasAddr, Distinct, Answered, Unanswered;
    TakenOut(s.ret, i);
    var s' := HandedBack(s, i);
    assert multiset(s'.delivered) == multiset(s.delivered) + multiset{s.ret[i]};
  }

  lemma TakenOut(q: seq<Transaction>, i: nat)
    requires i < |q|
    ensures multiset(q) == multiset(q[..i] + q[i+1..]) + multiset{q[i]}
  {
    assert q == q[..i] + [q[i]] + q[i+1..];
  }

  // ---- on every run

  lemma InitialTimely(cfg: Config)
    ensures Timely(cfg, Initial(cfg), 0)
  {
  }

  lemma StepKeepsTimely(cfg: Config, tm: Table, s: State, op: Op)
    requires cfg.ranks > 0 && cfg.RefreshInterval() > 0 && Timely(cfg, s, s.clk)
    ensures Timely(cfg, Step(cfg, tm, s, op), Step(cfg, tm, s, op).clk)
  {
    hide Timely, Tick;
    match op
    case Submit(addr, isWrite) => AddKeepsTimely(cfg, s, addr, isWrite);
    case Cycle => TickKeepsTimely(cfg, tm, s);
    case Collect(clk) => ReturnKeepsTimely(cfg, s, clk);
  }

  lemma {:induction false} RunTimely(cfg: Config, ops: seq<Op>)
    requires cfg.ranks > 0 && cfg.RefreshInterval() > 0
    ensures Timely(cfg, After(cfg, ops), After(cfg, ops).clk)
    decreases |ops|
  {
    hide Timely, Step;
    InitialTimely(cfg);
    if ops != [] {
      RunTimely(cfg, ops[..|ops| - 1]);
      StepKeepsTimely(cfg, MakeTable(cfg), After(cfg, ops[..|ops| - 1]), ops[|ops| - 1]);
    }
  }

  /** On every run, under any configuration: the answers given or finished are those that the accepted
      transactions and the command trace call for, with those completion times; the reads still pending are
      the accepted ones that nothing answers yet, in order; the pending writes are those not yet issued. */
  lemma AnswersAreHistory(cfg: Config, ops: seq<Op>)
    requires cfg.ranks > 0 && cfg.RefreshInterval() > 0
    ensures var s := After(cfg, ops);
      && multiset(s.ret) + multiset(s.delivered) == Answered(cfg, s.accepted, s.trace, |s.accepted|)
      && s.desk.pendRd == Unanswered(cfg, s.accepted, s.trace, |s.accepted|)
      && (forall a: nat :: HasAddr(s.desk.pendWr, a) <==> WriteHeld(s.accepted, s.trace, |s.accepted|, a, s.clk))
  {
    hide Run;
    RunTimely(cfg, ops);
  }

  // ---- answer by answer

  /** Command `k` is the first read of `a` issued at or after `from`. */
  predicate FirstRead(tr: seq<Issued>, k: nat, a: nat, from: nat) {
    k < |tr| && ReadsAt(tr[k], a, from) && forall j :: 0 <= j < k ==> !ReadsAt(tr[j], a, from)
  }

  lemma {:induction false} FirstReadMeaning(tr: seq<Issued>, a: nat, from: nat) returns (k: nat)
    ensures FirstReadAt(tr, a, from).Some? ==> FirstRead(tr, k, a, from) && tr[k].clk == FirstReadAt(tr, a, from).value
    ensures FirstReadAt(tr, a, from).None? ==> forall j :: 0 <= j < |tr| ==> !ReadsAt(tr[j], a, from)
    decreases |tr|
  {
    hide ReadsAt;
    k := 0;
    if tr != [] {
      k := FirstReadMeaning(tr[..|tr| - 1], a, from);
      if FirstReadAt(tr[..|tr| - 1], a, from).None? && ReadsAt(tr[|tr| - 1], a, from) {
        k := |tr| - 1;
      }
    }
  }

  /** `t` answers accepted transaction `n` when it should. */
  ghost predicate AnswersTo(cfg: Config, acc: seq<Transaction>, tr: seq<Issued>, t: Transaction, n: nat) {
    && n < |acc| && acc[n] == t.(complete := 0)
    && if t.isWrite || Forwarded(acc, tr, n) then t.complete == t.added + 1
       else exists k: nat :: FirstRead(tr, k, t.addr, t.added) && t.complete == tr[k].clk + cfg.AL + cfg.CL + cfg.burst
  }

  lemma {:induction false} AnsweredIsExplained(cfg: Config, acc: seq<Transaction>, tr: seq<Issued>, t: Transaction, m: nat)
      returns (n: nat)
    requires m <= |acc| && t in Answered(cfg, acc, tr, m) && forall i :: 0 <= i < m ==> acc[i].complete == 0
    ensures AnswersTo(cfg, acc, tr, t, n)
    decreases m
  {
    hide Forwarded, FirstReadAt, FirstRead;
    if t in Answered(cfg, acc, tr, m - 1) {
      n := AnsweredIsExplained(cfg, acc, tr, t, m - 1);
    } else {
      n := m - 1;
      var k := FirstReadMeaning(tr, acc[n].addr, acc[n].added);
    }
  }

  /** On every run a write, and a read that found a write of its address on the way, is done in the cycle after
      it came; every other read AL + CL + burst cycles after the first read of its address issued since. */
  lemma EachAnswerIsDue(cfg: Config, ops: seq<Op>, t: Transaction) returns (n: nat)
    requires cfg.ranks > 0 && cfg.RefreshInterval() > 0 && (t in After(cfg, ops).ret || t in After(cfg, ops).delivered)
    ensures AnswersTo(cfg, After(cfg, ops).accepted, After(cfg, ops).trace, t, n)
  {
    hide Run, Answered, AnswersTo, WriteHeld;
    RunTimely(cfg, ops);
    var s := After(cfg, ops);
    assert t in multiset(s.ret) + multiset(s.delivered);
    n := AnsweredIsExplained(cfg, s.accepted, s.trace, t, |s.accepted|);
  }

  // ---- nothing is handed back early

  /** Finished transactions are collected by a clock that is not ahead of the controller's. */
  ghost predicate Punctual(cfg: Config, ops: seq<Op>)
    requires cfg.ranks > 0 && cfg.RefreshInterval() > 0
  {
    forall n :: 0 <= n < |ops| && ops[n].Collect? ==> ops[n].clk <= After(cfg, ops[..n]).clk
  }

  predicate AllDone(q: seq<Transaction>, clk: nat) {
    forall i :: 0 <= i < |q| ==> q[i].complete <= clk
  }

  lemma StepIsPunctual(cfg: Config, tm: Table, s: State, op: Op)
    requires cfg.ranks > 0 && cfg.RefreshInterval() > 0
    requires AllDone(s.delivered, s.clk) && (op.Collect? ==> op.clk <= s.clk)
    ensures AllDone(Step(cfg, tm, s, op).delivered, Step(cfg, tm, s, op).clk)
  {
    hide Tick;
    match op
    case Submit(addr, isWrite) => AddShape(cfg, s, addr, isWrite);
    case Cycle => TickFollowsPlan(cfg, tm, s);
    case Collect(clk) => var i := ReturnMeaning(s, clk);
  }

  /** A transaction handed back is finished by then. */
  lemma {:induction false} NothingIsEarly(cfg: Config, ops: seq<Op>)
    requires cfg.ranks > 0 && cfg.RefreshInterval() > 0 && Punctual(cfg, ops)
    ensures AllDone(After(cfg, ops).delivered, After(cfg, ops).clk)
    decreases |ops|
  {
    hide Step, AllDone;
    if ops == [] {
      NothingDelivered(cfg);
    } else {
      var most := ops[..|ops| - 1];
      PunctualPrefix(cfg, ops);
      NothingIsEarly(cfg, most);
      StepIsPunctual(cfg, MakeTable(cfg), After(cfg, most), ops[|ops| - 1]);
    }
  }

  lemma NothingDelivered(cfg: Config)
    ensures AllDone(Initial(cfg).delivered, 0) && Initial(cfg).clk == 0
  {
  }

  lemma PunctualPrefix(cfg: Config, ops: seq<Op>)
    requires cfg.ranks > 0 && cfg.RefreshInterval() > 0 && ops != [] && Punctual(cfg, ops)
    ensures Punctual(cfg, ops[..|ops| - 1])
    ensures ops[|ops| - 1].Collect? ==> ops[|ops| - 1].clk <= After(cfg, ops[..|ops| - 1]).clk
  {
    hide Run;
    var most := ops[..|ops| - 1];
    forall n | 0 <= n < |most| && most[n].Collect? ensures most[n].clk <= After(cfg, most[..n]).clk {
      assert most[..n] == ops[..n] && most[n] == ops[n];
    }
  }
}
