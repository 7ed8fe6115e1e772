/**
  Memory and database of a relay whose handlers interleave at every write.  A row is written in two
  halves, the database first and the map later, so between the halves and after some overlaps the two
  do not hold the same ids: exactly after those in which a put and a delete of one row cross.
*/
module Agreement {
  import opened Escrow
  import opened Relay
  import opened RelayHandle
  import opened World
  import opened Protocol
  import opened Wrappers

  predicate Agree(s: System, d: Layer, k: Key) {
    k in At(s.tables, d).mem <==> k in At(s.tables, d).db
  }

  predicate Puts(c: Cmd, k: Key) { c.DbPut? && k == Key(c.table, c.info.id) }
  predicate Deletes(c: Cmd, k: Key) { c.DbDelete? && k == Key(c.table, c.id) }
  predicate Emplaces(c: Cmd, k: Key) { c.MapEmplace? && k == Key(c.table, c.info.id) }
  predicate Erases(c: Cmd, k: Key) { c.MapErase? && k == Key(c.table, c.id) }

  /** A handler that has written the row in the database and is about to write it in memory. */
  predicate AboutToEmplace(job: seq<Cmd>, k: Key) { job != [] && Emplaces(job[0], k) }
  predicate AboutToErase(job: seq<Cmd>, k: Key) { job != [] && Erases(job[0], k) }

  // ---------- What the writes of a run leave ----------

  /** What an action does to a key of the database: Some(true) puts it in, Some(false) takes it out. */
  function DbEffect(s: System, a: Action, d: Layer, k: Key): Option<bool>
    requires Enabled(s, a)
  {
    if a.Crash? then Some(k in At(s.tables, d).db)
    else if a.Work? && a.d == d && Puts(a.job[0], k) then Some(true)
    else if a.Work? && a.d == d && Deletes(a.job[0], k) then Some(false)
    else None
  }

  /** And to a key of the map in memory, which a restart reads from the database. */
  function MemEffect(s: System, a: Action, d: Layer, k: Key): Option<bool>
    requires Enabled(s, a)
  {
    if a.Crash? then Some(k in At(s.tables, d).db)
    else if a.Work? && a.d == d && Emplaces(a.job[0], k) then Some(true)
    else if a.Work? && a.d == d && Erases(a.job[0], k) then Some(false)
    else None
  }

  /** What the last write of a run to a key of the database did. */
  ghost function LastDb(s: System, run: seq<Action>, d: Layer, k: Key): Option<bool>
    requires Possible(s, run)
    decreases |run|
  {
    if run == [] then None
    else
      var later := LastDb(Do(s, run[0]), run[1..], d, k);
      if later.Some? then later else DbEffect(s, run[0], d, k)
  }

  ghost function LastMem(s: System, run: seq<Action>, d: Layer, k: Key): Option<bool>
    requires Possible(s, run)
    decreases |run|
  {
    if run == [] then None
    else
      var later := LastMem(Do(s, run[0]), run[1..], d, k);
      if later.Some? then later else MemEffect(s, run[0], d, k)
  }

  function Or(last: Option<bool>, before: bool): bool {
    if last.Some? then last.value else before
  }

  lemma EffectsAre(s: System, a: Action, d: Layer, k: Key)
    requires Enabled(s, a)
    ensures k in At(Do(s, a).tables, d).db <==> Or(DbEffect(s, a, d, k), k in At(s.tables, d).db)
    ensures k in At(Do(s, a).tables, d).mem <==> Or(MemEffect(s, a, d, k), k in At(s.tables, d).mem)
  {
  }

  lemma {:induction false} LastWrites(s: System, run: seq<Action>, d: Layer, k: Key)
    requires Possible(s, run)
    ensures k in At(Final(s, run).tables, d).db <==> Or(LastDb(s, run, d, k), k in At(s.tables, d).db)
    ensures k in At(Final(s, run).tables, d).mem <==> Or(LastMem(s, run, d, k), k in At(s.tables, d).mem)
    decreases |run|
  {
    if run != [] {
      EffectsAre(s, run[0], d, k);
      LastWrites(Do(s, run[0]), run[1..], d, k);
    }
  }

  /**
    After any run, with any overlaps and crashes, memory and database agree on a key exactly when the
    last write to it in the one and the last write to it in the other were of the same kind.
  */
  lemma AgreeExactly(s: System, run: seq<Action>, d: Layer, k: Key)
    requires Possible(s, run)
    ensures Agree(Final(s, run), d, k)
       <==> Or(LastDb(s, run, d, k), k in At(s.tables, d).db) == Or(LastMem(s, run, d, k), k in At(s.tables, d).mem)
  {
    LastWrites(s, run, d, k);
  }

  // ---------- When puts and deletes do not cross ----------

  /** A handler is between the halves of a write, or in front of whole pairs. */
  predicate HalfPaired(job: seq<Cmd>) {
    Paired(job) || (job != [] && (job[0].MapEmplace? || job[0].MapErase?) && Paired(job[1..]))
  }

  ghost predicate AllPaired(s: System) {
    forall d, job :: job in At(s.jobs, d) ==> HalfPaired(job)
  }

  /** A row is put while another handler is about to erase it, or deleted while another is about to emplace it. */
  ghost predicate Crosses(s: System, a: Action, d: Layer, k: Key)
    requires Enabled(s, a)
  {
    && a.Work? && a.d == d
    && ((Puts(a.job[0], k) && exists j :: j in At(s.jobs, d) && AboutToErase(j, k))
        || (Deletes(a.job[0], k) && exists j :: j in At(s.jobs, d) && AboutToEmplace(j, k)))
  }

  ghost predicate NeverCrosses(s: System, run: seq<Action>, d: Layer, k: Key)
    requires Possible(s, run)
    decreases |run|
  {
    run != [] ==> !Crosses(s, run[0], d, k) && NeverCrosses(Do(s, run[0]), run[1..], d, k)
  }

  /** The second halves under way agree with the database, and without any, memory does. */
  ghost predicate InOrder(jobs: Jobs, t: Agent, k: Key) {
    && (forall j :: j in jobs && AboutToEmplace(j, k) ==> k in t.db)
    && (forall j :: j in jobs && AboutToErase(j, k) ==> k !in t.db)
    && ((forall j :: j in jobs ==> !Between(j, k)) ==> (k in t.mem <==> k in t.db))
  }

  predicate Between(job: seq<Cmd>, k: Key) {
    AboutToEmplace(job, k) || AboutToErase(job, k)
  }

  /** A second half under way that will still change the map. */
  ghost predicate Changing(s: System, d: Layer, k: Key) {
    exists j :: j in At(s.jobs, d)
      && ((AboutToEmplace(j, k) && k !in At(s.tables, d).mem) || (AboutToErase(j, k) && k in At(s.tables, d).mem))
  }

  lemma PlansPaired(s: System, a: Action)
    requires Enabled(s, a)
    ensures a.Visit? ==> Paired(VisitPlan(s, a))
    ensures a.Deliver? ==> Paired(DeliverPlan(a.layer, a.event, At(s.chain, a.layer).records[a.event.id], a.ledgerSeq))
  {
  }

  lemma RestHalfPaired(job: seq<Cmd>, answer: Option<Hash>)
    requires job != [] && HalfPaired(job)
    ensures HalfPaired(Rest(job, answer))
  {
    if Submits(job[0]) { RestPaired(job, answer); }
  }

  lemma StepPaired(s: System, a: Action)
    requires AllPaired(s) && Enabled(s, a)
    ensures AllPaired(Do(s, a))
  {
    PlansPaired(s, a);
    if a.Work? { RestHalfPaired(a.job, if a.taken then Some(s.next) else None); }
    forall d, job | job in At(Do(s, a).jobs, d) ensures HalfPaired(job) {
      NewJob(s, a, d, job);
    }
  }

  lemma NewJob(s: System, a: Action, d: Layer, job: seq<Cmd>)
    requires Enabled(s, a) && job in At(Do(s, a).jobs, d)
    ensures job in At(s.jobs, d)
      || (a.Visit? && job == VisitPlan(s, a))
      || (a.Deliver? && job == DeliverPlan(a.layer, a.event, At(s.chain, a.layer).records[a.event.id], a.ledgerSeq))
      || (a.Work? && a.d == d && job == Rest(a.job, if a.taken then Some(s.next) else None))
  {
  }

  lemma PairedHead(job: seq<Cmd>)
    requires Paired(job) && job != []
    ensures !job[0].MapEmplace? && !job[0].MapErase?
  {
  }

  /** Which second halves a step of a handler leaves under way. */
  lemma RestHalves(job: seq<Cmd>, answer: Option<Hash>, k: Key)
    requires job != [] && HalfPaired(job)
    ensures AboutToEmplace(Rest(job, answer), k) <==> Puts(job[0], k)
    ensures AboutToErase(Rest(job, answer), k) <==> Deletes(job[0], k)
  {
    var rest := Rest(job, answer);
    if Submits(job[0]) {
      RestPaired(job, answer);
      if rest != [] { PairedHead(rest); }
    } else if job[0].MapEmplace? || job[0].MapErase? || job[0].Rearm? {
      if rest != [] { PairedHead(rest); }
    } else {
      assert rest[0] == job[1];
    }
  }

  /** The command at the head of one handler, and what is left of it. */
  lemma CommandInOrder(jobs: Jobs, job: seq<Cmd>, rest: seq<Cmd>, t: Agent, t': Agent, k: Key)
    requires InOrder(jobs, t, k) && job in jobs && job != []
    requires AboutToEmplace(rest, k) <==> Puts(job[0], k)
    requires AboutToErase(rest, k) <==> Deletes(job[0], k)
    requires Puts(job[0], k) ==> forall j :: j in jobs ==> !AboutToErase(j, k)
    requires Deletes(job[0], k) ==> forall j :: j in jobs ==> !AboutToEmplace(j, k)
    requires k in t'.db <==> (if Puts(job[0], k) then true else if Deletes(job[0], k) then false else k in t.db)
    requires k in t'.mem <==> (if Emplaces(job[0], k) then true else if Erases(job[0], k) then false else k in t.mem)
    ensures InOrder(jobs - multiset{job} + multiset{rest}, t', k)
  {
    var jobs' := jobs - multiset{job} + multiset{rest};
    assert forall j :: j in jobs' ==> j in jobs || j == rest;
    assert rest in jobs' && forall j :: j in jobs && j != job ==> j in jobs';
    if forall j :: j in jobs' ==> !Between(j, k) {
      assert !Between(rest, k);
      if !Between(job, k) { assert forall j :: j in jobs ==> !Between(j, k); }
    }
  }

  lemma WorkInOrder(s: System, a: Action, d: Layer, k: Key)
    requires AllPaired(s) && InOrder(At(s.jobs, d), At(s.tables, d), k) && a.Work? && a.d == d && Enabled(s, a)
    requires !Crosses(s, a, d, k)
    ensures InOrder(At(Do(s, a).jobs, d), At(Do(s, a).tables, d), k)
  {
    var rest := Rest(a.job, if a.taken then Some(s.next) else None);
    RestHalves(a.job, if a.taken then Some(s.next) else None, k);
    EffectsAre(s, a, d, k);
    CommandInOrder(At(s.jobs, d), a.job, rest, At(s.tables, d), At(Do(s, a).tables, d), k);
  }

  /** A new handler has written nothing yet. */
  lemma AddedInOrder(jobs: Jobs, job: seq<Cmd>, t: Agent, k: Key)
    requires InOrder(jobs, t, k) && Paired(job)
    ensures InOrder(jobs + multiset{job}, t, k)
  {
    if job != [] { PairedHead(job); }
    var jobs' := jobs + multiset{job};
    assert forall j :: j in jobs' <==> j in jobs || j == job;
  }

  lemma StepInOrder(s: System, a: Action, d: Layer, k: Key)
    requires AllPaired(s) && InOrder(At(s.jobs, d), At(s.tables, d), k) && Enabled(s, a) && !Crosses(s, a, d, k)
    ensures InOrder(At(Do(s, a).jobs, d), At(Do(s, a).tables, d), k)
  {
    PlansPaired(s, a);
    match a {
      case Work(e, _, _, _) => if e == d { WorkInOrder(s, a, d, k); }
      case Visit(_, _, _, _, _, _) => AddedInOrder(At(s.jobs, d), VisitPlan(s, a), At(s.tables, d), k);
      case Deliver(layer, event, ledgerSeq) =>
        var plan := DeliverPlan(layer, event, At(s.chain, layer).records[event.id], ledgerSeq);
        AddedInOrder(At(s.jobs, d), plan, At(s.tables, d), k);
      case _ =>
    }
  }

  lemma {:induction false} RunInOrder(s: System, run: seq<Action>, d: Layer, k: Key)
    requires AllPaired(s) && InOrder(At(s.jobs, d), At(s.tables, d), k)
    requires Possible(s, run) && NeverCrosses(s, run, d, k)
    ensures InOrder(At(Final(s, run).jobs, d), At(Final(s, run).tables, d), k)
    decreases |run|
  {
    if run != [] {
      StepPaired(s, run[0]);
      StepInOrder(s, run[0], d, k);
      RunInOrder(Do(s, run[0]), run[1..], d, k);
    }
  }

  /**
    As long as no put of a row crosses a delete of it, memory and database of a relay agree on the row
    exactly when no handler is between the halves of a write that still changes memory.
  */
  lemma AgreeUnlessBetween(owner1: Address, owner2: Address, chainId: nat, timeout1: nat, timeout2: nat, time: Times,
                           run: seq<Action>, d: Layer, k: Key)
    requires var s0 := Init(owner1, owner2, chainId, timeout1, timeout2, time);
      Possible(s0, run) && NeverCrosses(s0, run, d, k)
    ensures var s := Final(Init(owner1, owner2, chainId, timeout1, timeout2, time), run);
      Agree(s, d, k) <==> !Changing(s, d, k)
  {
    var s0 := Init(owner1, owner2, chainId, timeout1, timeout2, time);
    RunInOrder(s0, run, d, k);
    var s := Final(s0, run);
    if exists j :: j in At(s.jobs, d) && Between(j, k) {
      var j :| j in At(s.jobs, d) && Between(j, k);
    }
  }

  // ---------- Exactly when they come apart ----------

  /** Nothing happens but that handlers between the halves of a write to this key write the second half. */
  ghost predicate Finishing(s: System, tail: seq<Action>, d: Layer, k: Key)
    requires Possible(s, tail)
    decreases |tail|
  {
    tail != [] ==>
      tail[0].Work? && tail[0].d == d && Between(tail[0].job, k) && Finishing(Do(s, tail[0]), tail[1..], d, k)
  }

  /** No handler is between the halves of a write to this key. */
  ghost predicate AtRest(s: System, d: Layer, k: Key) {
    forall j :: j in At(s.jobs, d) ==> !Between(j, k)
  }

  ghost predicate ComesApart(s: System, tail: seq<Action>, d: Layer, k: Key) {
    Possible(s, tail) && Finishing(s, tail, d, k) && AtRest(Final(s, tail), d, k) && !Agree(Final(s, tail), d, k)
  }

  /** The writes under way can finish in an order that leaves the key in only one of memory and database. */
  ghost predicate Harmed(s: System, d: Layer, k: Key) {
    exists tail :: ComesApart(s, tail, d, k)
  }

  /** About to write the second half of a delete, or of a put. */
  predicate Ready(job: seq<Cmd>, k: Key, erase: bool) {
    if erase then AboutToErase(job, k) else AboutToEmplace(job, k)
  }

  lemma {:induction false} Split(jobs: Jobs, k: Key) returns (emplacers: Jobs, erasers: Jobs)
    ensures emplacers + erasers <= jobs
    ensures forall j :: j in emplacers ==> AboutToEmplace(j, k)
    ensures forall j :: j in erasers ==> AboutToErase(j, k)
    ensures forall j :: j in jobs - (emplacers + erasers) ==> !Between(j, k)
    decreases |jobs|
  {
    emplacers, erasers := multiset{}, multiset{};
    if jobs != multiset{} {
      var j :| j in jobs;
      emplacers, erasers := Split(jobs - multiset{j}, k);
      assert jobs == (jobs - multiset{j}) + multiset{j};
      if AboutToEmplace(j, k) {
        emplacers := emplacers + multiset{j};
      } else if AboutToErase(j, k) {
        erasers := erasers + multiset{j};
      }
    }
  }

  /** One handler writes its second half: the rest of it is at rest, and the others are as they were. */
  lemma HalfWritten(s: System, d: Layer, k: Key, job: seq<Cmd>)
    requires AllPaired(s) && job in At(s.jobs, d) && Between(job, k)
    ensures var a := Work(d, job, false, false); Enabled(s, a)
    ensures var s' := Do(s, Work(d, job, false, false));
      && AllPaired(s') && At(s'.tables, d).db == At(s.tables, d).db
      && (k in At(s'.tables, d).mem <==> AboutToEmplace(job, k))
      && !Between(job[1..], k)
      && At(s'.jobs, d) == At(s.jobs, d) - multiset{job} + multiset{job[1..]}
  {
    StepPaired(s, Work(d, job, false, false));
    assert HalfPaired(job);
    if job[1..] != [] { PairedHead(job[1..]); }
  }

  lemma ApartAfter(s: System, d: Layer, k: Key, job: seq<Cmd>)
    requires job in At(s.jobs, d) && Between(job, k) && Harmed(Do(s, Work(d, job, false, false)), d, k)
    ensures Harmed(s, d, k)
  {
    var a := Work(d, job, false, false);
    var tail :| ComesApart(Do(s, a), tail, d, k);
    assert ([a] + tail)[1..] == tail;
    assert ComesApart(s, [a] + tail, d, k);
  }

  lemma TakeOne(jobs: Jobs, some: Jobs, job: seq<Cmd>, rest: seq<Cmd>)
    requires some <= jobs && job in some
    ensures some - multiset{job} <= jobs - multiset{job} + multiset{rest}
    ensures jobs - multiset{job} + multiset{rest} - (some - multiset{job}) == jobs - some + multiset{rest}
  {
  }

  /** When the second halves left are all of the kind that contradicts the database, they leave the two apart. */
  lemma {:induction false} LastOnes(s: System, d: Layer, k: Key, erase: bool, last: Jobs)
    requires AllPaired(s) && last <= At(s.jobs, d) && (k in At(s.tables, d).db <==> erase)
    requires forall j :: j in last ==> Ready(j, k, erase)
    requires forall j :: j in At(s.jobs, d) - last ==> !Between(j, k)
    requires last == multiset{} ==> (k in At(s.tables, d).mem <==> !erase)
    ensures Harmed(s, d, k)
    decreases |last|
  {
    if last == multiset{} {
      assert At(s.jobs, d) - last == At(s.jobs, d);
      assert ComesApart(s, [], d, k);
    } else {
      var job :| job in last;
      HalfWritten(s, d, k, job);
      TakeOne(At(s.jobs, d), last, job, job[1..]);
      LastOnes(Do(s, Work(d, job, false, false)), d, k, erase, last - multiset{job});
      ApartAfter(s, d, k, job);
    }
  }

  /** The second halves that agree with the database go first, the ones that contradict it last. */
  lemma {:induction false} FirstOnes(s: System, d: Layer, k: Key, erase: bool, first: Jobs, last: Jobs)
    requires AllPaired(s) && first + last <= At(s.jobs, d) && (k in At(s.tables, d).db <==> erase)
    requires last != multiset{} && forall j :: j in last ==> Ready(j, k, erase)
    requires forall j :: j in first ==> Ready(j, k, !erase)
    requires forall j :: j in At(s.jobs, d) - (first + last) ==> !Between(j, k)
    ensures Harmed(s, d, k)
    decreases |first|
  {
    if first == multiset{} {
      assert first + last == last;
      LastOnes(s, d, k, erase, last);
    } else {
      var job :| job in first;
      HalfWritten(s, d, k, job);
      TakeOne(At(s.jobs, d), first + last, job, job[1..]);
      assert first + last - multiset{job} == (first - multiset{job}) + last;
      FirstOnes(Do(s, Work(d, job, false, false)), d, k, erase, first - multiset{job}, last);
      ApartAfter(s, d, k, job);
    }
  }

  lemma {:induction false} FinishingNeverCrosses(s: System, tail: seq<Action>, d: Layer, k: Key)
    requires Possible(s, tail) && Finishing(s, tail, d, k)
    ensures NeverCrosses(s, tail, d, k)
    decreases |tail|
  {
    if tail != [] { FinishingNeverCrosses(Do(s, tail[0]), tail[1..], d, k); }
  }

  /** The second halves under way agree with the database exactly when no order of them leaves memory apart from it. */
  lemma InOrderExactly(s: System, d: Layer, k: Key)
    requires AllPaired(s)
    ensures InOrder(At(s.jobs, d), At(s.tables, d), k) <==> !Harmed(s, d, k)
  {
    if InOrder(At(s.jobs, d), At(s.tables, d), k) {
      forall tail | Possible(s, tail) && Finishing(s, tail, d, k) ensures !ComesApart(s, tail, d, k) {
        FinishingNeverCrosses(s, tail, d, k);
        RunInOrder(s, tail, d, k);
      }
    } else {
      var emplacers, erasers := Split(At(s.jobs, d), k);
      var erase := k in At(s.tables, d).db;
      var last := if erase then erasers else emplacers;
      var first := if erase then emplacers else erasers;
      assert first + last == emplacers + erasers;
      if last != multiset{} {
        FirstOnes(s, d, k, erase, first, last);
      } else {
        assert forall j :: j in At(s.jobs, d) && Between(j, k) ==> j in first;
        assert ComesApart(s, [], d, k);
      }
    }
  }

  lemma CrossingOutOfOrder(s: System, a: Action, d: Layer, k: Key)
    requires AllPaired(s) && InOrder(At(s.jobs, d), At(s.tables, d), k) && Enabled(s, a) && Crosses(s, a, d, k)
    ensures !InOrder(At(Do(s, a).jobs, d), At(Do(s, a).tables, d), k)
  {
    var j :| j in At(s.jobs, d) && Between(j, k) && (AboutToErase(j, k) <==> Puts(a.job[0], k));
    assert j != a.job && j in At(Do(s, a).jobs, d);
    EffectsAre(s, a, d, k);
  }

  /**
    A step that puts a row while another handler is about to erase it, or deletes one that another is
    about to write, is exactly the step after which the writes under way can leave memory and database apart.
  */
  lemma CrossesExactly(s: System, a: Action, d: Layer, k: Key)
    requires AllPaired(s) && !Harmed(s, d, k) && Enabled(s, a)
    ensures Harmed(Do(s, a), d, k) <==> Crosses(s, a, d, k)
  {
    InOrderExactly(s, d, k);
    StepPaired(s, a);
    InOrderExactly(Do(s, a), d, k);
    if Crosses(s, a, d, k) {
      CrossingOutOfOrder(s, a, d, k);
    } else {
      StepInOrder(s, a, d, k);
    }
  }

  /** At no moment of the run can the writes under way leave memory and database apart. */
  ghost predicate NeverHarmed(s: System, run: seq<Action>, d: Layer, k: Key)
    requires Possible(s, run)
    decreases |run|
  {
    !Harmed(s, d, k) && (run != [] ==> NeverHarmed(Do(s, run[0]), run[1..], d, k))
  }

  lemma {:induction false} RunCrossesExactly(s: System, run: seq<Action>, d: Layer, k: Key)
    requires AllPaired(s) && !Harmed(s, d, k) && Possible(s, run)
    ensures NeverHarmed(s, run, d, k) <==> NeverCrosses(s, run, d, k)
    decreases |run|
  {
    if run != [] {
      CrossesExactly(s, run[0], d, k);
      StepPaired(s, run[0]);
      if !Harmed(Do(s, run[0]), d, k) { RunCrossesExactly(Do(s, run[0]), run[1..], d, k); }
    }
  }

  /**
    From the empty bridge on, memory and database of a relay end up with the same row, in whatever
    order the writes under way are finished and at whatever moment of the run, exactly when in the run
    no put of the row crosses a delete of it.
  */
  lemma NeverApartExactly(owner1: Address, owner2: Address, chainId: nat, timeout1: nat, timeout2: nat, time: Times,
                          run: seq<Action>, d: Layer, k: Key)
    requires Possible(Init(owner1, owner2, chainId, timeout1, timeout2, time), run)
    ensures var s0 := Init(owner1, owner2, chainId, timeout1, timeout2, time);
      NeverHarmed(s0, run, d, k) <==> NeverCrosses(s0, run, d, k)
  {
    var s0 := Init(owner1, owner2, chainId, timeout1, timeout2, time);
    InOrderExactly(s0, d, k);
    RunCrossesExactly(s0, run, d, k);
  }
}
