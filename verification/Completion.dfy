/** An execution that commits has run every instruction of its message, in order. */
module Completion {
  import opened Wrappers
  import opened Bytes
  import opened State
  import opened Pda
  import opened Program
  import opened Safety
  import opened Guarantees

  ghost predicate Ran(log: seq<Event>, id: ProposalId, step: nat) { exists cpi :: Invoked(id, step, cpi) in log }

  ghost predicate RanThrough(log: seq<Event>, id: ProposalId, k: nat, n: nat) {
    forall step: nat :: k <= step < n ==> Ran(log, id, step)
  }

  // If e is a start, then of a created message all of whose instructions were run.
  ghost predicate Finished(log: seq<Event>, e: Event) {
    e.Started?
    ==> exists c :: c in log && c.Created? && c.id == e.id && RanThrough(log, e.id, 0, |c.message.instructions|)
  }

  // Whatever started on the way from l to m also finished.
  ghost predicate Finishes(l: Ledger, m: Ledger) {
    && l.log <= m.log
    && forall e :: Due(l, m, e)
  }

  ghost predicate Due(l: Ledger, m: Ledger, e: Event) { e in m.log && e !in l.log ==> Finished(m.log, e) }

  lemma RanStays(log: seq<Event>, longer: seq<Event>, id: ProposalId, k: nat, n: nat)
    requires log <= longer && RanThrough(log, id, k, n)
    ensures RanThrough(longer, id, k, n)
  {
    forall step: nat | k <= step < n ensures Ran(longer, id, step) {
      assert Ran(log, id, step);
      var cpi :| Invoked(id, step, cpi) in log;
      assert Invoked(id, step, cpi) in longer;
    }
  }

  lemma FinishedStays(log: seq<Event>, longer: seq<Event>, e: Event)
    requires log <= longer && Finished(log, e)
    ensures Finished(longer, e)
  {
    if e.Started? {
      var c :| c in log && c.Created? && c.id == e.id && RanThrough(log, e.id, 0, |c.message.instructions|);
      RanStays(log, longer, e.id, 0, |c.message.instructions|);
      assert c in longer;
    }
  }

  lemma FinishesTransitive(a: Ledger, b: Ledger, c: Ledger)
    requires Finishes(a, b) && Finishes(b, c)
    ensures Finishes(a, c)
  {
    forall e ensures Due(a, c, e) {
      assert Due(a, b, e) && Due(b, c, e);
      if e in b.log && e !in a.log { FinishedStays(b.log, c.log, e); }
    }
  }

  // Steps that start nothing.
  lemma LogsOne(l: Ledger, m: Ledger, e: Event)
    requires m.log == l.log + [e] && !e.Started?
    ensures Finishes(l, m)
  {
    forall o ensures Due(l, m, o) {}
  }

  lemma StillLogged(log: seq<Event>, longer: seq<Event>, e: Event)
    requires log <= longer && e in log
    ensures e in longer
  {
    var i :| 0 <= i < |log| && log[i] == e;
    assert longer[i] == e;
  }

  // The k-th CPI and whatever it calls back.
  lemma CpiFinishes(env: Env, before: Ledger, l: Ledger, id: ProposalId, message: TransactionMessage, k: nat,
      cpis: seq<Cpi>)
      returns (after: Ledger)
    requires Inv(env, before) && Inv(env, l) && Extends(before, l) && !Settled(before, id)
    requires k < |message.instructions| && Running(env, l, id, message, k)
    requires ApplyCpis(env, l, id, message, k, cpis).Ok?
    ensures Inv(env, after) && Extends(before, after) && Running(env, after, id, message, k + 1)
    ensures ApplyCpis(env, l, id, message, k, cpis) == ApplyCpis(env, after, id, message, k + 1, cpis)
    ensures Finishes(l, after) && Ran(after.log, id, k)
    decreases cpis, |message.instructions| - k, 0
  {
    var cpi := Resolve(message, message.instructions[k]).value;
    var e := Invoked(id, k, cpi);
    var invoked := Record(l, e);
    InvokeKeeps(env, before, l, id, message, k, cpi);
    LogsOne(l, invoked, e);
    after := invoked;
    if k < |cpis| {
      after := ApplyAll(env, invoked, cpis[k].calls).value;
      AllFinish(env, invoked, cpis[k].calls);
      AllKeep(env, invoked, cpis[k].calls);
      ExtendsTransitive(env, before, invoked, after);
      RunningStays(env, invoked, after, id, message, k + 1);
      FinishesTransitive(l, invoked, after);
    }
    StillLogged(invoked.log, after.log, e);
  }

  lemma {:induction false} CpisFinish(env: Env, before: Ledger, l: Ledger, id: ProposalId,
      message: TransactionMessage, k: nat, cpis: seq<Cpi>)
    requires Inv(env, before) && Inv(env, l) && Extends(before, l) && !Settled(before, id)
    requires k <= |message.instructions| && Running(env, l, id, message, k)
    requires ApplyCpis(env, l, id, message, k, cpis).Ok?
    ensures var m := ApplyCpis(env, l, id, message, k, cpis).value;
            Finishes(l, m) && RanThrough(m.log, id, k, |message.instructions|)
    decreases cpis, |message.instructions| - k, 1
  {
    if k == |message.instructions| {
    } else {
      var after := CpiFinishes(env, before, l, id, message, k, cpis);
      CpisFinish(env, before, after, id, message, k + 1, cpis);
      var m := ApplyCpis(env, after, id, message, k + 1, cpis).value;
      FinishesTransitive(l, after, m);
      var cpi :| Invoked(id, k, cpi) in after.log;
      StillLogged(after.log, m.log, Invoked(id, k, cpi));
      assert Ran(m.log, id, k);
    }
  }

  lemma {:induction false} ApplyFinishes(env: Env, l: Ledger, c: Call)
    requires Inv(env, l) && Apply(env, l, c).Ok?
    ensures Finishes(l, Apply(env, l, c).value)
    decreases c, 0, 1
  {
    var m := Apply(env, l, c).value;
    match c
    case Initialize(_, _, _, _, _) => LogsOne(l, m, m.log[|l.log|]);
    case Create(_, _, _, _, _) => LogsOne(l, m, m.log[|l.log|]);
    case Approve(_, _, _) => LogsOne(l, m, m.log[|l.log|]);
    case Close(_, _, _) => LogsOne(l, m, m.log[|l.log|]);
    case Execute(_, _, _, _) => ExecuteFinishes(env, l, c);
  }

  lemma ExecuteFinishes(env: Env, l: Ledger, c: Call)
    requires Inv(env, l) && c.Execute? && Apply(env, l, c).Ok?
    ensures Finishes(l, Apply(env, l, c).value)
    decreases c, 0, 0
  {
    var id := ProposalId(c.multisig, c.index);
    var message := l.proposals[id].data.message;
    var started := StartStep(l, c.multisig, c.index, c.remaining).value;
    StartKeeps(env, l, c.multisig, c.index, c.remaining);
    StartRuns(env, l, c.multisig, c.index, c.remaining);
    CpisFinish(env, l, started, id, message, 0, c.cpis);
    var m := ApplyCpis(env, started, id, message, 0, c.cpis).value;
    var payer, deposit :| Created(id, payer, deposit, message) in started.log;
    StillLogged(started.log, m.log, Created(id, payer, deposit, message));
    forall e ensures Due(l, m, e) { assert Due(started, m, e); }
  }

  lemma {:induction false} AllFinish(env: Env, l: Ledger, calls: seq<Call>)
    requires Inv(env, l) && ApplyAll(env, l, calls).Ok?
    ensures Finishes(l, ApplyAll(env, l, calls).value)
    decreases calls, 0
  {
    if calls == [] {
    } else {
      var next := Apply(env, l, calls[0]).value;
      ApplyKeeps(env, l, calls[0]);
      ApplyFinishes(env, l, calls[0]);
      AllFinish(env, next, calls[1..]);
      FinishesTransitive(l, next, ApplyAll(env, next, calls[1..]).value);
    }
  }

  lemma {:induction false} RunFinishes(env: Env, l: Ledger, txs: seq<seq<Call>>)
    requires Inv(env, l)
    ensures Finishes(l, Run(env, l, txs))
    decreases |txs|
  {
    if txs == [] {
    } else {
      var next := Submit(env, l, txs[0]);
      if ApplyAll(env, l, txs[0]).Ok? {
        AllKeep(env, l, txs[0]);
        AllFinish(env, l, txs[0]);
      }
      RunFinishes(env, next, txs[1..]);
      FinishesTransitive(l, next, Run(env, next, txs[1..]));
    }
  }

  // All or nothing: once a transaction has committed, every proposal started in
  // it had every instruction of its message invoked, none left out.
  lemma StartedIsFinished(env: Env, l: Ledger, id: ProposalId, approvals: seq<Key>, payer: Key, deposit: nat,
      message: TransactionMessage, step: nat)
    requires Reachable(env, l) && Started(id, approvals) in l.log && Created(id, payer, deposit, message) in l.log
    requires step < |message.instructions|
    ensures exists cpi :: Invoked(id, step, cpi) in l.log && Resolve(message, message.instructions[step]) == Some(cpi)
  {
    var wallets, txs :| l == Run(env, Genesis(wallets), txs);
    RunFinishes(env, Genesis(wallets), txs);
    assert Due(Genesis(wallets), l, Started(id, approvals));
    var c :| c in l.log && c.Created? && c.id == id && RanThrough(l.log, id, 0, |c.message.instructions|);
    CreatedOnce(env, l, c, Created(id, payer, deposit, message));
    assert Ran(l.log, id, step);
    var cpi :| Invoked(id, step, cpi) in l.log;
    OnlyThatMessageRuns(env, l, id, payer, deposit, message, step, cpi);
  }

  // In order: of one proposal, creation comes first, then approvals, then the
  // start, then the instructions one after the other; nothing is approved or
  // started once it was closed, and nothing is closed before it was created.
  lemma InOrder(env: Env, l: Ledger, i: nat, j: nat)
    requires Reachable(env, l) && i < j < |l.log|
    requires !l.log[i].Initialized? && !l.log[j].Initialized? && l.log[i].id == l.log[j].id
    ensures match (l.log[i], l.log[j])
            case (Approved(_, x), Approved(_, y)) => x != y
            case (Invoked(_, x, _), Invoked(_, y, _)) => x < y
            case (Invoked(_, _, _), Closed(_, _, _)) => true
            case (Closed(_, _, _), Invoked(_, _, _)) => true
            case (a, b) => Stage(a) < Stage(b)
  {
    ReachableInv(env, l);
    assert Apart(l.log, i, j);
  }
}
