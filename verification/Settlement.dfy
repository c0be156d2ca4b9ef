/** From the accepted bundle to the committed ledger: what is run for its proposal is
    what the money semantics runs, instruction by instruction. */
module Settlement {
  import opened Wrappers
  import opened Bytes
  import opened Members
  import opened State
  import opened Pda
  import opened Program
  import opened Safety
  import opened Guarantees
  import opened Completion
  import opened Bundle
  import opened FundFlows
  import opened Enterprise
  import opened Proposals
  import opened Consumer
  import opened Money
  import opened SignedIsExecuted

  // ---- the CPIs of one proposal, as logged ----

  datatype Made = Made(step: nat, cpi: Invocation)

  function MadeFor(log: seq<Event>, id: ProposalId): seq<Made> {
    if log == [] then [] else
    var e := log[|log| - 1];
    MadeFor(log[..|log| - 1], id) + (if e.Invoked? && e.id == id then [Made(e.step, e.cpi)] else [])
  }

  lemma {:induction false} MadeIsLogged(log: seq<Event>, id: ProposalId, x: Made)
    ensures x in MadeFor(log, id) <==> Invoked(id, x.step, x.cpi) in log
  {
    if log == [] {
    } else {
      var head := log[..|log| - 1];
      MadeIsLogged(head, id, x);
      assert log == head + [log[|log| - 1]];
    }
  }

  ghost predicate StepsAscend(made: seq<Made>) { forall p, q | 0 <= p < q < |made| :: made[p].step < made[q].step }

  lemma NoClashPrefix(log: seq<Event>)
    requires log != [] && NoClash(log)
    ensures NoClash(log[..|log| - 1])
  {
    var head := log[..|log| - 1];
    forall i: nat, j: nat ensures Apart(head, i, j) { assert Apart(log, i, j); }
  }

  // The last CPI logged is a later step than any before it.
  lemma LaterStep(log: seq<Event>, id: ProposalId, x: Made)
    requires log != [] && NoClash(log) && x in MadeFor(log[..|log| - 1], id)
    requires log[|log| - 1].Invoked? && log[|log| - 1].id == id
    ensures x.step < log[|log| - 1].step
  {
    var n := |log| - 1;
    MadeIsLogged(log[..n], id, x);
    var i :| 0 <= i < n && log[i] == Invoked(id, x.step, x.cpi);
    assert Apart(log, i, n);
  }

  lemma {:induction false} MadeInOrder(log: seq<Event>, id: ProposalId)
    requires NoClash(log)
    ensures StepsAscend(MadeFor(log, id))
  {
    if log == [] {
    } else {
      var n := |log| - 1;
      NoClashPrefix(log);
      MadeInOrder(log[..n], id);
      var head := MadeFor(log[..n], id);
      if log[n].Invoked? && log[n].id == id {
        forall p | 0 <= p < |head| ensures head[p].step < log[n].step { LaterStep(log, id, head[p]); }
      } else {
        assert MadeFor(log, id) == head;
      }
    }
  }

  // ---- all of 0..n-1, ascending ----

  lemma {:induction false} Climbs(made: seq<Made>, p: nat, q: nat)
    requires StepsAscend(made) && p <= q < |made|
    ensures made[q].step - made[p].step >= q - p
    decreases q - p
  {
    if p == q {
    } else {
      Climbs(made, p, q - 1);
    }
  }

  function Steps(made: seq<Made>): (s: seq<nat>)
    ensures |s| == |made| && forall k | 0 <= k < |s| :: s[k] == made[k].step
  {
    seq(|made|, k requires 0 <= k < |made| => made[k].step)
  }

  lemma Contiguous(made: seq<Made>, n: nat)
    requires StepsAscend(made) && forall k | 0 <= k < |made| :: made[k].step < n
    requires forall step: nat | step < n :: step in Steps(made)
    ensures |made| == n && forall k | 0 <= k < n :: made[k].step == k
  {
    forall x | x in Range(n) ensures x in Steps(made) {}
    Pigeonhole(Range(n), Steps(made));
    forall x | x in Steps(made) ensures x in Range(n) { assert Range(n)[x] == x; }
    Pigeonhole(Steps(made), Range(n));
    forall k | 0 <= k < n ensures made[k].step == k {
      Climbs(made, 0, k);
      Climbs(made, k, n - 1);
    }
  }

  // The k-th CPI made is the k-th instruction of the message, and there are no others.
  ghost predicate Carries(m: TransactionMessage, made: seq<Made>) {
    && |made| == |m.instructions|
    && forall k | 0 <= k < |made| :: made[k].step == k && Resolve(m, m.instructions[k]) == Some(made[k].cpi)
  }

  // Started with the consent of a quorum, each member by a call of its own.
  ghost predicate Consented(l: Ledger, id: ProposalId) {
    exists approvals :: Started(id, approvals) in l.log && Quorum(l, id.multisig, approvals) && CastBy(l, id, approvals)
  }

  // No CPI at all, or with a quorum's consent the whole message, once and in order.
  ghost predicate NothingOrAll(l: Ledger, id: ProposalId, m: TransactionMessage) {
    MadeFor(l.log, id) == [] || (Consented(l, id) && Carries(m, MadeFor(l.log, id)))
  }

  lemma MadeFromMessage(env: Env, l: Ledger, id: ProposalId, payer: Key, deposit: nat, m: TransactionMessage, k: nat)
    requires Reachable(env, l) && Created(id, payer, deposit, m) in l.log && k < |MadeFor(l.log, id)|
    ensures var x := MadeFor(l.log, id)[k];
            x.step < |m.instructions| && Resolve(m, m.instructions[x.step]) == Some(x.cpi)
  {
    var x := MadeFor(l.log, id)[k];
    MadeIsLogged(l.log, id, x);
    OnlyThatMessageRuns(env, l, id, payer, deposit, m, x.step, x.cpi);
  }

  lemma StepIsMade(env: Env, l: Ledger, id: ProposalId, approvals: seq<Key>, payer: Key, deposit: nat,
      m: TransactionMessage, step: nat)
    requires Reachable(env, l) && Created(id, payer, deposit, m) in l.log && Started(id, approvals) in l.log
    requires step < |m.instructions|
    ensures step in Steps(MadeFor(l.log, id))
  {
    StartedIsFinished(env, l, id, approvals, payer, deposit, m, step);
    var cpi :| Invoked(id, step, cpi) in l.log && Resolve(m, m.instructions[step]) == Some(cpi);
    var x := Made(step, cpi);
    MadeIsLogged(l.log, id, x);
    var k :| 0 <= k < |MadeFor(l.log, id)| && MadeFor(l.log, id)[k] == x;
    assert Steps(MadeFor(l.log, id))[k] == step;
  }

  // In any reachable ledger a proposal has made no CPI at all, or, with a
  // quorum's consent, exactly the instructions of its created message, once
  // each and in order.
  lemma NothingOrTheWholeMessage(env: Env, l: Ledger, id: ProposalId, payer: Key, deposit: nat, m: TransactionMessage)
    requires Reachable(env, l) && Created(id, payer, deposit, m) in l.log
    ensures NothingOrAll(l, id, m)
  {
    ReachableInv(env, l);
    var made := MadeFor(l.log, id);
    if made != [] {
      var first := made[0];
      MadeIsLogged(l.log, id, first);
      assert EventOk(env, l, Invoked(id, first.step, first.cpi));
      var approvals :| Started(id, approvals) in l.log;
      assert EventOk(env, l, Started(id, approvals));
      MadeInOrder(l.log, id);
      forall k | 0 <= k < |made| ensures made[k].step < |m.instructions| {
        MadeFromMessage(env, l, id, payer, deposit, m, k);
      }
      forall step: nat | step < |m.instructions| ensures step in Steps(made) {
        StepIsMade(env, l, id, approvals, payer, deposit, m, step);
      }
      Contiguous(made, |m.instructions|);
      forall k | 0 <= k < |made| ensures Resolve(m, m.instructions[k]) == Some(made[k].cpi) {
        MadeFromMessage(env, l, id, payer, deposit, m, k);
      }
    }
  }

  // ---- what they move ----

  // Logged CPIs, performed one after another.
  function PerformAll(foreign: Foreign, p: Purse, made: seq<Made>): Option<(Purse, seq<Flow>)>
    decreases |made|
  {
    if made == [] then Some((p, [])) else
    var (q, flows) :- Perform(foreign, p, made[0].cpi);
    var (r, rest) :- PerformAll(foreign, q, made[1..]);
    Some((r, flows + rest))
  }

  // The two execute loops are one.
  lemma {:induction false} LoggedIsRun(foreign: Foreign, p: Purse, m: TransactionMessage, made: seq<Made>, k: nat)
    requires Carries(m, made) && k <= |made|
    ensures RunMessage(foreign, p, m, k) == PerformAll(foreign, p, made[k..])
    decreases |made| - k
  {
    if k == |made| {
    } else {
      assert made[k..][0] == made[k] && made[k..][1..] == made[k + 1..];
      match Perform(foreign, p, made[k].cpi)
      case None =>
      case Some((q, flows)) => LoggedIsRun(foreign, q, m, made, k + 1);
    }
  }

  // ---- from the accepted bundle ----

  // End to end. Once the accepted message is created as some proposal, that
  // proposal has in every reachable ledger made no CPI, or, with a quorum's
  // consent, exactly those that running the message performs; and performing
  // them, from whatever balances, makes the accepted send and nothing else.
  lemma WhatRanIsTheSend(env: Env, foreign: Foreign, outer: Outer, p: Params, v: View, l: Ledger, id: ProposalId,
      payer: Key, deposit: nat, purse: Purse)
    requires ConsumerAccepts(env, outer, p, v) && CreatedBy(env.programId, outer).Some? && Reachable(env, l)
    requires Created(id, payer, deposit, CreatedBy(env.programId, outer).value.1) in l.log
    ensures var m := CreatedBy(env.programId, outer).value.1;
            var made := MadeFor(l.log, id);
            && NothingOrAll(l, id, m) && m.accountKeys != []
            && (made != [] && PerformAll(foreign, purse, made).Some? ==>
                  OnlyTheSend(env, PerformAll(foreign, purse, made).value.1, m.accountKeys[0], outer.feePayer, p))
  {
    var vaultIndex, m := AcceptedMessage(env, outer, p, v);
    NothingOrTheWholeMessage(env, l, id, payer, deposit, m);
    var made := MadeFor(l.log, id);
    if made != [] {
      LoggedIsRun(foreign, purse, m, made, 0);
      assert made[0..] == made;
      if RunMessage(foreign, purse, m, 0).Some? {
        OnePayment(env, foreign, m, vaultIndex, outer.feePayer, p, v, purse);
      }
    }
  }

  // What the logged CPIs move, if they all succeed, pays the payload out of this vault.
  ghost predicate MadePays(env: Env, foreign: Foreign, purse: Purse, made: seq<Made>, vault: Key,
      feePayer: Option<Key>, who: Attribution, x: Expectation, sigma: seq<nat>)
  {
    var run := PerformAll(foreign, purse, made);
    run.Some? ==> PaysThePayload(env, run.value.1, vault, feePayer, who, x, sigma)
  }

  // The same for the enterprise gate: what the ledger logs for the proposal an
  // accepted bundle creates is nothing, or CPIs that pay the payload on display.
  lemma WhatRanPaysThePayload(env: Env, foreign: Foreign, outer: Outer, opts: DecodeOptions, d: Decoded, x: Payload,
      l: Ledger, id: ProposalId, payer: Key, deposit: nat, purse: Purse) returns (sigma: seq<nat>)
    requires CreatesDecode(env.programId, outer.instructions)
    requires Describes(env, outer, Bundled(env.programId, outer.feePayer, outer.instructions), opts, d)
    requires d.CreateTx? && Matches(env, d, x, false) && CreatedBy(env.programId, outer).Some? && Reachable(env, l)
    requires Created(id, payer, deposit, CreatedBy(env.programId, outer).value.1) in l.log
    ensures NothingOrAll(l, id, CreatedBy(env.programId, outer).value.1)
    ensures MadeFor(l.log, id) != [] ==>
              MadePays(env, foreign, purse, MadeFor(l.log, id), d.sender, outer.feePayer, opts.who, x.flows, sigma)
  {
    var m := CreatedBy(env.programId, outer).value.1;
    var made := MadeFor(l.log, id);
    sigma := EnterpriseCreatePays(env, foreign, outer, opts, d, x, purse);
    NothingOrTheWholeMessage(env, l, id, payer, deposit, m);
    if made != [] {
      LoggedIsRun(foreign, purse, m, made, 0);
      assert made[0..] == made;
    }
  }

  lemma MadeIsSettled(env: Env, l: Ledger, id: ProposalId, x: Made)
    requires Reachable(env, l) && x in MadeFor(l.log, id)
    ensures Settled(l, id)
  {
    ReachableInv(env, l);
    MadeIsLogged(l.log, id, x);
    assert EventOk(env, l, Invoked(id, x.step, x.cpi));
  }

  // Nothing has been run yet for a proposal that is not marked executed.
  lemma OpenMadeNothing(env: Env, l: Ledger, id: ProposalId)
    requires Reachable(env, l) && id in l.proposals && !l.proposals[id].data.executed
    ensures MadeFor(l.log, id) == []
  {
    if MadeFor(l.log, id) != [] { MadeIsSettled(env, l, id, MadeFor(l.log, id)[0]); }
  }

  lemma LaterNothingOrAll(env: Env, l: Ledger, id: ProposalId, txs: seq<seq<Call>>)
    requires Reachable(env, l) && id in l.proposals
    ensures NothingOrAll(Run(env, l, txs), id, l.proposals[id].data.message)
  {
    var a := l.proposals[id];
    StillCreated(env, l, txs, id);
    NothingOrTheWholeMessage(env, Run(env, l, txs), id, a.data.payer, a.lamports, a.data.message);
  }

  // These CPIs pay what the approving device saw, out of the vault it saw.
  ghost predicate PaysAsApproved(env: Env, foreign: Foreign, purse: Purse, made: seq<Made>, q: ApproveRequest,
      r: OnChain, sigma: seq<nat>)
  {
    r.Proposal? && MadePays(env, foreign, purse, made, r.vault, FeeKey(EffectiveOptions(q), r.payer),
                            q.proposalOptions.who, q.x.flows, sigma)
  }

  lemma CarriedPays(env: Env, foreign: Foreign, purse: Purse, m: TransactionMessage, made: seq<Made>,
      q: ApproveRequest, r: OnChain, sigma: seq<nat>)
    requires Carries(m, made) && RunPays(env, foreign, purse, m, q, r, sigma)
    ensures PaysAsApproved(env, foreign, purse, made, q, r, sigma)
  {
    LoggedIsRun(foreign, purse, m, made, 0);
    assert made[0..] == made;
  }

  // So far nothing has been run for an open proposal whose message pays; later
  // either still nothing, or all of that message.
  lemma OpenThenPays(env: Env, foreign: Foreign, l: Ledger, id: ProposalId, txs: seq<seq<Call>>, purse: Purse,
      q: ApproveRequest, r: OnChain, sigma: seq<nat>)
    requires Reachable(env, l) && id in l.proposals && !l.proposals[id].data.executed
    requires RunPays(env, foreign, purse, l.proposals[id].data.message, q, r, sigma)
    ensures MadeFor(l.log, id) == []
    ensures var after := Run(env, l, txs);
            && NothingOrAll(after, id, l.proposals[id].data.message)
            && (MadeFor(after.log, id) != [] ==>
                  PaysAsApproved(env, foreign, purse, MadeFor(after.log, id), q, r, sigma))
  {
    var m, made := l.proposals[id].data.message, MadeFor(Run(env, l, txs).log, id);
    OpenMadeNothing(env, l, id);
    LaterNothingOrAll(env, l, id, txs);
    if made != [] { CarriedPays(env, foreign, purse, m, made, q, r, sigma); }
  }

  // And for the device that approves a stored proposal: so far nothing has been
  // run for it, and after any later transactions either still nothing, or the
  // whole message that it saw, once, paying the payload on display.
  lemma WhatRanWasApproved(env: Env, foreign: Foreign, fetch: Fetch, q: ApproveRequest, d: Decoded, r: OnChain,
      l: Ledger, id: ProposalId, unused: seq<Byte>, txs: seq<seq<Call>>, purse: Purse) returns (sigma: seq<nat>)
    requires Reachable(env, l) && id in l.proposals && AcceptedAsStored(env, fetch, q, d, r, l, id, unused)
    ensures r.Proposal? && MadeFor(l.log, id) == []
    ensures var after := Run(env, l, txs);
            && NothingOrAll(after, id, l.proposals[id].data.message)
            && (MadeFor(after.log, id) != [] ==>
                  PaysAsApproved(env, foreign, purse, MadeFor(after.log, id), q, r, sigma))
  {
    sigma := WhatYouApproveIsWhatPays(env, foreign, fetch, q, d, r, l, id, unused, purse);
    OpenThenPays(env, foreign, l, id, txs, purse, q, r, sigma);
  }
}
