/** A burst of equal requests against one mandate, through the whole request pipeline. */
module Burst {
  import opened Domain
  import opened Forest
  import opened Policy
  import opened Ledger
  import opened Books
  import opened Admission
  import opened Machine

  /** Every rule but the aggregate limit passes for the request. */
  ghost predicate OnlyBudgetDecides(s: State, req: OpRequest, now: int) {
    && req.kind.CreateOrder?
    && req.agent in s.agents && req.mandate in s.mandates
    && forall r | r != AggregateSpendLimitRule :: Verdict(r, LiveQuery(s, req, now, true)) == Allow
  }

  /** Request i uses key keys[i]; the gateway confirms each order it is asked for under refs[i]. */
  function BurstSteps(req: OpRequest, keys: seq<Id>, refs: seq<Id>, now: int): seq<Step>
    requires |refs| == |keys|
  {
    seq(|keys|, i requires 0 <= i < |keys| => RequestOperation(keys[i], req, now, true, Confirmed(refs[i], false)))
  }

  function Amounts(a: Amount, n: nat): seq<Amount> {
    seq(n, _ => a)
  }

  /** The other rules look at nothing that a reservation changes. */
  lemma StillOnlyBudget(s: State, t: State, req: OpRequest, now: int)
    requires OnlyBudgetDecides(s, req, now) && t.agents == s.agents
    requires req.mandate in t.mandates && var row := t.mandates[req.mandate];
             row == s.mandates[req.mandate].(reserved := row.reserved, version := row.version)
    ensures OnlyBudgetDecides(t, req, now)
  {
    forall r | r != AggregateSpendLimitRule ensures Verdict(r, LiveQuery(t, req, now, true)) == Allow {
      assert Verdict(r, LiveQuery(s, req, now, true)) == Allow;
    }
  }

  lemma BudgetDecides(s: State, req: OpRequest, now: int)
    requires OnlyBudgetDecides(s, req, now)
    ensures Decide(DEFAULT_RULES, LiveQuery(s, req, now, true)) ==
            if s.mandates[req.mandate].Fits(req.amount) then Allow else Deny
  {
    var q := LiveQuery(s, req, now, true);
    assert Verdict(DEFAULT_RULES[6], q) == if s.mandates[req.mandate].Fits(req.amount) then Allow else Deny;
  }

  /** One request: executing if it fits, rejected otherwise. */
  lemma OneRequest(s: State, o: Id, ref: Id, req: OpRequest, now: int)
    requires OnlyBudgetDecides(s, req, now) && o !in s.ops
    ensures var t := Next(s, RequestOperation(o, req, now, true, Confirmed(ref, false)));
            && t.agents == s.agents
            && t.mandates == s.mandates[req.mandate := Admit(s.mandates[req.mandate], req.amount)]
            && t.ops.Keys == s.ops.Keys + {o}
            && (forall x | x in s.ops :: t.ops[x] == s.ops[x])
            && t.ops[o].status == (if s.mandates[req.mandate].Fits(req.amount) then Executing else PolicyRejected)
  {
    BudgetDecides(s, req, now);
  }

  /** After the burst each request has followed its reservation, and nothing else moved. */
  ghost predicate Followed(s: State, t: State, keys: seq<Id>, flags: seq<bool>)
    requires |flags| == |keys|
  {
    && (forall x | x in s.ops :: x in t.ops && t.ops[x] == s.ops[x])
    && (forall i | 0 <= i < |keys| ::
          keys[i] in t.ops && t.ops[keys[i]].status == if flags[i] then Executing else PolicyRejected)
  }

  lemma FollowedStep(s: State, s1: State, t: State, keys: seq<Id>, flags: seq<bool>)
    requires |flags| == |keys| > 0
    requires Followed(s1, t, keys[1..], flags[1..])
    requires forall x | x in s.ops :: x in s1.ops && s1.ops[x] == s.ops[x]
    requires keys[0] in s1.ops && s1.ops[keys[0]].status == if flags[0] then Executing else PolicyRejected
    ensures Followed(s, t, keys, flags)
  {
    forall i | 0 <= i < |keys|
      ensures keys[i] in t.ops && t.ops[keys[i]].status == if flags[i] then Executing else PolicyRejected
    {
      if i > 0 {
        assert keys[i] == keys[1..][i - 1] && flags[i] == flags[1..][i - 1];
      }
    }
  }

  lemma TailKeys(s: State, s1: State, keys: seq<Id>)
    requires keys != [] && Distinct(keys) && forall o | o in keys :: o !in s.ops
    requires s1.ops.Keys == s.ops.Keys + {keys[0]}
    ensures Distinct(keys[1..]) && forall o | o in keys[1..] :: o !in s1.ops
  {
    forall o | o in keys[1..] ensures o !in s1.ops {
      var i :| 0 <= i < |keys[1..]| && keys[1..][i] == o;
      assert keys[i + 1] == o && o in keys;
    }
  }

  lemma BurstTail(req: OpRequest, keys: seq<Id>, refs: seq<Id>, now: int)
    requires |refs| == |keys| > 0
    ensures BurstSteps(req, keys, refs, now)[1..] == BurstSteps(req, keys[1..], refs[1..], now)
    ensures Amounts(req.amount, |keys|)[1..] == Amounts(req.amount, |keys| - 1)
  {
  }

  lemma AdmittedTail(m: Mandate, amounts: seq<Amount>)
    requires amounts != []
    ensures Admitted(m, amounts)[0] == m.Fits(amounts[0])
    ensures Admitted(m, amounts)[1..] == Admitted(Admit(m, amounts[0]), amounts[1..])
    ensures AdmitAll(m, amounts) == AdmitAll(Admit(m, amounts[0]), amounts[1..])
  {
  }

  /** A burst drives the mandate as the bare reservations would, and each request follows its reservation. */
  lemma {:induction false} BurstMatchesAdmission(s: State, req: OpRequest, keys: seq<Id>, refs: seq<Id>, now: int)
    requires OnlyBudgetDecides(s, req, now) && |refs| == |keys|
    requires Distinct(keys) && forall o | o in keys :: o !in s.ops
    ensures var t := Run(s, BurstSteps(req, keys, refs, now));
            && req.mandate in t.mandates
            && t.mandates[req.mandate] == AdmitAll(s.mandates[req.mandate], Amounts(req.amount, |keys|))
            && Followed(s, t, keys, Admitted(s.mandates[req.mandate], Amounts(req.amount, |keys|)))
    decreases |keys|
  {
    if keys != [] {
      var steps := BurstSteps(req, keys, refs, now);
      var s1 := Next(s, steps[0]);
      var amounts := Amounts(req.amount, |keys|);
      OneRequest(s, keys[0], refs[0], req, now);
      StillOnlyBudget(s, s1, req, now);
      TailKeys(s, s1, keys);
      BurstTail(req, keys, refs, now);
      BurstMatchesAdmission(s1, req, keys[1..], refs[1..], now);
      AdmittedTail(s.mandates[req.mandate], amounts);
      FollowedStep(s, s1, Run(s, steps), keys, Admitted(s.mandates[req.mandate], amounts));
    }
  }

  /** Of n equal requests, one after the other, exactly min(n, room / a) execute; the others are rejected. */
  lemma BurstIsExact(s: State, req: OpRequest, keys: seq<Id>, refs: seq<Id>, now: int)
    requires Reachable(s) && OnlyBudgetDecides(s, req, now) && |refs| == |keys|
    requires Distinct(keys) && forall o | o in keys :: o !in s.ops
    ensures var t := Run(s, BurstSteps(req, keys, refs, now));
            && (forall i | 0 <= i < |keys| :: keys[i] in t.ops && t.ops[keys[i]].status in {Executing, PolicyRejected})
            && Count(seq(|keys|, i requires 0 <= i < |keys| => t.ops[keys[i]].status.Executing?))
               == Least(|keys|, Room(s.mandates[req.mandate]) / req.amount)
  {
    ReachableInv(s);
    assert WithinLimit(s.mandates[req.mandate]);
    BurstMatchesAdmission(s, req, keys, refs, now);
    var t := Run(s, BurstSteps(req, keys, refs, now));
    var flags := Admitted(s.mandates[req.mandate], Amounts(req.amount, |keys|));
    assert seq(|keys|, i requires 0 <= i < |keys| => t.ops[keys[i]].status.Executing?) == flags;
    EqualRequestsExact(s.mandates[req.mandate], Amounts(req.amount, |keys|), req.amount);
  }
}
