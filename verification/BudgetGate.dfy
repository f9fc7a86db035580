/** The budget gate: one usage record against every ceiling it falls under, given what was used before. */
module BudgetGate {
  import opened Wrappers
  import opened Sequences

  type Id = nat

  datatype Scope = Project | Task | Run | Agent
  datatype Kind = LlmRequest | ToolCall
  datatype Resource = Tokens | LlmCalls | Duration | ToolCalls | Cpu | Gpu | ProviderCost

  datatype UsageRecord = UsageRecord(
    project: Id, task: Option<Id>, run: Option<Id>, agent: Option<Id>, kind: Kind,
    inputTokens: Option<nat>, outputTokens: Option<nat>, duration: real, toolCalls: nat,
    cpu: real, gpu: real, cost: Option<real>)

  /** A ceiling for one scope; a resource without an entry is not limited. */
  datatype Budget = Budget(scope: Scope, scopeId: Id, limits: map<Resource, real>)

  datatype Decision = Allow | Stop(scope: Scope, exceeded: Resource)

  predicate ValidRecord(r: UsageRecord) {
    r.duration >= 0.0 && r.cpu >= 0.0 && r.gpu >= 0.0 && (r.cost.Some? ==> r.cost.value >= 0.0)
  }

  predicate ValidBudget(b: Budget) {
    b.limits != map[] && forall x <- b.limits :: b.limits[x] >= 0.0
  }

  /** At most four budgets, no two for one scope. */
  predicate ValidPolicy(policy: seq<Budget>) {
    && |policy| <= 4 && (forall b <- policy :: ValidBudget(b))
    && forall i, j | 0 <= i < j < |policy| :: policy[i].scope != policy[j].scope || policy[i].scopeId != policy[j].scopeId
  }

  // ---------------------------------------------------------------- the gate

  predicate Matches(b: Budget, r: UsageRecord) {
    match b.scope
    case Project => r.project == b.scopeId
    case Task => r.task == Some(b.scopeId)
    case Run => r.run == Some(b.scopeId)
    case Agent => r.agent == Some(b.scopeId)
  }

  function OrZero(x: Option<nat>): nat {
    if x.Some? then x.value else 0
  }

  function Used(r: UsageRecord, x: Resource): real {
    match x
    case Tokens => (OrZero(r.inputTokens) + OrZero(r.outputTokens)) as real
    case LlmCalls => if r.kind.LlmRequest? then 1.0 else 0.0
    case Duration => r.duration
    case ToolCalls => r.toolCalls as real
    case Cpu => r.cpu
    case Gpu => r.gpu
    case ProviderCost => if r.cost.Some? then r.cost.value else 0.0
  }

  function Share(b: Budget, x: Resource, r: UsageRecord): real {
    if Matches(b, r) then Used(r, x) else 0.0
  }

  /** What the records in the scope of the budget used of a resource. */
  function Total(b: Budget, x: Resource, history: seq<UsageRecord>): real {
    if history == [] then 0.0
    else Total(b, x, history[..|history| - 1]) + Share(b, x, history[|history| - 1])
  }

  /** The order in which the ceilings of a budget are compared. */
  function Checked(): seq<Resource> {
    [Tokens, LlmCalls, Duration, ToolCalls, Cpu, Gpu, ProviderCost]
  }

  predicate Exceeds(b: Budget, x: Resource, history: seq<UsageRecord>) {
    x in b.limits && Total(b, x, history) > b.limits[x]
  }

  function FirstExceeded(b: Budget, history: seq<UsageRecord>, xs: seq<Resource>): Option<Resource> {
    if xs == [] then None
    else if Exceeds(b, xs[0], history) then Some(xs[0])
    else FirstExceeded(b, history, xs[1..])
  }

  /** The verdict of one budget on a record and the history before it. */
  function EvaluateBudget(b: Budget, r: UsageRecord, history: seq<UsageRecord>): Option<Decision> {
    match FirstExceeded(b, history + [r], Checked())
    case None => None
    case Some(x) => Some(Stop(b.scope, x))
  }

  /** The first budget that matches and is exceeded stops the record. */
  function Evaluate(policy: seq<Budget>, r: UsageRecord, history: seq<UsageRecord>): Decision {
    if policy == [] then Allow
    else
      var decision := if Matches(policy[0], r) then EvaluateBudget(policy[0], r, history) else None;
      if decision.Some? then decision.value else Evaluate(policy[1..], r, history)
  }

  // ---------------------------------------------------------------- what a decision means

  /** No ceiling of the budget is exceeded. */
  ghost predicate Within(b: Budget, history: seq<UsageRecord>) {
    forall x :: !Exceeds(b, x, history)
  }

  lemma {:induction false} FirstExceededMeans(b: Budget, history: seq<UsageRecord>, xs: seq<Resource>)
    ensures FirstExceeded(b, history, xs).None? <==> forall x <- xs :: !Exceeds(b, x, history)
    ensures FirstExceeded(b, history, xs).Some? ==>
              exists i | 0 <= i < |xs| ::
                && xs[i] == FirstExceeded(b, history, xs).value && Exceeds(b, xs[i], history)
                && forall j | 0 <= j < i :: !Exceeds(b, xs[j], history)
  {
    if xs != [] && !Exceeds(b, xs[0], history) {
      FirstExceededMeans(b, history, xs[1..]);
      assert xs == [xs[0]] + xs[1..];
      if FirstExceeded(b, history, xs).Some? {
        var i :| 0 <= i < |xs[1..]| && xs[1..][i] == FirstExceeded(b, history, xs[1..]).value
          && Exceeds(b, xs[1..][i], history) && forall j | 0 <= j < i :: !Exceeds(b, xs[1..][j], history);
        assert xs[i + 1] == xs[1..][i];
        assert forall j | 0 < j < i + 1 :: xs[j] == xs[1..][j - 1];
      }
    }
  }

  lemma AllChecked(x: Resource)
    ensures x in Checked()
  {
    match x
    case Tokens => assert Checked()[0] == x;
    case LlmCalls => assert Checked()[1] == x;
    case Duration => assert Checked()[2] == x;
    case ToolCalls => assert Checked()[3] == x;
    case Cpu => assert Checked()[4] == x;
    case Gpu => assert Checked()[5] == x;
    case ProviderCost => assert Checked()[6] == x;
  }

  lemma BudgetAllowsMeans(b: Budget, r: UsageRecord, history: seq<UsageRecord>)
    ensures EvaluateBudget(b, r, history).None? <==> Within(b, history + [r])
  {
    FirstExceededMeans(b, history + [r], Checked());
    forall x ensures x in Checked() {
      AllChecked(x);
    }
  }

  /** A record is allowed exactly when it leaves every budget it falls under within its ceilings. */
  lemma {:induction false} AllowMeans(policy: seq<Budget>, r: UsageRecord, history: seq<UsageRecord>)
    ensures Evaluate(policy, r, history) == Allow
            <==> forall b <- policy :: Matches(b, r) ==> Within(b, history + [r])
  {
    if policy != [] {
      BudgetAllowsMeans(policy[0], r, history);
      AllowMeans(policy[1..], r, history);
      assert policy == [policy[0]] + policy[1..];
    }
  }

  /** A stop names a ceiling that is exceeded, in a budget that the record falls under. */
  lemma {:induction false} StopMeans(policy: seq<Budget>, r: UsageRecord, history: seq<UsageRecord>)
    requires Evaluate(policy, r, history).Stop?
    ensures exists i | 0 <= i < |policy| ::
              && Matches(policy[i], r) && policy[i].scope == Evaluate(policy, r, history).scope
              && Exceeds(policy[i], Evaluate(policy, r, history).exceeded, history + [r])
              && forall j | 0 <= j < i && Matches(policy[j], r) :: Within(policy[j], history + [r])
  {
    BudgetAllowsMeans(policy[0], r, history);
    FirstExceededMeans(policy[0], history + [r], Checked());
    if !Matches(policy[0], r) || EvaluateBudget(policy[0], r, history).None? {
      StopMeans(policy[1..], r, history);
      var i :| 0 <= i < |policy[1..]|
        && Matches(policy[1..][i], r) && policy[1..][i].scope == Evaluate(policy, r, history).scope
        && Exceeds(policy[1..][i], Evaluate(policy, r, history).exceeded, history + [r])
        && forall j | 0 <= j < i && Matches(policy[1..][j], r) :: Within(policy[1..][j], history + [r]);
      assert policy[i + 1] == policy[1..][i];
      assert forall j | 0 < j < i + 1 :: policy[j] == policy[1..][j - 1];
    } else {
      assert Matches(policy[0], r);
    }
  }

  // ---------------------------------------------------------------- what a record adds

  /** The record names what the budget is for. */
  predicate Concerns(b: Budget, r: UsageRecord) {
    || (b.scope == Project && r.project == b.scopeId)
    || (b.scope == Task && r.task == Some(b.scopeId))
    || (b.scope == Run && r.run == Some(b.scopeId))
    || (b.scope == Agent && r.agent == Some(b.scopeId))
  }

  /** One more record adds its tokens in both directions, itself when it is a model request, its
      durations, tool calls and cost to the totals of a budget that it concerns, and nothing to others. */
  lemma RecordAdds(b: Budget, history: seq<UsageRecord>, r: UsageRecord, i: nat, o: nat, cost: real)
    requires r.inputTokens == Some(i) || (r.inputTokens == None && i == 0)
    requires r.outputTokens == Some(o) || (r.outputTokens == None && o == 0)
    requires r.cost == Some(cost) || (r.cost == None && cost == 0.0)
    ensures !Concerns(b, r) ==> forall x :: Total(b, x, history + [r]) == Total(b, x, history)
    ensures Concerns(b, r) ==>
              && Total(b, Tokens, history + [r]) == Total(b, Tokens, history) + (i + o) as real
              && Total(b, LlmCalls, history + [r]) == Total(b, LlmCalls, history) + (if r.kind == LlmRequest then 1.0 else 0.0)
              && Total(b, Duration, history + [r]) == Total(b, Duration, history) + r.duration
              && Total(b, ToolCalls, history + [r]) == Total(b, ToolCalls, history) + r.toolCalls as real
              && Total(b, Cpu, history + [r]) == Total(b, Cpu, history) + r.cpu
              && Total(b, Gpu, history + [r]) == Total(b, Gpu, history) + r.gpu
              && Total(b, ProviderCost, history + [r]) == Total(b, ProviderCost, history) + cost
  {
    assert (history + [r])[..|history|] == history;
  }

  // ---------------------------------------------------------------- histories

  lemma UsedNonNegative(r: UsageRecord, x: Resource)
    requires ValidRecord(r)
    ensures Used(r, x) >= 0.0
  {
  }

  lemma {:induction false} TotalGrows(b: Budget, x: Resource, history: seq<UsageRecord>, more: seq<UsageRecord>)
    requires forall r <- more :: ValidRecord(r)
    ensures Total(b, x, history) <= Total(b, x, history + more)
  {
    if more == [] {
      assert history + more == history;
    } else {
      var n := |more| - 1;
      TotalGrows(b, x, history, more[..n]);
      assert (history + more)[..|history + more| - 1] == history + more[..n];
      UsedNonNegative(more[n], x);
    }
  }

  lemma WithinShrinks(b: Budget, history: seq<UsageRecord>, more: seq<UsageRecord>)
    requires (forall r <- more :: ValidRecord(r)) && Within(b, history + more)
    ensures Within(b, history)
  {
    forall x ensures !Exceeds(b, x, history) {
      TotalGrows(b, x, history, more);
      assert !Exceeds(b, x, history + more);
    }
  }

  /** A record that does not fall under a budget leaves its totals as they are. */
  lemma WithinUnmatched(b: Budget, history: seq<UsageRecord>, r: UsageRecord)
    requires !Matches(b, r)
    ensures Within(b, history + [r]) <==> Within(b, history)
  {
    assert (history + [r])[..|history|] == history;
    assert forall x :: Total(b, x, history + [r]) == Total(b, x, history);
    assert forall x :: Exceeds(b, x, history + [r]) == Exceeds(b, x, history);
  }

  /** A history in which the gate allowed every record, given the ones before it. */
  ghost predicate Admitted(policy: seq<Budget>, history: seq<UsageRecord>) {
    forall i | 0 <= i < |history| :: Evaluate(policy, history[i], history[..i]) == Allow
  }

  lemma AdmittedSnoc(policy: seq<Budget>, history: seq<UsageRecord>, r: UsageRecord)
    ensures Admitted(policy, history + [r])
            <==> Admitted(policy, history) && Evaluate(policy, r, history) == Allow
  {
    var all := history + [r];
    assert all[..|history|] == history && all[|history|] == r;
    assert forall i | 0 <= i < |history| :: all[i] == history[i] && all[..i] == history[..i];
    if Admitted(policy, all) {
      assert Evaluate(policy, all[|history|], all[..|history|]) == Allow;
      forall i | 0 <= i < |history| ensures Evaluate(policy, history[i], history[..i]) == Allow {
        assert Evaluate(policy, all[i], all[..i]) == Allow;
      }
    }
  }

  /** The gate admits exactly the histories that keep every total of every budget within its
      ceiling: deciding record by record loses nothing against looking at the whole. */
  lemma {:induction false} AdmittedIffWithin(policy: seq<Budget>, history: seq<UsageRecord>)
    requires ValidPolicy(policy) && forall r <- history :: ValidRecord(r)
    ensures Admitted(policy, history) <==> forall b <- policy :: Within(b, history)
  {
    if history != [] {
      var n := |history| - 1;
      var before, r := history[..n], history[n];
      assert history == before + [r];
      AdmittedIffWithin(policy, before);
      AdmittedSnoc(policy, before, r);
      AllowMeans(policy, r, before);
      forall b | b in policy
        ensures Within(b, history) <==> Within(b, before) && (Matches(b, r) ==> Within(b, history))
      {
        if Matches(b, r) {
          if Within(b, history) {
            WithinShrinks(b, before, [r]);
          }
        } else {
          WithinUnmatched(b, before, r);
        }
      }
    } else {
      forall b | b in policy ensures Within(b, history) {
        assert ValidBudget(b);
      }
    }
  }

  lemma MatchingRest(s: seq<UsageRecord>, t: seq<UsageRecord>) returns (l: seq<UsageRecord>, r: seq<UsageRecord>)
    requires s != [] && multiset(s) == multiset(t)
    ensures t == l + [s[|s| - 1]] + r && multiset(s[..|s| - 1]) == multiset(l + r)
  {
    var last, init := s[|s| - 1], s[..|s| - 1];
    assert s == init + [last] + [] && init + [] == init;
    assert last in multiset(s);
    l, r := SplitAt(t, last);
    WithoutMiddle(l, last, r);
    WithoutMiddle(init, last, []);
  }

  lemma {:induction false} TotalIgnoresOrder(b: Budget, x: Resource, s: seq<UsageRecord>, t: seq<UsageRecord>)
    requires multiset(s) == multiset(t)
    ensures Total(b, x, s) == Total(b, x, t)
    decreases |s|
  {
    if s == [] {
      assert |multiset(t)| == |t|;
    } else {
      var l, r := MatchingRest(s, t);
      TotalIgnoresOrder(b, x, s[..|s| - 1], l + r);
      TotalMiddle(b, x, l, s[|s| - 1], r);
    }
  }

  lemma {:induction false} TotalMiddle(b: Budget, x: Resource, l: seq<UsageRecord>, m: UsageRecord, r: seq<UsageRecord>)
    ensures Total(b, x, l + [m] + r) == Total(b, x, l + r) + Share(b, x, m)
  {
    if r == [] {
      assert l + [m] + r == l + [m] && l + r == l;
      TotalSnoc(b, x, l, m);
    } else {
      var init, last := r[..|r| - 1], r[|r| - 1];
      TotalMiddle(b, x, l, m, init);
      assert l + [m] + r == l + [m] + init + [last] && l + r == l + init + [last];
      TotalSnoc(b, x, l + [m] + init, last);
      TotalSnoc(b, x, l + init, last);
    }
  }

  lemma TotalSnoc(b: Budget, x: Resource, history: seq<UsageRecord>, r: UsageRecord)
    ensures Total(b, x, history + [r]) == Total(b, x, history) + Share(b, x, r)
  {
    assert (history + [r])[..|history|] == history;
  }

  /** The order in which records arrive has no say in whether all of them fit. */
  lemma AdmittedInAnyOrder(policy: seq<Budget>, history: seq<UsageRecord>, permuted: seq<UsageRecord>)
    requires ValidPolicy(policy) && (forall r <- history :: ValidRecord(r)) && multiset(permuted) == multiset(history)
    ensures Admitted(policy, permuted) <==> Admitted(policy, history)
  {
    forall r | r in permuted ensures ValidRecord(r) {
      assert r in multiset(permuted) && r in multiset(history) && r in history;
    }
    AdmittedIffWithin(policy, history);
    AdmittedIffWithin(policy, permuted);
    forall b, x | b in policy ensures Exceeds(b, x, history) == Exceeds(b, x, permuted) {
      TotalIgnoresOrder(b, x, history, permuted);
    }
  }

  /** As the history grows, a stop never turns into an allowance. */
  lemma StopPersists(policy: seq<Budget>, r: UsageRecord, history: seq<UsageRecord>, more: seq<UsageRecord>)
    requires (forall x <- more :: ValidRecord(x)) && Evaluate(policy, r, history).Stop?
    ensures Evaluate(policy, r, history + more).Stop?
  {
    AllowMeans(policy, r, history);
    AllowMeans(policy, r, history + more);
    forall b | b in policy && Matches(b, r) && Within(b, history + more + [r])
      ensures Within(b, history + [r])
    {
      forall x ensures !Exceeds(b, x, history + [r]) {
        TotalMiddle(b, x, history + more, r, []);
        TotalMiddle(b, x, history, r, []);
        TotalGrows(b, x, history, more);
        assert history + more + [r] + [] == history + more + [r] && history + [r] + [] == history + [r];
        assert history + more + [] == history + more && history + [] == history;
        assert !Exceeds(b, x, history + more + [r]);
      }
    }
  }
}
