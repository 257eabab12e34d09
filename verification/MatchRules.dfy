/** The reference counts of match rules (Bus::AddMatch, Bus::RemoveMatch) over any sequence of calls, and the
    calls they make to the daemon. */
module MatchRules {
  import opened BusLedger

  datatype DaemonCall = Add(rule: Rule) | Remove(rule: Rule)

  datatype MatchOp = AddOp(rule: Rule) | RemoveOp(rule: Rule)

  /** The counts and the calls made to the daemon so far. */
  datatype Rules = Rules(counts: map<Rule, int>, calls: seq<DaemonCall>)

  function AddStep(s: Rules, rule: Rule): Rules {
    if rule in s.counts then s.(counts := s.counts[rule := s.counts[rule] + 1])
    else Rules(s.counts[rule := 1], s.calls + [Add(rule)])
  }

  function RemoveStep(s: Rules, rule: Rule): Rules {
    if rule !in s.counts then s
    else if s.counts[rule] - 1 == 0 then Rules(s.counts - {rule}, s.calls + [Remove(rule)])
    else s.(counts := s.counts[rule := s.counts[rule] - 1])
  }

  function OpStep(s: Rules, op: MatchOp): Rules {
    if op.AddOp? then AddStep(s, op.rule) else RemoveStep(s, op.rule)
  }

  function RunOps(ops: seq<MatchOp>): Rules {
    if ops == [] then Rules(map[], []) else OpStep(RunOps(ops[..|ops| - 1]), ops[|ops| - 1])
  }

  // ----- the independent count -----

  /** Additions of a rule minus the removals that found it. */
  function Balance(ops: seq<MatchOp>, rule: Rule): int {
    if ops == [] then 0
    else
      var b := Balance(ops[..|ops| - 1], rule);
      var op := ops[|ops| - 1];
      if op == AddOp(rule) then b + 1 else if op == RemoveOp(rule) && b > 0 then b - 1 else b
  }

  /** The daemon calls about one rule. */
  function CallsAbout(calls: seq<DaemonCall>, rule: Rule): seq<DaemonCall> {
    if calls == [] then []
    else
      var c := calls[|calls| - 1];
      CallsAbout(calls[..|calls| - 1], rule) + (if c.rule == rule then [c] else [])
  }

  /** add, remove, add, ... */
  ghost predicate Alternates(calls: seq<DaemonCall>, rule: Rule) {
    forall i | 0 <= i < |calls| :: calls[i] == if i % 2 == 0 then Add(rule) else Remove(rule)
  }

  ghost predicate ExactFor(s: Rules, rule: Rule) {
    && Alternates(CallsAbout(s.calls, rule), rule)
    && (rule in s.counts <==> |CallsAbout(s.calls, rule)| % 2 == 1)
  }

  ghost predicate Exact(s: Rules) {
    (forall r | r in s.counts :: s.counts[r] >= 1) && (forall r :: ExactFor(s, r))
  }

  lemma CallsAppend(calls: seq<DaemonCall>, c: DaemonCall, rule: Rule)
    ensures CallsAbout(calls + [c], rule) == CallsAbout(calls, rule) + (if c.rule == rule then [c] else [])
  {
    assert (calls + [c])[..|calls|] == calls;
  }

  lemma OpKeepsExactFor(s: Rules, op: MatchOp, r: Rule)
    requires ExactFor(s, r)
    ensures ExactFor(OpStep(s, op), r)
  {
    CallsAppend(s.calls, if op.AddOp? then Add(op.rule) else Remove(op.rule), r);
  }

  lemma OpKeepsExact(s: Rules, op: MatchOp)
    requires Exact(s)
    ensures Exact(OpStep(s, op))
  {
    forall r ensures ExactFor(OpStep(s, op), r) { OpKeepsExactFor(s, op, r); }
  }

  lemma {:induction false} RunExact(ops: seq<MatchOp>)
    ensures Exact(RunOps(ops))
  {
    if ops != [] {
      RunExact(ops[..|ops| - 1]);
      OpKeepsExact(RunOps(ops[..|ops| - 1]), ops[|ops| - 1]);
    } else {
      forall r ensures ExactFor(RunOps(ops), r) { }
    }
  }

  lemma {:induction false} CountIsBalance(ops: seq<MatchOp>, rule: Rule)
    ensures Count(RunOps(ops).counts, rule) == Balance(ops, rule)
  {
    if ops != [] {
      var before, op := ops[..|ops| - 1], ops[|ops| - 1];
      CountIsBalance(before, rule);
      RunExact(before);
      CountStep(RunOps(before), op, rule);
    }
  }

  lemma CountStep(s: Rules, op: MatchOp, rule: Rule)
    requires Exact(s)
    ensures var b := Count(s.counts, rule);
            Count(OpStep(s, op).counts, rule)
            == if op == AddOp(rule) then b + 1 else if op == RemoveOp(rule) && b > 0 then b - 1 else b
  {}

  /** For every sequence of additions and removals: each stored count is the additions minus the successful
      removals and is at least one, and the daemon hears add, remove, add, ... about a rule, the last being an
      addition exactly while its count is positive. */
  lemma CountsAndDaemonAgree(ops: seq<MatchOp>, rule: Rule)
    ensures Exact(RunOps(ops))
    ensures Count(RunOps(ops).counts, rule) == Balance(ops, rule)
    ensures |CallsAbout(RunOps(ops).calls, rule)| % 2 == (if Balance(ops, rule) > 0 then 1 else 0)
  {
    RunExact(ops);
    CountIsBalance(ops, rule);
    assert ExactFor(RunOps(ops), rule);
  }
}
