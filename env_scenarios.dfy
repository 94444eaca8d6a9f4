/** The scenarios of the environment's test suite, replayed on the `Env` class. Each
    method builds a fresh environment, runs the same sequence of `push`, `pop`, `set`
    and `referTo` as the test, and promises the results the test expects. The test's
    identifiers are parameters: the scenarios hold for any pairwise distinct names. */
module EnvScenarios {
  import opened Wrappers
  import opened Types
  import opened Environment

  /** A host that is never consulted by these scenarios. */
  function QuietHost(): Host
  {
    Host("", id => id, segments => "", (id, m) => m, m => ("", m),
         (name, forms) => Err(TranspileError(name)))
  }

  /** The log entry of a reference from scope `r` to `id` defined in scope `s`. */
  function Entry(r: ScopePath, s: ScopePath, id: Id): Ref
  {
    Ref(r, Definer(s, id))
  }

  /** The error `set` reports for a name already used as an outer variable. */
  function Refused(id: Id): Outcome<TranspileError>
  {
    Fail(TranspileError(RecursiveHintMessage(id)))
  }

  /** The latest entry of a log (`at(-1)` in the test). */
  function Last(log: seq<Ref>): Ref
    requires log != []
  {
    log[|log| - 1]
  }

  /** The logging test's state inside scope 0-0, after `v00_0` (here `c`) is set. */
  function LoggingTestScope00(a: Id, b: Id, c: Id): EnvState
  {
    var s1 := SetOf(Init(map[]), a, Var);
    var root := SetOf(ReferState(s1, a), b, Var);
    SetOf(ReferState(ReferState(PushOf(root, false), a), b), c, Var)
  }

  /** The logging test in the root and in scope 0-0: each `referTo` returns the variable
      set in the nearest scope and logs the current and the defining scope paths. */
  lemma LoggingTestRootAndChild(a: Id, b: Id, c: Id)
    requires a != b && a != c && b != c
    ensures
      var s1 := SetOf(Init(map[]), a, Var);
      var root := SetOf(ReferState(s1, a), b, Var);
      var p := PushOf(root, false);
      var q := ReferState(p, a);
      var r := ReferState(q, b);
      && ReferResult(s1, a) == Ok(Resolved(Var, 0))
      && Log(ReferState(s1, a), a) == [Entry([0], [0], a)]
      && ReferResult(p, a) == Ok(Resolved(Var, 1))
      && Log(q, a) != [] && Last(Log(q, a)) == Entry([0, 0], [0], a)
      && ReferResult(q, b) == Ok(Resolved(Var, 1))
      && Log(r, b) == [Entry([0, 0], [0], b)]
    ensures var s := LoggingTestScope00(a, b, c);
      && s.scopes == [map[c := Var], map[a := Var, b := Var]] && s.path == [0, 0] && s.children == [0, 1]
      && Log(s, c) == []
  {
    var s1 := SetOf(Init(map[]), a, Var);
    ReferAppendsOne(s1, a, 0);
    ReferKeepsOtherLogs(s1, a, c);
    var s2 := ReferState(s1, a);
    SetUnreferencedPasses(s2, b, Var);
    var root := SetOf(s2, b, Var);
    var p := PushOf(root, false);
    NearestDefinition(p.scopes, a, 0, 1);
    ReferAppendsOne(p, a, 1);
    ReferKeepsOtherLogs(p, a, b);
    ReferKeepsOtherLogs(p, a, c);
    assert p.path == [0, 0] && p.path[1..] == [0];
    var q := ReferState(p, a);
    NearestDefinition(q.scopes, b, 0, 1);
    ReferAppendsOne(q, b, 1);
    ReferKeepsOtherLogs(q, b, c);
    SetUnreferencedPasses(ReferState(q, b), c, Var);
  }

  /** One grandchild block of the logging test, for the k-th child of scope 0-0 (blocks
      0-0-0 and 0-0-1 are k = 0 and k = 1): the references to the root's `a`, `b` and to
      scope 0-0's `c` are logged with path `[k, 0, 0]`; popping returns to scope 0-0 with
      one more child, ready for the next block. */
  lemma LoggingTestGrandchild(st: EnvState, a: Id, b: Id, c: Id)
    requires a != b && a != c && b != c
    requires Wf(st) && st.path == [0, 0] && st.scopes == [map[c := Var], map[a := Var, b := Var]]
    ensures
      var k := st.children[0];
      var g := PushOf(st, false);
      var g1 := ReferState(g, a);
      var g2 := ReferState(g1, b);
      var g3 := ReferState(g2, c);
      && ReferResult(g, a) == Ok(Resolved(Var, 2))
      && Log(g1, a) != [] && Last(Log(g1, a)) == Entry([k, 0, 0], [0], a)
      && ReferResult(g1, b) == Ok(Resolved(Var, 2))
      && Log(g2, b) != [] && Last(Log(g2, b)) == Entry([k, 0, 0], [0], b)
      && ReferResult(g2, c) == Ok(Resolved(Var, 1))
      && Log(g3, c) == Log(st, c) + [Entry([k, 0, 0], [0, 0], c)]
      && var back := PopOf(g3);
      back.path == st.path && back.scopes == st.scopes && back.children[0] == k + 1
  {
    var g := PushOf(st, false);
    assert g.path == [st.children[0], 0, 0] && g.path[2..] == [0] && g.path[1..] == [0, 0];
    NearestDefinition(g.scopes, a, 0, 2);
    ReferAppendsOne(g, a, 2);
    ReferKeepsOtherLogs(g, a, b);
    ReferKeepsOtherLogs(g, a, c);
    var g1 := ReferState(g, a);
    NearestDefinition(g1.scopes, b, 0, 2);
    ReferAppendsOne(g1, b, 2);
    ReferKeepsOtherLogs(g1, b, c);
    var g2 := ReferState(g1, b);
    NearestDefinition(g2.scopes, c, 0, 1);
    ReferAppendsOne(g2, c, 1);
  }
  /** The end of the logging test: a name set in a nested scope and referred to there is
      logged with the full current path as its defining path. */
  lemma LoggingTestNestedDefinition(st: EnvState, x: Id)
    requires Wf(st) && Log(st, x) == []
    ensures ReferResult(SetOf(st, x, Var), x) == Ok(Resolved(Var, 0))
    ensures Log(ReferState(SetOf(st, x, Var), x), x) == [Entry(st.path, st.path, x)]
  {
    SetUnreferencedPasses(st, x, Var);
    var defined := SetOf(st, x, Var);
    NearestDefinition(defined.scopes, x, 0, 0);
    ReferAppendsOne(defined, x, 0);
  }

  /** Test 1 of `set`: a name referred to from the current scope as an outer variable
      cannot be defined there afterwards. */
  method SetRefusesRecursiveReference(v0: Id, v1: Id)
    returns (o1: Outcome<TranspileError>, o2: Outcome<TranspileError>, o3: Outcome<TranspileError>)
    requires v0 != v1
    ensures o1 == Pass && o2 == Pass && o3 == Refused(v0)
  {
    var env := new Env(map[], false, QuietHost());
    o1 := env.Set(v0, Var);
    ReferAppendsOne(env.State(), v0, 0);
    var w := env.ReferTo(v0);
    SetUnreferencedPasses(env.State(), v1, Var);
    o2 := env.Set(v1, Var);
    env.Push();
    SetAfterOuterReferenceFails(env.State(), v0, Var);
    w := env.ReferTo(v0);
    o3 := env.Set(v0, Var);
    env.Pop();
  }

  /** Test 2 of `set`: the same when the reference was made from a child scope that has
      been popped since. */
  method SetRefusesRecursiveReferenceFromChild(v0: Id, v1: Id)
    returns (o1: Outcome<TranspileError>, o2: Outcome<TranspileError>, o3: Outcome<TranspileError>)
    requires v0 != v1
    ensures o1 == Pass && o2 == Pass && o3 == Refused(v0)
  {
    var env := new Env(map[], false, QuietHost());
    o1 := env.Set(v0, Var);
    ReferAppendsOne(env.State(), v0, 0);
    var w := env.ReferTo(v0);
    SetUnreferencedPasses(env.State(), v1, Var);
    o2 := env.Set(v1, Var);
    env.Push();
    PushShiftsLookup(env.State(), false, v0);
    SetAfterChildOuterReferenceFails(env.State(), false, v0, Var);
    ghost var parent := env.State();
    env.Push();
    w := env.ReferTo(v0);
    env.Pop();
    assert env.State() == PopOf(ReferState(PushOf(parent, false), v0));
    o3 := env.Set(v0, Var);
    env.Pop();
  }

  /** Test 3 of `set`, on the specification: after an outer reference to `v1` from the
      current scope, `v1` cannot be defined there, while `v0`, referred to only from the
      root, can; the same one scope deeper. */
  lemma SetRefusesBackReference(v0: Id, v1: Id)
    requires v0 != v1
    ensures
      var root := SetOf(ReferState(SetOf(Init(map[]), v0, Var), v0), v1, Var);
      var a := ReferState(PushOf(root, false), v1);
      var a1 := SetOf(a, v0, Var);
      var b := ReferState(PushOf(SetOf(a1, v1, Var), false), v1);
      var b1 := SetOf(b, v0, Var);
      && SetOutcome(a, v0, Var) == Pass && SetOutcome(a1, v1, Var) == Refused(v1)
      && SetOutcome(b, v0, Var) == Pass && SetOutcome(b1, v1, Var) == Refused(v1)
  {
    var s1 := SetOf(Init(map[]), v0, Var);
    ReferAppendsOne(s1, v0, 0);
    var s2 := ReferState(s1, v0);
    SetUnreferencedPasses(s2, v1, Var);
    var root := SetOf(s2, v1, Var);
    var p := PushOf(root, false);
    PushShiftsLookup(root, false, v1);
    assert Log(p, v0) == Log(s2, v0);
    TwoBackReferenceRounds(p, v0, v1);
  }

  /** One round of test 3: from a scope where `v1` is defined further out and `v0` was
      referred to only from outside it, referring to `v1` here lets `v0` be defined but
      not `v1`. */
  lemma BackReferenceRound(p: EnvState, v0: Id, v1: Id)
    requires Wf(p) && v0 != v1
    requires LookupFrom(p.scopes, v1, 0).Some? && LookupFrom(p.scopes, v1, 0).value >= 1
    requires forall k :: 0 <= k < |Log(p, v0)| ==> |Log(p, v0)[k].r| < |p.path|
    ensures var a := ReferState(p, v1);
      SetOutcome(a, v0, Var) == Pass && SetOutcome(SetOf(a, v0, Var), v1, Var) == Refused(v1)
  {
    SetAfterOuterReferenceFails(p, v1, Var);
    ReferKeepsOtherLogs(p, v1, v0);
    var a := ReferState(p, v1);
    SetPassesWithoutOuterReferences(a, v0, Var);
  }

  /** Both rounds of test 3, the second in a child of the scope of the first. */
  lemma TwoBackReferenceRounds(p: EnvState, v0: Id, v1: Id)
    requires Wf(p) && v0 != v1
    requires LookupFrom(p.scopes, v1, 0).Some? && LookupFrom(p.scopes, v1, 0).value >= 1
    requires forall k :: 0 <= k < |Log(p, v0)| ==> |Log(p, v0)[k].r| < |p.path|
    ensures
      var a := ReferState(p, v1);
      var a1 := SetOf(a, v0, Var);
      var b := ReferState(PushOf(SetOf(a1, v1, Var), false), v1);
      && SetOutcome(a, v0, Var) == Pass && SetOutcome(a1, v1, Var) == Refused(v1)
      && SetOutcome(b, v0, Var) == Pass && SetOutcome(SetOf(b, v0, Var), v1, Var) == Refused(v1)
  {
    BackReferenceRound(p, v0, v1);
    ReferKeepsOtherLogs(p, v1, v0);
    var a := ReferState(p, v1);
    var a3 := SetOf(SetOf(a, v0, Var), v1, Var);
    var i := LookupFrom(p.scopes, v1, 0).value;
    assert a3.scopes[i] == p.scopes[i];
    PushShiftsLookup(a3, false, v1);
    var q := PushOf(a3, false);
    assert Log(q, v0) == Log(p, v0) && |q.path| == |p.path| + 1;
    BackReferenceRound(q, v0, v1);
  }

  /** Test 4 of `set`: the same with every reference to `v1` made from a child scope that
      has been popped since. */
  lemma SetRefusesBackReferenceFromChild(v0: Id, v1: Id)
    requires v0 != v1
    ensures
      var root := SetOf(ReferState(SetOf(Init(map[]), v0, Var), v0), v1, Var);
      var a := PushOf(root, false);
      var a1 := PopOf(ReferState(PushOf(a, false), v1));
      var a2 := SetOf(a1, v0, Var);
      var b := PushOf(SetOf(a2, v1, Var), false);
      var b1 := PopOf(ReferState(PushOf(b, false), v1));
      var b2 := SetOf(b1, v0, Var);
      && SetOutcome(a1, v0, Var) == Pass && SetOutcome(a2, v1, Var) == Refused(v1)
      && SetOutcome(b1, v0, Var) == Pass && SetOutcome(b2, v1, Var) == Refused(v1)
  {
    var s1 := SetOf(Init(map[]), v0, Var);
    ReferAppendsOne(s1, v0, 0);
    var s2 := ReferState(s1, v0);
    SetUnreferencedPasses(s2, v1, Var);
    var root := SetOf(s2, v1, Var);
    var a := PushOf(root, false);
    PushShiftsLookup(root, false, v1);
    assert Log(a, v0) == Log(s2, v0);
    TwoChildRounds(a, v0, v1);
  }

  /** Both rounds of test 4 from a scope where `v1` is defined further out and `v0` was
      referred to only from outside it. */
  lemma TwoChildRounds(a: EnvState, v0: Id, v1: Id)
    requires Wf(a) && v0 != v1
    requires LookupFrom(a.scopes, v1, 0).Some? && LookupFrom(a.scopes, v1, 0).value >= 1
    requires forall k :: 0 <= k < |Log(a, v0)| ==> |Log(a, v0)[k].r| < |a.path|
    ensures
      var a1 := PopOf(ReferState(PushOf(a, false), v1));
      var b := PushOf(SetOf(SetOf(a1, v0, Var), v1, Var), false);
      var b1 := PopOf(ReferState(PushOf(b, false), v1));
      && SetOutcome(a1, v0, Var) == Pass && SetOutcome(SetOf(a1, v0, Var), v1, Var) == Refused(v1)
      && SetOutcome(b1, v0, Var) == Pass && SetOutcome(SetOf(b1, v0, Var), v1, Var) == Refused(v1)
  {
    ChildBackReferenceRound(a, v0, v1);
    var child := ReferState(PushOf(a, false), v1);
    ReferKeepsOtherLogs(PushOf(a, false), v1, v0);
    var a1 := PopOf(child);
    assert a1.scopes == a.scopes && a1.path == a.path && Log(a1, v0) == Log(a, v0);
    SecondChildRound(a1, v0, v1);
  }

  /** The second round of test 4: after `v0` is defined and `v1` is refused where the
      first round left off, a new child scope is again in the position of the first. */
  lemma SecondChildRound(a1: EnvState, v0: Id, v1: Id)
    requires Wf(a1) && v0 != v1
    requires LookupFrom(a1.scopes, v1, 0).Some? && LookupFrom(a1.scopes, v1, 0).value >= 1
    requires forall k :: 0 <= k < |Log(a1, v0)| ==> |Log(a1, v0)[k].r| < |a1.path|
    ensures var b := PushOf(SetOf(SetOf(a1, v0, Var), v1, Var), false);
      var b1 := PopOf(ReferState(PushOf(b, false), v1));
      SetOutcome(b1, v0, Var) == Pass && SetOutcome(SetOf(b1, v0, Var), v1, Var) == Refused(v1)
  {
    var a3 := SetOf(SetOf(a1, v0, Var), v1, Var);
    var i := LookupFrom(a1.scopes, v1, 0).value;
    assert a3.scopes[i] == a1.scopes[i];
    PushShiftsLookup(a3, false, v1);
    var b := PushOf(a3, false);
    assert Log(b, v0) == Log(a1, v0) && |b.path| == |a1.path| + 1;
    ChildBackReferenceRound(b, v0, v1);
  }

  /** One round of test 4: from a scope where `v1` is defined further out and `v0` was
      referred to only from outside it, a child that refers to `v1` and is popped lets
      `v0` be defined but not `v1`. */
  lemma ChildBackReferenceRound(st: EnvState, v0: Id, v1: Id)
    requires Wf(st) && v0 != v1
    requires LookupFrom(st.scopes, v1, 0).Some? && LookupFrom(st.scopes, v1, 0).value >= 1
    requires forall k :: 0 <= k < |Log(st, v0)| ==> |Log(st, v0)[k].r| < |st.path|
    ensures var a1 := PopOf(ReferState(PushOf(st, false), v1));
      SetOutcome(a1, v0, Var) == Pass && SetOutcome(SetOf(a1, v0, Var), v1, Var) == Refused(v1)
  {
    SetAfterChildOuterReferenceFails(st, false, v1, Var);
    ReferKeepsOtherLogs(PushOf(st, false), v1, v0);
    var child := ReferState(PushOf(st, false), v1);
    assert child.path == PushOf(st, false).path;
    var a1 := PopOf(child);
    assert a1.path == st.path && Log(a1, v0) == Log(st, v0);
    SetPassesWithoutOuterReferences(a1, v0, Var);
  }

  /** The passing test of `set`: redefining `v0` in a child scope, referring to it there
      (it resolves locally) and referring to the child's `v1` from a grandchild leave
      every later `set` successful. */
  lemma SetAcceptsInnerReferences(v0: Id, v1: Id, v2: Id)
    requires v0 != v1 && v0 != v2 && v1 != v2
    ensures
      var root := SetOf(ReferState(SetOf(Init(map[]), v0, Var), v0), v1, Var);
      var a := PushOf(root, false);
      var a1 := ReferState(SetOf(a, v0, Var), v0);
      var a2 := PopOf(ReferState(PushOf(SetOf(a1, v1, Var), false), v1));
      && SetOutcome(a, v0, Var) == Pass && SetOutcome(a1, v1, Var) == Pass
      && SetOutcome(a2, v2, Var) == Pass
  {
    var s1 := SetOf(Init(map[]), v0, Var);
    ReferAppendsOne(s1, v0, 0);
    var s2 := ReferState(s1, v0);
    SetUnreferencedPasses(s2, v1, Var);
    var root := SetOf(s2, v1, Var);
    var a := PushOf(root, false);
    SetPassesWithoutOuterReferences(a, v0, Var);
    var a0 := SetOf(a, v0, Var);
    ReferAppendsOne(a0, v0, 0);
    ReferKeepsOtherLogs(a0, v0, v1);
    ReferKeepsOtherLogs(a0, v0, v2);
    var a1 := ReferState(a0, v0);
    SetUnreferencedPasses(a1, v1, Var);
    var c := PushOf(SetOf(a1, v1, Var), false);
    ReferKeepsOtherLogs(c, v1, v2);
    var a2 := PopOf(ReferState(c, v1));
    SetUnreferencedPasses(a2, v2, Var);
  }

  /** The scope paths of the logging test: the root is `[0]` and the k-th child of a scope
      with path `p` is `[k] + p`, whatever was pushed and popped in between. */
  lemma ScopePathsOfTheLoggingTest(builtins: map<Id, Writer>)
    ensures
      var s0 := Init(builtins);
      var s00 := PushOf(s0, false);
      var s000 := PushOf(s00, false);
      var s001 := PushOf(PopOf(s000), false);
      var s01 := PushOf(PopOf(PopOf(s001)), false);
      var s010 := PushOf(s01, false);
      var s011 := PushOf(PopOf(s010), false);
      var s02 := PushOf(PopOf(PopOf(s011)), false);
      var s020 := PushOf(s02, false);
      var s021 := PushOf(PopOf(s020), false);
      var s022 := PushOf(PopOf(s021), false);
      && s0.path == [0] && s00.path == [0, 0] && s000.path == [0, 0, 0] && s001.path == [1, 0, 0]
      && s01.path == [1, 0] && s010.path == [0, 1, 0] && s011.path == [1, 1, 0]
      && s02.path == [2, 0] && s020.path == [0, 2, 0] && s021.path == [1, 2, 0] && s022.path == [2, 2, 0]
  {
  }
}
