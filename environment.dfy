/** The compile-time environment: a stack of scopes, each scope's path in the tree of
    scopes opened so far, and a per-identifier log of every successful reference. The
    pure specification (`EnvState` and the functions on it) comes first; the class `Env`
    holds the same state in fields and updates it in place as the compiler does. */
module Environment {
  import opened Wrappers
  import opened Types
  import opened TranspileFragments
  import Strings

  /** A scope's address: sibling indices from the scope itself out to the root, so the
      root is `[0]` and the k-th child (0-based) of a scope with path `p` is `[k] + p`. */
  type ScopePath = seq<nat>

  /** Where a referred identifier was defined (`e` of a log entry). */
  datatype Definer = Definer(s: ScopePath, i: Id)

  /** One entry of the reference log: the referring scope `r` and the definition `e`. */
  datatype Ref = Ref(r: ScopePath, e: Definer)

  /** A successful resolution: the writer and the index (innermost first) of the scope that
      defines it, from which the source's `WriterWithIsAtTopLevel` is derived. */
  datatype Resolved = Resolved(writer: Writer, scope: nat)

  /** The services of the host that are not part of this model: the REPL's pseudo-global
      references and assignments (`cu-env`), temporary variables for destructuring, and the
      direct writers whose source is not modelled (`External`). */
  datatype Host = Host(
    cuEnv: JsSrc,
    pseudoTopLevelReference: Id -> JsSrc,
    pseudoTopLevelReferenceToPropertyAccess: seq<Id> -> JsSrc,
    pseudoTopLevelAssignment: (Id, JsModule) -> JsModule,
    tmpVarOf: JsModule -> (Id, JsModule),
    external: (Id, seq<Form>) -> Result<JsModule, TranspileError>)

  /** The environment's state. Index 0 of `scopes`, `inherited`, `children` and `path` is
      the innermost scope; `children[k]` counts the scopes ever pushed directly inside
      scope `k`; `inherited[k]` says whether scope `k` was pushed by `pushInherited`. */
  datatype EnvState = EnvState(
    scopes: seq<map<Id, Writer>>,
    inherited: seq<bool>,
    children: seq<nat>,
    path: ScopePath,
    refs: map<Id, seq<Ref>>)

  /** `a` is the path of `b`'s scope or of one of its enclosing scopes. */
  predicate IsSuffix(a: ScopePath, b: ScopePath)
  {
    |a| <= |b| && b[|b| - |a|..] == a
  }

  /** The invariant of an environment: at least one scope (`Env` is a non-empty tuple),
      parallel stacks and the root at `[0]`. */
  predicate Wf(st: EnvState)
  {
    && |st.scopes| >= 1
    && |st.inherited| == |st.scopes|
    && |st.children| == |st.scopes|
    && |st.path| == |st.scopes|
    && st.path[|st.path| - 1] == 0
  }

  /** The numbering of scopes: each open scope is the latest child of its parent. */
  predicate Numbering(st: EnvState)
    requires Wf(st)
  {
    forall k :: 0 <= k < |st.path| - 1 ==> st.path[k] + 1 == st.children[k + 1]
  }

  /** The invariant of the log: every entry is filed under its own identifier and names a
      defining scope that encloses the referring one. */
  predicate LogWf(st: EnvState)
  {
    forall id, k :: id in st.refs && 0 <= k < |st.refs[id]| ==>
      st.refs[id][k].e.i == id && IsSuffix(st.refs[id][k].e.s, st.refs[id][k].r)
  }

  /** `init(builtins)`: one root scope holding the builtins, an empty log. */
  function Init(builtins: map<Id, Writer>): (st: EnvState)
    ensures Wf(st) && st.path == [0] && st.scopes == [builtins] && st.refs == map[]
  {
    EnvState([builtins], [false], [0], [0], map[])
  }

  /** `push`/`pushInherited`: a new empty innermost scope, numbered by its parent's child
      count, which grows by one. */
  function PushOf(st: EnvState, inherit: bool): (r: EnvState)
    requires Wf(st)
    ensures Wf(r)
    ensures r.path == [st.children[0]] + st.path && r.scopes == [map[]] + st.scopes
  {
    EnvState([map[]] + st.scopes, [inherit] + st.inherited,
             [0] + st.children[0 := st.children[0] + 1], [st.children[0]] + st.path, st.refs)
  }

  /** `pop`: the innermost scope is dropped; the log and the parent's child count stay. */
  function PopOf(st: EnvState): (r: EnvState)
    requires Wf(st) && |st.scopes| > 1
    ensures Wf(r)
    ensures r.scopes == st.scopes[1..] && r.path == st.path[1..] && r.refs == st.refs
  {
    EnvState(st.scopes[1..], st.inherited[1..], st.children[1..], st.path[1..], st.refs)
  }

  /** The nearest scope at index `i` or further out that binds `id`. */
  function LookupFrom(scopes: seq<map<Id, Writer>>, id: Id, i: nat): (r: Option<nat>)
    ensures r.Some? ==> i <= r.value < |scopes| && id in scopes[r.value]
    ensures r.Some? ==> forall j :: i <= j < r.value ==> id !in scopes[j]
    ensures r.None? ==> forall j :: i <= j < |scopes| ==> id !in scopes[j]
    decreases |scopes| - i
  {
    if i >= |scopes| then None
    else if id in scopes[i] then Some(i)
    else LookupFrom(scopes, id, i + 1)
  }

  /** The converse of `LookupFrom`'s contract: a binding in scope `i` with none nearer is
      the one found. */
  lemma {:induction false} NearestDefinition(scopes: seq<map<Id, Writer>>, id: Id, from: nat, i: nat)
    requires from <= i < |scopes| && id in scopes[i]
    requires forall j :: from <= j < i ==> id !in scopes[j]
    ensures LookupFrom(scopes, id, from) == Some(i)
    decreases i - from
  {
    if from < i {
      NearestDefinition(scopes, id, from + 1, i);
    }
  }

  /** `findWithIsAtTopLevel`: the nearest definition of `id`, without logging. */
  function FindResolvedOf(st: EnvState, id: Id): (r: Option<Resolved>)
  {
    match LookupFrom(st.scopes, id, 0)
    case Some(i) => Some(Resolved(st.scopes[i][id], i))
    case None => None
  }

  /** `find`: the writer of the nearest definition of `id`. */
  function FindOf(st: EnvState, id: Id): (r: Option<Writer>)
  {
    match FindResolvedOf(st, id)
    case Some(res) => Some(res.writer)
    case None => None
  }

  /** `isDefinedInThisScope`: bound in the innermost scope, by a definition other than a
      `recursive` pre-registration. */
  predicate DefinedHere(st: EnvState, id: Id)
    requires Wf(st)
  {
    id in st.scopes[0] && st.scopes[0][id] != RecursiveConst
  }

  /** The log of `id`, empty if it was never referred to. */
  function Log(st: EnvState, id: Id): seq<Ref>
  {
    if id in st.refs then st.refs[id] else []
  }

  function UndefinedMessage(id: Id): string
  {
    "No variable `" + id + "` is defined!"
  }

  function RecursiveHintMessage(id: Id): string
  {
    "No variable `" + id + "` is defined! NOTE: If you want to define `" + id
      + "` recursively, wrap the declaration(s) with `recursive`."
  }

  /** `referTo(id)`: the nearest definition, or the undefined-variable error. */
  function ReferResult(st: EnvState, id: Id): (r: Result<Resolved, TranspileError>)
  {
    match FindResolvedOf(st, id)
    case Some(res) => Ok(res)
    case None => Err(TranspileError(UndefinedMessage(id)))
  }

  /** The state after `referTo(id)`: a successful reference appends one log entry naming
      the current scope and the defining scope; a failed one changes nothing. */
  function ReferState(st: EnvState, id: Id): (r: EnvState)
    requires Wf(st)
    ensures Wf(r)
    ensures r.scopes == st.scopes && r.path == st.path
    ensures r.inherited == st.inherited && r.children == st.children
  {
    match LookupFrom(st.scopes, id, 0)
    case Some(i) =>
      var entry := Ref(st.path, Definer(st.path[i..], id));
      st.(refs := st.refs[id := Log(st, id) + [entry]])
    case None => st
  }

  /** A logged reference that a definition of its identifier in the current scope would
      contradict: it was made from the current scope or a scope inside it, and it resolved
      to a definition in a scope enclosing the current one. */
  predicate IsOuterRef(path: ScopePath, ref: Ref)
  {
    IsSuffix(path, ref.r) && IsSuffix(ref.e.s, path) && |ref.e.s| < |path|
  }

  /** Some reference of `log` is an outer reference from the scope at `path`. */
  predicate AnyOuterRef(path: ScopePath, log: seq<Ref>)
  {
    log != [] && (IsOuterRef(path, log[0]) || AnyOuterRef(path, log[1..]))
  }

  /** Some logged reference to `id` is an outer reference from the current scope. */
  predicate ReferredAsOuter(st: EnvState, id: Id)
  {
    AnyOuterRef(st.path, Log(st, id))
  }

  /** The scan finds an outer reference exactly when the log holds one. */
  lemma {:induction false} AnyOuterRefIff(path: ScopePath, log: seq<Ref>)
    ensures AnyOuterRef(path, log) <==> exists k :: 0 <= k < |log| && IsOuterRef(path, log[k])
  {
    if log != [] {
      AnyOuterRefIff(path, log[1..]);
      if AnyOuterRef(path, log[1..]) {
        var k :| 0 <= k < |log[1..]| && IsOuterRef(path, log[1..][k]);
        assert IsOuterRef(path, log[k + 1]);
      }
      if exists k :: 0 <= k < |log| && IsOuterRef(path, log[k]) {
        var k :| 0 <= k < |log| && IsOuterRef(path, log[k]);
        if k > 0 {
          assert IsOuterRef(path, log[1..][k - 1]);
        }
      }
    }
  }

  /** The outcome of `set(id, w)`: refused, whatever the writer, when `id` was already
      used as an outer binding from here or from inside. */
  function SetOutcome(st: EnvState, id: Id, w: Writer): (o: Outcome<TranspileError>)
  {
    if ReferredAsOuter(st, id)
    then Fail(TranspileError(RecursiveHintMessage(id)))
    else Pass
  }

  /** The rule of `set`: it is refused, with the "define recursively" hint, exactly when
      the log of `id` holds an outer reference from the current scope, and the writer
      being set makes no difference. */
  lemma SetRule(st: EnvState, id: Id, w: Writer, w': Writer)
    ensures SetOutcome(st, id, w).Fail?
      <==> exists k :: 0 <= k < |Log(st, id)| && IsOuterRef(st.path, Log(st, id)[k])
    ensures SetOutcome(st, id, w).Fail? ==> SetOutcome(st, id, w).error == TranspileError(RecursiveHintMessage(id))
    ensures SetOutcome(st, id, w) == SetOutcome(st, id, w')
  {
    AnyOuterRefIff(st.path, Log(st, id));
  }

  /** The rule of `referTo`: it succeeds exactly when some scope defines `id`, with the
      writer of the nearest such scope and that scope's index, and otherwise fails with
      the undefined-variable message. */
  lemma ReferRule(st: EnvState, id: Id)
    ensures var r := ReferResult(st, id);
      && (r.Ok? <==> exists j :: 0 <= j < |st.scopes| && id in st.scopes[j])
      && (r.Ok? ==> r.value.scope < |st.scopes| && id in st.scopes[r.value.scope]
                    && r.value.writer == st.scopes[r.value.scope][id]
                    && forall j :: 0 <= j < r.value.scope ==> id !in st.scopes[j])
      && (r.Err? ==> r.error == TranspileError(UndefinedMessage(id)))
  {
  }

  /** The state after `set(id, w)`: on success `id` is bound to `w` in the innermost scope. */
  function SetOf(st: EnvState, id: Id, w: Writer): (r: EnvState)
    requires Wf(st)
    ensures Wf(r)
    ensures |r.scopes| == |st.scopes| && r.scopes[1..] == st.scopes[1..]
    ensures r.path == st.path && r.refs == st.refs
    ensures r.inherited == st.inherited && r.children == st.children
  {
    if SetOutcome(st, id, w).Pass? then st.(scopes := st.scopes[0 := st.scopes[0][id := w]]) else st
  }

  /** Resolving the members of a property access: each segment after the first names a
      member of a namespace; the value of a writer of another kind is not looked into. */
  function WalkMembers(w: Writer, segments: seq<Id>, shown: Id): (r: Result<Writer, TranspileError>)
    decreases |segments|
  {
    if segments == [] then Ok(w)
    else
      match w
      case Namespace(members) =>
        if segments[0] in members then WalkMembers(members[segments[0]], segments[1..], shown)
        else Err(TranspileError(UndefinedMessage(shown)))
      case _ => Ok(w)
  }

  /** `referTo` on a property access: the first segment is referred to (and logged), then
      its members are walked. */
  function ReferAccessResult(st: EnvState, segments: Segments): (r: Result<Resolved, TranspileError>)
  {
    match ReferResult(st, segments[0])
    case Ok(res) =>
      (match WalkMembers(res.writer, segments[1..], Strings.Join(segments, "."))
       case Ok(w) => Ok(Resolved(w, res.scope))
       case Err(e) => Err(e))
    case Err(e) => Err(e)
  }

  /** Scope `i` is at the REPL's top level: the environment serves a REPL and every scope
      from `i` out to (not including) the root was pushed as inherited. */
  predicate AtReplTopLevel(st: EnvState, replMode: bool, i: nat)
    requires Wf(st)
  {
    replMode && forall j :: i <= j < |st.scopes| - 1 ==> st.inherited[j]
  }

  /** Every operation keeps the log's invariant. */
  lemma ReferKeepsLogWf(st: EnvState, id: Id)
    requires Wf(st) && LogWf(st)
    ensures LogWf(ReferState(st, id))
  {
    if LookupFrom(st.scopes, id, 0).Some? {
      var i := LookupFrom(st.scopes, id, 0).value;
      var after := ReferState(st, id);
      var log := Log(st, id);
      forall x, k | x in after.refs && 0 <= k < |after.refs[x]|
        ensures after.refs[x][k].e.i == x && IsSuffix(after.refs[x][k].e.s, after.refs[x][k].r)
      {
        if x == id && k == |log| {
          assert st.path[|st.path| - |st.path[i..]|..] == st.path[i..];
        } else if x == id {
          assert after.refs[x][k] == log[k];
        } else {
          assert after.refs[x] == st.refs[x];
        }
      }
    }
  }

  /** A fresh environment satisfies both invariants. */
  lemma InitInvariants(builtins: map<Id, Writer>)
    ensures Numbering(Init(builtins)) && LogWf(Init(builtins))
  {
  }

  /** Every operation keeps the numbering of scopes. */
  lemma OperationsKeepNumbering(st: EnvState, id: Id, w: Writer, inherit: bool)
    requires Wf(st) && Numbering(st)
    ensures Numbering(ReferState(st, id)) && Numbering(SetOf(st, id, w))
    ensures Numbering(PushOf(st, inherit))
    ensures |st.scopes| > 1 ==> Numbering(PopOf(st))
  {
    var p := PushOf(st, inherit);
    forall k | 0 <= k < |p.path| - 1
      ensures p.path[k] + 1 == p.children[k + 1]
    {
      if k > 0 {
        assert p.path[k] == st.path[k - 1] && p.children[k + 1] == st.children[k];
      }
    }
  }

  lemma OthersKeepLogWf(st: EnvState, id: Id, w: Writer, inherit: bool)
    requires Wf(st) && LogWf(st)
    ensures LogWf(SetOf(st, id, w)) && LogWf(PushOf(st, inherit))
    ensures |st.scopes| > 1 ==> LogWf(PopOf(st))
  {
    assert SetOf(st, id, w).refs == st.refs;
  }

  /** The state `b` is reachable from `a` by the environment's own operations run by a
      writer: `a`'s innermost scope is still on the stack (`d` scopes deep, `d` being the
      scopes left pushed), it has kept its bindings' names, the scopes outside it are
      untouched and the log only grew. */
  predicate Progress(a: EnvState, b: EnvState)
  {
    && Wf(a) && Wf(b)
    && |b.scopes| >= |a.scopes|
    && var d := |b.scopes| - |a.scopes|;
    && b.path[d..] == a.path
    && b.scopes[d + 1..] == a.scopes[1..]
    && a.scopes[0].Keys <= b.scopes[d].Keys
    && b.inherited[d..] == a.inherited
    && b.children[d + 1..] == a.children[1..]
    && (forall id :: id in a.refs ==> id in b.refs && a.refs[id] <= b.refs[id])
  }

  lemma ProgressRefl(a: EnvState)
    requires Wf(a)
    ensures Progress(a, a)
  {
  }

  /** Progress composes: the relation is transitive. */
  lemma ProgressTrans(a: EnvState, b: EnvState, c: EnvState)
    requires Progress(a, b) && Progress(b, c)
    ensures Progress(a, c)
  {
    var d1 := |b.scopes| - |a.scopes|;
    var d2 := |c.scopes| - |b.scopes|;
    var d := d1 + d2;
    assert c.path[d..] == c.path[d2..][d1..];
    assert c.scopes[d + 1..] == c.scopes[d2 + 1..][d1..];
    assert b.scopes[d1 + 1..] == b.scopes[1..][d1..];
    assert c.inherited[d..] == c.inherited[d2..][d1..];
    assert c.children[d + 1..] == c.children[d2 + 1..][d1..];
    assert b.children[d1 + 1..] == b.children[1..][d1..];
    if d1 > 0 {
      assert c.scopes[d] == c.scopes[d2 + 1..][d1 - 1] == b.scopes[1..][d1 - 1] == b.scopes[d1];
    }
    forall id | id in a.refs
      ensures id in c.refs && a.refs[id] <= c.refs[id]
    {
    }
  }

  lemma PushProgress(a: EnvState, inherit: bool)
    requires Wf(a)
    ensures Progress(a, PushOf(a, inherit))
  {
    var b := PushOf(a, inherit);
    assert b.scopes[2..] == a.scopes[1..];
    assert b.children[2..] == a.children[1..];
  }

  /** Popping a scope that a writer pushed keeps the progress made since `a`. */
  lemma PopProgress(a: EnvState, c: EnvState)
    requires Progress(a, c) && |c.scopes| > |a.scopes|
    ensures Progress(a, PopOf(c))
  {
    var d := |c.scopes| - |a.scopes|;
    var p := PopOf(c);
    assert p.path[d - 1..] == c.path[d..];
    assert p.scopes[d..] == c.scopes[d + 1..];
    assert p.scopes[d - 1] == c.scopes[d];
    assert p.inherited[d - 1..] == c.inherited[d..];
    assert p.children[d..] == c.children[d + 1..];
  }

  lemma SetProgress(a: EnvState, id: Id, w: Writer)
    requires Wf(a)
    ensures Progress(a, SetOf(a, id, w))
  {
    var b := SetOf(a, id, w);
    assert b.path == a.path && b.inherited == a.inherited && b.children == a.children;
    assert b.scopes[1..] == a.scopes[1..];
  }

  lemma ReferProgress(a: EnvState, id: Id)
    requires Wf(a)
    ensures Progress(a, ReferState(a, id))
  {
  }

  /** A successful `referTo` resolves to the nearest binding and appends exactly one entry
      to the end of that name's log: the current scope's path and the defining scope's
      path, which is the full current path when the name is bound in the current scope. No
      other log and no scope changes. */
  lemma ReferAppendsOne(st: EnvState, id: Id, i: nat)
    requires Wf(st) && LookupFrom(st.scopes, id, 0) == Some(i)
    ensures ReferResult(st, id) == Ok(Resolved(st.scopes[i][id], i))
    ensures Log(ReferState(st, id), id) == Log(st, id) + [Ref(st.path, Definer(st.path[i..], id))]
    ensures i == 0 ==> Log(ReferState(st, id), id) == Log(st, id) + [Ref(st.path, Definer(st.path, id))]
    ensures ReferState(st, id).scopes == st.scopes && ReferState(st, id).path == st.path
    ensures ReferState(st, id).children == st.children && ReferState(st, id).inherited == st.inherited
  {
    assert st.path[0..] == st.path;
  }

  /** `referTo` leaves the logs of other names alone. */
  lemma ReferKeepsOtherLogs(st: EnvState, id: Id, other: Id)
    requires Wf(st) && other != id
    ensures Log(ReferState(st, id), other) == Log(st, other)
  {
  }

  /** Referring to an unbound name is the undefined-variable error and logs nothing. */
  lemma ReferUnboundFails(st: EnvState, id: Id)
    requires Wf(st) && forall j :: 0 <= j < |st.scopes| ==> id !in st.scopes[j]
    ensures ReferResult(st, id) == Err(TranspileError(UndefinedMessage(id)))
    ensures ReferState(st, id) == st
  {
  }

  /** A push shifts every resolution one scope outwards: the new scope is empty. */
  lemma PushShiftsLookup(st: EnvState, inherit: bool, id: Id)
    requires Wf(st)
    ensures LookupFrom(PushOf(st, inherit).scopes, id, 0) ==
      (match LookupFrom(st.scopes, id, 0) case Some(i) => Some(i + 1) case None => None)
  {
    var pushed := PushOf(st, inherit).scopes;
    match LookupFrom(st.scopes, id, 0)
    case Some(i) =>
      NearestDefinition(pushed, id, 0, i + 1);
    case None =>
      assert forall j :: 1 <= j < |pushed| ==> pushed[j] == st.scopes[j - 1];
  }

  /** Popping a freshly pushed scope restores the parent with one more child, so the next
      push enters the next sibling `[k + 1] + path`. */
  lemma PushPopNextSibling(st: EnvState, inherit: bool, inheritNext: bool)
    requires Wf(st)
    ensures PopOf(PushOf(st, inherit)).scopes == st.scopes
    ensures PopOf(PushOf(st, inherit)).path == st.path
    ensures PopOf(PushOf(st, inherit)).children == st.children[0 := st.children[0] + 1]
    ensures PushOf(PopOf(PushOf(st, inherit)), inheritNext).path == [st.children[0] + 1] + st.path
  {
  }

  /** `set` of a name that was never referred to succeeds and binds it in the current scope. */
  lemma SetUnreferencedPasses(st: EnvState, id: Id, w: Writer)
    requires Wf(st) && Log(st, id) == []
    ensures SetOutcome(st, id, w) == Pass
    ensures SetOf(st, id, w).scopes[0] == st.scopes[0][id := w]
    ensures SetOf(st, id, w).scopes[1..] == st.scopes[1..] && SetOf(st, id, w).refs == st.refs
  {
  }

  /** References made from enclosing scopes, and references that resolved to a binding in
      the current scope or deeper, do not stop `set`. */
  lemma SetPassesWithoutOuterReferences(st: EnvState, id: Id, w: Writer)
    requires Wf(st)
    requires forall k :: 0 <= k < |Log(st, id)| ==>
      |Log(st, id)[k].r| < |st.path| || |Log(st, id)[k].e.s| >= |st.path|
    ensures SetOutcome(st, id, w) == Pass
  {
    AnyOuterRefIff(st.path, Log(st, id));
  }

  /** A reference from the current scope to a binding in an enclosing scope makes a later
      `set` of that name in the current scope fail, whatever the writer. */
  lemma SetAfterOuterReferenceFails(st: EnvState, id: Id, w: Writer)
    requires Wf(st)
    requires LookupFrom(st.scopes, id, 0).Some? && LookupFrom(st.scopes, id, 0).value >= 1
    ensures SetOutcome(ReferState(st, id), id, w) == Fail(TranspileError(RecursiveHintMessage(id)))
  {
    var i := LookupFrom(st.scopes, id, 0).value;
    var after := ReferState(st, id);
    ReferAppendsOne(st, id, i);
    var k := |Log(st, id)|;
    assert after.refs[id][k] == Ref(st.path, Definer(st.path[i..], id));
    assert IsOuterRef(after.path, after.refs[id][k]) by {
      assert st.path[|st.path| - |st.path|..] == st.path;
    }
    AnyOuterRefIff(after.path, Log(after, id));
  }

  /** The same holds for a reference made from a child scope that has been popped since. */
  lemma SetAfterChildOuterReferenceFails(st: EnvState, inherit: bool, id: Id, w: Writer)
    requires Wf(st)
    requires LookupFrom(st.scopes, id, 0).Some? && LookupFrom(st.scopes, id, 0).value >= 1
    ensures var child := ReferState(PushOf(st, inherit), id);
      SetOutcome(PopOf(child), id, w) == Fail(TranspileError(RecursiveHintMessage(id)))
  {
    var i := LookupFrom(st.scopes, id, 0).value;
    var pushed := PushOf(st, inherit);
    PushShiftsLookup(st, inherit, id);
    ReferAppendsOne(pushed, id, i + 1);
    var back := PopOf(ReferState(pushed, id));
    var k := |Log(pushed, id)|;
    var entry := Ref(pushed.path, Definer(pushed.path[i + 1..], id));
    assert back.refs[id][k] == entry;
    assert pushed.path[i + 1..] == st.path[i..];
    assert pushed.path[|pushed.path| - |st.path|..] == st.path;
    assert IsOuterRef(back.path, entry);
    AnyOuterRefIff(back.path, Log(back, id));
  }

  /** The compile-time environment of one compilation (one REPL session). */
  class Env {
    var scopes: seq<map<Id, Writer>>
    var inherited: seq<bool>
    var children: seq<nat>
    var path: ScopePath
    var refs: map<Id, seq<Ref>>
    const replMode: bool
    const host: Host

    function State(): EnvState
      reads this
    {
      EnvState(scopes, inherited, children, path, refs)
    }

    predicate Valid()
      reads this
    {
      Wf(State())
    }

    function Depth(): nat
      reads this
    {
      |scopes|
    }

    /** `init(builtins)`. */
    constructor (builtins: map<Id, Writer>, replMode: bool, host: Host)
      ensures State() == Init(builtins) && Valid()
      ensures this.replMode == replMode && this.host == host
    {
      scopes := [builtins];
      inherited := [false];
      children := [0];
      path := [0];
      refs := map[];
      this.replMode := replMode;
      this.host := host;
    }

    /** `push`. */
    method Push()
      requires Valid()
      modifies this
      ensures Valid() && State() == PushOf(old(State()), false)
    {
      var k := children[0];
      scopes := [map[]] + scopes;
      inherited := [false] + inherited;
      children := [0] + children[0 := k + 1];
      path := [k] + path;
    }

    /** `pushInherited`: a scope that keeps the REPL top-level status of its parent. */
    method PushInherited()
      requires Valid()
      modifies this
      ensures Valid() && State() == PushOf(old(State()), true)
    {
      var k := children[0];
      scopes := [map[]] + scopes;
      inherited := [true] + inherited;
      children := [0] + children[0 := k + 1];
      path := [k] + path;
    }

    /** `pop`. */
    method Pop()
      requires Valid() && |scopes| > 1
      modifies this
      ensures Valid() && State() == PopOf(old(State()))
    {
      scopes := scopes[1..];
      inherited := inherited[1..];
      children := children[1..];
      path := path[1..];
    }

    /** The walk from the innermost scope outwards that every lookup performs. */
    method Lookup(id: Id) returns (found: Option<nat>)
      requires Valid()
      ensures found == LookupFrom(scopes, id, 0)
      ensures found.Some? ==> found.value < |scopes| && id in scopes[found.value]
    {
      var i := 0;
      while i < |scopes|
        invariant 0 <= i <= |scopes|
        invariant LookupFrom(scopes, id, 0) == LookupFrom(scopes, id, i)
      {
        if id in scopes[i] {
          return Some(i);
        }
        i := i + 1;
      }
      return None;
    }

    /** `find`. */
    method Find(id: Id) returns (w: Option<Writer>)
      requires Valid()
      ensures w == FindOf(State(), id)
    {
      var found := Lookup(id);
      if found.Some? {
        w := Some(scopes[found.value][id]);
      } else {
        w := None;
      }
    }

    /** `findWithIsAtTopLevel`. */
    method FindWithIsAtTopLevel(id: Id) returns (r: Option<Resolved>)
      requires Valid()
      ensures r == FindResolvedOf(State(), id)
    {
      var found := Lookup(id);
      if found.Some? {
        r := Some(Resolved(scopes[found.value][id], found.value));
      } else {
        r := None;
      }
    }

    /** The scan of `id`'s log that `set` performs. */
    method HasOuterReference(id: Id) returns (b: bool)
      requires Valid()
      ensures b == ReferredAsOuter(State(), id)
    {
      if id !in refs {
        return false;
      }
      var log := refs[id];
      var k := 0;
      while k < |log|
        invariant 0 <= k <= |log|
        invariant AnyOuterRef(path, log) == AnyOuterRef(path, log[k..])
      {
        assert log[k..][0] == log[k] && log[k..][1..] == log[k + 1..];
        if IsSuffix(path, log[k].r) && IsSuffix(log[k].e.s, path) && |log[k].e.s| < |path| {
          return true;
        }
        k := k + 1;
      }
      return false;
    }

    /** `isDefinedInThisScope`. */
    method IsDefinedInThisScope(id: Id) returns (b: bool)
      requires Valid()
      ensures b == DefinedHere(State(), id)
    {
      b := id in scopes[0] && scopes[0][id] != RecursiveConst;
    }

    /** `set`. */
    method Set(id: Id, w: Writer) returns (o: Outcome<TranspileError>)
      requires Valid()
      modifies this
      ensures Valid()
      ensures o == SetOutcome(old(State()), id, w) && State() == SetOf(old(State()), id, w)
    {
      var outer := HasOuterReference(id);
      if outer {
        return Fail(TranspileError(RecursiveHintMessage(id)));
      }
      scopes := scopes[0 := scopes[0][id := w]];
      return Pass;
    }

    /** `referTo` on a symbol. */
    method ReferTo(id: Id) returns (r: Result<Resolved, TranspileError>)
      requires Valid()
      modifies this
      ensures Valid()
      ensures r == ReferResult(old(State()), id) && State() == ReferState(old(State()), id)
    {
      var found := Lookup(id);
      if found.None? {
        return Err(TranspileError(UndefinedMessage(id)));
      }
      var i := found.value;
      var entry := Ref(path, Definer(path[i..], id));
      var log := if id in refs then refs[id] else [];
      refs := refs[id := log + [entry]];
      r := Ok(Resolved(scopes[i][id], i));
    }

    /** `referTo` on a property access. */
    method ReferToAccess(segments: Segments) returns (r: Result<Resolved, TranspileError>)
      requires Valid()
      modifies this
      ensures Valid()
      ensures r == ReferAccessResult(old(State()), segments)
      ensures State() == ReferState(old(State()), segments[0])
    {
      var head := ReferTo(segments[0]);
      if head.Err? {
        return Err(head.error);
      }
      var walked := WalkMembers(head.value.writer, segments[1..], Strings.Join(segments, "."));
      if walked.Err? {
        return Err(walked.error);
      }
      r := Ok(Resolved(walked.value, head.value.scope));
    }
  }
}
