/** The parts of the construct writers (`lib/base/common.ts`) that only consult or update
    the environment: the shape of a writer's run, the non-expression check, the
    declaration check `tryToSet`, a function's parameter prelude and the `incrementF` /
    `decrementF` mutation writers. The writers that transpile sub-forms are specified in
    `TranspileSpec`, because they call back into the transpiler. */
module Common {
  import opened Wrappers
  import opened Strings
  import opened Types
  import opened TranspileFragments
  import opened Environment
  import Json

  /** What a writer knows besides the environment's state: whether it serves a REPL, and
      the host services. */
  datatype Ctx = Ctx(replMode: bool, host: Host)

  /** A step of the transpiler: its result and the environment's state afterwards. */
  datatype Run<T> = Run(r: Result<T, TranspileError>, st: EnvState)

  /** The scope discipline of every writer: the run only made progress from `st` (see
      `Progress`), and a successful run leaves the scope stack as deep as it found it. An
      aborted run may leave scopes pushed, as the source does. */
  predicate Kept<T>(st: EnvState, out: Run<T>)
  {
    Progress(st, out.st) && (out.r.Ok? ==> |out.st.scopes| == |st.scopes|)
  }

  /** The `k`-th argument of a writer; a missing JavaScript argument is `undefined`. */
  function Arg(args: seq<Form>, k: nat): Form
  {
    if k < |args| then args[k] else Undefined
  }

  /** The rest parameter starting at position `k`. */
  function Rest(args: seq<Form>, k: nat): seq<Form>
  {
    if k <= |args| then args[k..] else []
  }

  lemma ArgSize(args: seq<Form>, k: nat)
    ensures Size(Arg(args, k)) <= SizeAll(args) + 1
  {
    if k < |args| {
      SizeAllElement(args, k);
    }
  }

  lemma RestSize(args: seq<Form>, k: nat)
    ensures SizeAll(Rest(args, k)) <= SizeAll(args)
  {
    if k <= |args| {
      SizeAllSlice(args, k, |args|);
      assert args[k..|args|] == args[k..];
    }
  }

  /** The `incrementF` and `decrementF` writers of the safe library. */
  const IncrementF: Writer := DirectWriter(Mutation("incrementF", Template("", "++"), Template("", "++")))
  const DecrementF: Writer := DirectWriter(Mutation("decrementF", Template("", "--"), Template("", "--")))

  /** The thirteen writers whose calls are statements, not expressions. */
  const NonExpressionWriters: set<Writer> := {
    DirectWriter(ConstDecl), DirectWriter(LetDecl), DirectWriter(Return),
    IncrementF, DecrementF, DirectWriter(When),
    DirectWriter(While), DirectWriter(For), DirectWriter(ForEach), DirectWriter(Recursive),
    DirectWriter(External("break")), DirectWriter(External("continue")),
    DirectWriter(External("import"))
  }

  /** `isNonExpressionCall`: a call whose head names one of the non-expression writers. */
  function IsNonExpressionCall(st: EnvState, f: Form): (b: bool)
    ensures b ==> (AsCall(f).Some? && FindOf(st, AsCall(f).value.0).Some?
                   && FindOf(st, AsCall(f).value.0).value.DirectWriter?)
    ensures !f.CuArray? ==> !b
  {
    match AsCall(f)
    case None => false
    case Some(call) =>
      match FindOf(st, call.0)
      case Some(w) => w in NonExpressionWriters
      case None => false
    }

  /** A call that is not an expression has a symbol or a property access at its head. */
  lemma NonExpressionCallHead(st: EnvState, f: Form)
    requires IsNonExpressionCall(st, f)
    ensures f.CuArray? && |f.items| >= 1 && (f.items[0].CuSymbol? || f.items[0].PropertyAccess?)
  {
  }

  /** How a message names a call head: `showSymbolAccess` joins a property access with
      `.`; the template literal of the safe library's `buildFn` prints the segment array,
      joined with `,`. */
  function ShowHead(f: Form, sep: string): Id
    requires f.CuSymbol? || f.PropertyAccess?
  {
    if f.CuSymbol? then f.v else Join(f.segments, sep)
  }

  function AlreadyDefinedMessage(id: Id): string
  {
    "Variable " + Json.Quote(id) + " is already defined!"
  }

  /** `tryToSet`: a declaration refuses a name already defined in the current scope and
      otherwise defines it with `set`, which may refuse it too. */
  function TryToSet(st: EnvState, id: Id, w: Writer): (out: Run<()>)
    requires Wf(st)
    ensures Progress(st, out.st) && |out.st.scopes| == |st.scopes|
    ensures out.r.Ok? <==> !DefinedHere(st, id) && SetOutcome(st, id, w).Pass?
    ensures DefinedHere(st, id) ==> out == Run(Err(TranspileError(AlreadyDefinedMessage(id))), st)
    ensures out.r.Ok? ==> out.st.scopes[0] == st.scopes[0][id := w]
    ensures out.r.Err? ==> out.st == st
  {
    SetProgress(st, id, w);
    ProgressRefl(st);
    if DefinedHere(st, id) then Run(Err(TranspileError(AlreadyDefinedMessage(id))), st)
    else
      match SetOutcome(st, id, w)
      case Fail(e) => Run(Err(e), st)
      case Pass => Run(Ok(()), SetOf(st, id, w))
  }

  function ArgumentsMessage(params: Form): string
  {
    "Arguments for a function must be an array of symbols! But actually " + StringifyForm(params)
  }

  function NoBodyMessage(formId: Id): string
  {
    "`" + formId + "` must receive at least one expression!"
  }

  function LastStatementMessage(formId: Id, id: Id): string
  {
    "The last statement in a `" + formId + "` must be an expression! But `" + id + "` is a statement!"
  }

  /** The parameter loop of `functionPrelude`: each parameter must be a symbol and is
      bound as a `Var`; `names` collects the names bound so far. */
  function BindParams(st: EnvState, whole: Form, params: seq<Form>, names: seq<Id>): (out: Run<seq<Id>>)
    requires Wf(st)
    ensures Progress(st, out.st) && |out.st.scopes| == |st.scopes|
    decreases |params|
  {
    if params == [] then
      ProgressRefl(st);
      Run(Ok(names), st)
    else if !params[0].CuSymbol? then
      ProgressRefl(st);
      Run(Err(TranspileError(ArgumentsMessage(whole))), st)
    else
      match SetOutcome(st, params[0].v, Var)
      case Fail(e) =>
        ProgressRefl(st);
        Run(Err(e), st)
      case Pass =>
        var next := SetOf(st, params[0].v, Var);
        var rest := BindParams(next, whole, params[1..], names + [params[0].v]);
        SetProgress(st, params[0].v, Var);
        ProgressTrans(st, next, rest.st);
        rest
  }

  /** `functionPrelude`: the parameters must be a list and the body must not be empty,
      both checked before the function's scope is pushed (`push(isAsync)`: an async
      function's scope is pushed as inherited); then every parameter is bound and the arrow
      function's head is emitted. */
  function Prelude(st: EnvState, formId: Id, params: Form, block: seq<Form>, isAsync: bool): (out: Run<JsModule>)
    requires Wf(st)
    ensures Progress(st, out.st)
    ensures out.r.Ok? ==> |block| >= 1 && |out.st.scopes| == |st.scopes| + 1
  {
    if !params.CuArray? then
      ProgressRefl(st);
      Run(Err(TranspileError(ArgumentsMessage(params))), st)
    else if |block| < 1 then
      ProgressRefl(st);
      Run(Err(TranspileError(NoBodyMessage(formId))), st)
    else
      var pushed := PushOf(st, isAsync);
      var bound := BindParams(pushed, params, params.items, []);
      PushProgress(st, isAsync);
      ProgressTrans(st, pushed, bound.st);
      if bound.r.Err? then Run(Err(bound.r.error), bound.st)
      else Run(Ok(OfBody("(" + Join(bound.r.value, ", ") + ") => {\n")), bound.st)
  }

  /** The names a successful parameter loop collects are the parameters' names, each bound
      as a `Var` in the innermost scope. */
  lemma BindParamsBinds(st: EnvState, whole: Form, params: seq<Form>, names: seq<Id>)
    requires Wf(st)
    requires BindParams(st, whole, params, names).r.Ok?
    ensures var out := BindParams(st, whole, params, names);
      && |out.r.value| == |names| + |params|
      && out.r.value[..|names|] == names
      && (forall k :: 0 <= k < |params| ==> params[k].CuSymbol? && out.r.value[|names| + k] == params[k].v)
      && (forall k :: 0 <= k < |params| ==> params[k].v in out.st.scopes[0] && out.st.scopes[0][params[k].v] == Var)
  {
    BindParamsNames(st, whole, params, names);
    BindParamsScope(st, whole, params, names);
  }

  /** A successful parameter loop over a non-empty list binds the first parameter and
      goes on with the rest. */
  lemma BindParamsCons(st: EnvState, whole: Form, params: seq<Form>, names: seq<Id>)
    requires Wf(st) && params != []
    requires BindParams(st, whole, params, names).r.Ok?
    ensures params[0].CuSymbol? && SetOutcome(st, params[0].v, Var).Pass?
    ensures BindParams(st, whole, params, names)
      == BindParams(SetOf(st, params[0].v, Var), whole, params[1..], names + [params[0].v])
  {
  }

  /** The names collected by a successful parameter loop. */
  lemma BindParamsNames(st: EnvState, whole: Form, params: seq<Form>, names: seq<Id>)
    requires Wf(st)
    requires BindParams(st, whole, params, names).r.Ok?
    ensures var out := BindParams(st, whole, params, names);
      && |out.r.value| == |names| + |params|
      && out.r.value[..|names|] == names
      && (forall k :: 0 <= k < |params| ==> params[k].CuSymbol? && out.r.value[|names| + k] == params[k].v)
  {
    BindParamsPrefix(st, whole, params, names);
    var v := BindParams(st, whole, params, names).r.value;
    forall k | 0 <= k < |params|
      ensures params[k].CuSymbol? && v[|names| + k] == params[k].v
    {
      BindParamsNameAt(st, whole, params, names, k);
    }
  }

  /** A successful parameter loop adds one name per parameter after the earlier ones. */
  lemma {:induction false} BindParamsPrefix(st: EnvState, whole: Form, params: seq<Form>, names: seq<Id>)
    requires Wf(st)
    requires BindParams(st, whole, params, names).r.Ok?
    ensures var v := BindParams(st, whole, params, names).r.value;
      |v| == |names| + |params| && v[..|names|] == names
    decreases |params|
  {
    if params != [] {
      var names' := names + [params[0].v];
      BindParamsCons(st, whole, params, names);
      BindParamsPrefix(SetOf(st, params[0].v, Var), whole, params[1..], names');
      var v := BindParams(st, whole, params, names).r.value;
      assert v[..|names|] == v[..|names'|][..|names|] == names'[..|names|] == names;
    }
  }

  /** The name a successful parameter loop collects for the `k`-th parameter. */
  lemma {:induction false} BindParamsNameAt(st: EnvState, whole: Form, params: seq<Form>, names: seq<Id>, k: nat)
    requires Wf(st) && k < |params|
    requires BindParams(st, whole, params, names).r.Ok?
    ensures var v := BindParams(st, whole, params, names).r.value;
      params[k].CuSymbol? && |names| + k < |v| && v[|names| + k] == params[k].v
    decreases |params|
  {
    if k == 0 {
      BindParamsFirstName(st, whole, params, names);
    } else {
      BindParamsCons(st, whole, params, names);
      BindParamsNameAt(SetOf(st, params[0].v, Var), whole, params[1..], names + [params[0].v], k - 1);
      assert params[k] == params[1..][k - 1];
    }
  }

  /** The first name a successful parameter loop collects is the first parameter's. */
  lemma BindParamsFirstName(st: EnvState, whole: Form, params: seq<Form>, names: seq<Id>)
    requires Wf(st) && params != []
    requires BindParams(st, whole, params, names).r.Ok?
    ensures var v := BindParams(st, whole, params, names).r.value;
      params[0].CuSymbol? && |names| < |v| && v[|names|] == params[0].v
  {
    var names' := names + [params[0].v];
    BindParamsCons(st, whole, params, names);
    BindParamsPrefix(SetOf(st, params[0].v, Var), whole, params[1..], names');
    var v := BindParams(st, whole, params, names).r.value;
    assert v[..|names'|][|names|] == names'[|names|];
  }

  /** Every parameter of a successful parameter loop is bound as a `Var` in the innermost
      scope. */
  lemma {:induction false} BindParamsScope(st: EnvState, whole: Form, params: seq<Form>, names: seq<Id>)
    requires Wf(st)
    requires BindParams(st, whole, params, names).r.Ok?
    ensures var out := BindParams(st, whole, params, names);
      forall k :: 0 <= k < |params| ==> params[k].CuSymbol? && params[k].v in out.st.scopes[0] && out.st.scopes[0][params[k].v] == Var
    decreases |params|
  {
    if params != [] {
      var next := SetOf(st, params[0].v, Var);
      var names' := names + [params[0].v];
      BindParamsCons(st, whole, params, names);
      BindParamsScope(next, whole, params[1..], names');
      var out := BindParams(st, whole, params, names);
      BindParamsKeepsVars(next, whole, params[1..], names', params[0].v);
      forall k | 0 <= k < |params|
        ensures params[k].CuSymbol? && params[k].v in out.st.scopes[0] && out.st.scopes[0][params[k].v] == Var
      {
        if k > 0 {
          assert params[k] == params[1..][k - 1];
        }
      }
    }
  }

  /** The parameter loop never unbinds a `Var` binding of the innermost scope. */
  lemma {:induction false} BindParamsKeepsVars(st: EnvState, whole: Form, params: seq<Form>, names: seq<Id>, x: Id)
    requires Wf(st) && x in st.scopes[0] && st.scopes[0][x] == Var
    ensures var out := BindParams(st, whole, params, names);
      x in out.st.scopes[0] && out.st.scopes[0][x] == Var
    decreases |params|
  {
    if params != [] && params[0].CuSymbol? && SetOutcome(st, params[0].v, Var).Pass? {
      BindParamsKeepsVars(SetOf(st, params[0].v, Var), whole, params[1..], names + [params[0].v], x);
    }
  }

  /** A successful prelude pushed one scope, bound every parameter in it as a `Var`, and
      emitted the arrow head with the parameter names separated by `, `. */
  lemma PreludeBindsParameters(st: EnvState, formId: Id, params: Form, block: seq<Form>, isAsync: bool)
    requires Wf(st) && Prelude(st, formId, params, block, isAsync).r.Ok?
    ensures params.CuArray? && |block| >= 1
    ensures var out := Prelude(st, formId, params, block, isAsync);
      && |out.st.scopes| == |st.scopes| + 1
      && out.st.scopes[1..] == st.scopes
      && out.st.inherited == [isAsync] + st.inherited
      && (forall k :: 0 <= k < |params.items| ==>
            (params.items[k].CuSymbol? && params.items[k].v in out.st.scopes[0]
             && out.st.scopes[0][params.items[k].v] == Var))
      && exists names: seq<Id> ::
           |names| == |params.items|
           && (forall k :: 0 <= k < |names| ==> names[k] == params.items[k].v)
           && out.r.value == OfBody("(" + Join(names, ", ") + ") => {\n")
  {
    var pushed := PushOf(st, isAsync);
    BindParamsBinds(pushed, params, params.items, []);
    var out := Prelude(st, formId, params, block, isAsync);
    var bound := BindParams(pushed, params, params.items, []);
    assert out.st == bound.st;
    assert bound.st.scopes[1..] == pushed.scopes[1..];
  }

  /** The error cases of the prelude: parameters that are not a list and an empty body
      are refused before any scope is pushed; a parameter that is not a symbol fails the
      prelude too. */
  lemma PreludeErrors(st: EnvState, formId: Id, params: Form, block: seq<Form>, isAsync: bool)
    requires Wf(st)
    ensures !params.CuArray? ==> Prelude(st, formId, params, block, isAsync) == Run(Err(TranspileError(ArgumentsMessage(params))), st)
    ensures params.CuArray? && block == [] ==> Prelude(st, formId, params, block, isAsync) == Run(Err(TranspileError(NoBodyMessage(formId))), st)
    ensures params.CuArray? && block != [] && (exists k :: 0 <= k < |params.items| && !params.items[k].CuSymbol?)
      ==> Prelude(st, formId, params, block, isAsync).r.Err?
  {
    if params.CuArray? && block != [] && (exists k :: 0 <= k < |params.items| && !params.items[k].CuSymbol?) {
      var k :| 0 <= k < |params.items| && !params.items[k].CuSymbol?;
      BindParamsRefuses(PushOf(st, isAsync), params, params.items, [], k);
    }
  }

  lemma {:induction false} BindParamsRefuses(st: EnvState, whole: Form, params: seq<Form>, names: seq<Id>, k: nat)
    requires Wf(st) && k < |params| && !params[k].CuSymbol?
    ensures BindParams(st, whole, params, names).r.Err?
    decreases |params|
  {
    if k > 0 && params[0].CuSymbol? && SetOutcome(st, params[0].v, Var).Pass? {
      assert params[1..][k - 1] == params[k];
      BindParamsRefuses(SetOf(st, params[0].v, Var), whole, params[1..], names + [params[0].v], k - 1);
    }
  }

  function OnlyOneSymbolMessage(formId: Id): string
  {
    "`" + formId + "` must receive only one symbol!"
  }

  function NotVariableNameMessage(formId: Id): string
  {
    "The argument to `" + formId + "` must be a name of a variable!"
  }

  function NotLetVariableMessage(formId: Id): string
  {
    "The argument to `" + formId + "` must be a name of a variable declared by `let`!"
  }

  /** `transpilingForVariableMutation(formId, whenTopRepl, otherwise)`: exactly one
      symbol naming a `Var`; at the REPL's top level the update goes through the
      pseudo-global, elsewhere it is applied to the name itself. The environment does not
      change. */
  function MutationOf(c: Ctx, st: EnvState, formId: Id, whenTopRepl: Template, otherwise: Template, args: seq<Form>)
    : (r: Result<JsModule, TranspileError>)
    requires Wf(st)
    ensures r.Ok? ==> |args| >= 1 && args[0].CuSymbol? && FindOf(st, args[0].v) == Some(Var)
    ensures |args| >= 2 && args[1] != Undefined ==> r == Err(TranspileError(OnlyOneSymbolMessage(formId)))
  {
    if |args| >= 2 && args[1] != Undefined then Err(TranspileError(OnlyOneSymbolMessage(formId)))
    else
      var id := Arg(args, 0);
      if !id.CuSymbol? then Err(TranspileError(NotVariableNameMessage(formId)))
      else
        match FindResolvedOf(st, id.v)
        case None => Err(TranspileError(NotLetVariableMessage(formId)))
        case Some(res) =>
          if !IsVar(res.writer) then Err(TranspileError(NotLetVariableMessage(formId)))
          else if AtReplTopLevel(st, c.replMode, res.scope) then
            var target := c.host.pseudoTopLevelReference(id.v);
            Ok(c.host.pseudoTopLevelAssignment(id.v, OfBody(whenTopRepl.before + target + whenTopRepl.after)))
          else Ok(OfBody(otherwise.before + id.v + otherwise.after))
  }

  function ArgumentCountMessage(formId: Id): string
  {
    "The number of arguments to `" + formId + "` must be 2!"
  }

  function NotAssignableMessage(id: Form): string
  {
    StringifyForm(id) + " is must be a symbol or key values of symbols!"
  }

  function AssigneeMessage(formId: Id, v: Form): string
  {
    formId + "'s assignee must be a symbol, but " + StringifyForm(v) + " is not!"
  }

  function ExactlyOneMessage(formId: Id): string
  {
    "`" + formId + "` must receive exactly one expression!"
  }

  /** The shorthand step of the destructuring pattern outside the REPL, as written: the
      second argument of `extendBody` is the prefix, so the name and its comma land in
      front of everything built so far. */
  function AddShorthandAsWritten(assignee: JsModule, s: Id): JsModule
  {
    ExtendBody(assignee, s + ",", "")
  }

  /** The shorthand step as evidently intended, which the model uses: the name and its
      comma are appended to the pattern. */
  function AddShorthand(assignee: JsModule, s: Id): JsModule
  {
    ExtendBody(assignee, "", s + ",")
  }

  /** Each name followed by a comma, in order: the pattern's text for shorthand entries. */
  function Listed(names: seq<Id>): string
  {
    if names == [] then "" else names[0] + "," + Listed(names[1..])
  }

  /** Shorthand steps applied in order, with the step as written or as intended. */
  function AddShorthands(assignee: JsModule, names: seq<Id>, asWritten: bool): JsModule
    decreases |names|
  {
    if names == [] then assignee
    else
      var next := if asWritten then AddShorthandAsWritten(assignee, names[0]) else AddShorthand(assignee, names[0]);
      AddShorthands(next, names[1..], asWritten)
  }

  /** The corrected steps list the names after the text built so far, in order, and
      keep the imports. */
  lemma {:induction false} ShorthandsInOrder(assignee: JsModule, names: seq<Id>)
    ensures AddShorthands(assignee, names, false).body == assignee.body + Listed(names)
    ensures AddShorthands(assignee, names, false).imports == assignee.imports
    decreases |names|
  {
    if names != [] {
      ShorthandsInOrder(AddShorthand(assignee, names[0]), names[1..]);
      assert assignee.body + "" + (names[0] + ",") + Listed(names[1..])
          == assignee.body + (names[0] + "," + Listed(names[1..]));
    }
  }

  /** The steps as written turn the pattern `{a b}` into `b,a,{}` where `{a,b,}` is meant. */
  lemma ShorthandsReversedAsWritten()
    ensures ExtendBody(AddShorthands(OfBody("{"), ["a", "b"], true), "", "}").body == "b,a,{}"
    ensures ExtendBody(AddShorthands(OfBody("{"), ["a", "b"], false), "", "}").body == "{a,b,}"
  {
    assert ["a", "b"][1..] == ["b"];
    assert ["b"][1..] == [];
  }
}
