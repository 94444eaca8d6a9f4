/** The loop writers of `lib/base/iteration/unbounded.ts`: their messages and the
    pre-registration step of `recursive`, which only updates the environment. The writers
    themselves are specified in `TranspileSpec`. */
module Unbounded {
  import opened Wrappers
  import opened Types
  import opened TranspileFragments
  import opened Environment
  import opened Common

  const NoWhileConditionMessage: string := "No conditional expression given to a `while` statement!"
  const NoForInitMessage: string := "No initialization statement given to a `for` statement!"
  const NoForConditionMessage: string := "No conditional expression given to a `for` statement!"
  const NoForFinalMessage: string := "No final expression given to a `for` statement!"
  const NoForEachVariableMessage: string := "No variable name given to a `forEach` statement!"
  const NoIterableMessage: string := "No iterable expression given to a `forEach` statement!"
  const NoRecursiveMessage: string := "No `const` statements given to `recursive`!"
  const NotDeclarationMessage: string := "All arguments in `recursive` must be `const` declarations!"
  const NotConstMessage: string := "All declarations in `recursive` must be `const`!"

  /** The message of both `while` and `for` for a condition that is a statement; the
      source words it for `for` in both writers. */
  function ConditionStatementMessage(id: Id): string
  {
    "The conditional expression in a `for` must be an expression! But `" + id + "` is a statement!"
  }

  function NotSymbolMessage(id: Form): string
  {
    StringifyForm(id) + " is not a symbol!"
  }

  /** The name a member of `recursive` declares: the member must be a call whose head finds
      the `const` writer, and its first argument must be a symbol. */
  function RecursiveName(st: EnvState, f: Form): (r: Result<Id, TranspileError>)
    ensures r.Ok? <==>
      AsCall(f).Some? && FindOf(st, AsCall(f).value.0) == Some(DirectWriter(ConstDecl))
      && |f.items| >= 2 && f.items[1].CuSymbol?
    ensures r.Ok? ==> r.value == f.items[1].v
    ensures AsCall(f).None? ==> r == Err(TranspileError(NotDeclarationMessage))
    ensures AsCall(f).Some? && FindOf(st, AsCall(f).value.0) != Some(DirectWriter(ConstDecl))
      ==> r == Err(TranspileError(NotConstMessage))
  {
    match AsCall(f)
    case None => Err(TranspileError(NotDeclarationMessage))
    case Some(call) =>
      if FindOf(st, call.0) != Some(DirectWriter(ConstDecl)) then Err(TranspileError(NotConstMessage))
      else
        var id := Arg(call.1, 0);
        if !id.CuSymbol? then Err(TranspileError(NotSymbolMessage(id)))
        else Ok(id.v)
  }

  /** The registration loop of `recursive`: every member's name is `set` to a
      `RecursiveConst` in the current scope, in order, before any member is transpiled;
      the first malformed member, or the first name `set` refuses, aborts with the
      names registered so far kept. */
  function RegisterFrom(st: EnvState, consts: seq<Form>): (out: Run<()>)
    requires Wf(st)
    ensures Kept(st, out) && |out.st.scopes| == |st.scopes|
    ensures consts != [] && RecursiveName(st, consts[0]).Err? ==> out == Run(Err(RecursiveName(st, consts[0]).error), st)
    ensures consts != [] && RecursiveName(st, consts[0]).Ok? && ReferredAsOuter(st, RecursiveName(st, consts[0]).value)
      ==> out == Run(Err(TranspileError(RecursiveHintMessage(RecursiveName(st, consts[0]).value))), st)
    decreases |consts|
  {
    if consts == [] then
      ProgressRefl(st);
      Run(Ok(()), st)
    else
      match RecursiveName(st, consts[0])
      case Err(e) =>
        ProgressRefl(st);
        Run(Err(e), st)
      case Ok(v) =>
        match SetOutcome(st, v, RecursiveConst)
        case Fail(e) =>
          ProgressRefl(st);
          Run(Err(e), st)
        case Pass =>
          var st1 := SetOf(st, v, RecursiveConst);
          SetProgress(st, v, RecursiveConst);
          var rest := RegisterFrom(st1, consts[1..]);
          ProgressTrans(st, st1, rest.st);
          rest
  }

  /** Registration only adds `RecursiveConst` bindings to the current scope, so one made
      earlier survives it. */
  lemma {:induction false} RegisterKeeps(st: EnvState, consts: seq<Form>, x: Id)
    requires Wf(st) && x in st.scopes[0] && st.scopes[0][x] == RecursiveConst
    ensures x in RegisterFrom(st, consts).st.scopes[0]
    ensures RegisterFrom(st, consts).st.scopes[0][x] == RecursiveConst
    decreases |consts|
  {
    if consts != [] && RecursiveName(st, consts[0]).Ok? && SetOutcome(st, RecursiveName(st, consts[0]).value, RecursiveConst).Pass? {
      var v := RecursiveName(st, consts[0]).value;
      RegisterKeeps(SetOf(st, v, RecursiveConst), consts[1..], x);
    }
  }

  /** After a successful registration every member is a `const` call on a symbol that
      was never referred to as an outer name from the current scope, and that symbol is
      bound to a `RecursiveConst` in the current scope. */
  lemma {:induction false} RegisteredNames(st: EnvState, consts: seq<Form>)
    requires Wf(st) && RegisterFrom(st, consts).r.Ok?
    ensures forall k :: 0 <= k < |consts| ==>
      consts[k].CuArray? && |consts[k].items| >= 2 && consts[k].items[1].CuSymbol?
      && !ReferredAsOuter(st, consts[k].items[1].v)
      && consts[k].items[1].v in RegisterFrom(st, consts).st.scopes[0]
      && RegisterFrom(st, consts).st.scopes[0][consts[k].items[1].v] == RecursiveConst
    decreases |consts|
  {
    if consts != [] {
      var v := RecursiveName(st, consts[0]).value;
      var st1 := SetOf(st, v, RecursiveConst);
      assert RegisterFrom(st, consts) == RegisterFrom(st1, consts[1..]);
      assert st1.scopes[0] == st.scopes[0][v := RecursiveConst];
      RegisteredNames(st1, consts[1..]);
      RegisterKeeps(st1, consts[1..], v);
      forall k | 1 <= k < |consts|
        ensures consts[k] == consts[1..][k - 1]
      {
      }
    }
  }
}
