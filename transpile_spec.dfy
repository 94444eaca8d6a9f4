/** The transpiler as a pure function of the environment's state: every step takes the
    state before it and returns its result together with the state after it, in the
    source's order of evaluation. `transpileExpressionWithNextCall`, the loops of
    `transpile.ts` and every direct writer of the core call each other, so they form one
    mutually recursive group, ordered by the size of the forms still to transpile (and a
    rank for calls that do not shrink it). Each member keeps the scope discipline
    `Kept`. The imperative methods of `Transpile` are proved equal to these functions. */
module TranspileSpec {
  import opened Wrappers
  import opened Strings
  import opened Types
  import opened TranspileFragments
  import opened Environment
  import opened Common
  import opened Safe
  import opened Unbounded

  /** What a call head resolved to: its writer and its printed name (the source keeps the
      symbol itself, which only ever reaches a message through `showSymbolAccess`). */
  datatype NextCall = NextCall(writer: Writer, shown: Id)

  /** The output of `transpileExpressionWithNextCall`. */
  datatype Emitted = Emitted(src: JsModule, next: Option<NextCall>)

  const EmptyCallMessage: string := "Invalid function call: empty"

  function ContextualKeywordMessage(shown: Id, companion: Id): string
  {
    "`" + shown + "` must be used with `" + companion + "`!"
  }

  function NamespaceMessage(shown: Id): string
  {
    "`" + shown + "` is just a namespace. Doesn't represent a function!"
  }

  /** A step that fails with `message` after the environment went from `st` to `at`. */
  function FailAfter<T>(st: EnvState, at: EnvState, message: string): (out: Run<T>)
    requires Progress(st, at)
    ensures Kept(st, out) && out == Run(Err(TranspileError(message)), at)
  {
    Run(Err(TranspileError(message)), at)
  }

  /** A step that fails with `message` without touching the environment. */
  function Refuse<T>(st: EnvState, message: string): (out: Run<T>)
    requires Wf(st)
    ensures Kept(st, out) && out == Run(Err(TranspileError(message)), st)
  {
    ProgressRefl(st);
    Run(Err(TranspileError(message)), st)
  }

  /** The error of an inner step, passed on with the state it left behind. */
  function Abort<T, U>(st: EnvState, inner: Run<U>): (out: Run<T>)
    requires inner.r.Err? && Progress(st, inner.st)
    ensures Kept(st, out) && out == Run(Err(inner.r.error), inner.st)
  {
    Run(Err(inner.r.error), inner.st)
  }

  /** A successful step followed by another keeps the discipline from the first one's start. */
  lemma Chain<T, U>(st: EnvState, first: Run<T>, next: Run<U>)
    requires Kept(st, first) && first.r.Ok? && Kept(first.st, next)
    ensures Kept(st, next)
  {
    ProgressTrans(st, first.st, next.st);
  }

  /** Work done inside a scope pushed at `st`, then that scope popped. */
  lemma Bracket<T>(st: EnvState, inherit: bool, inner: Run<T>)
    requires Wf(st) && Progress(PushOf(st, inherit), inner.st)
    ensures Progress(st, inner.st)
  {
    PushProgress(st, inherit);
    ProgressTrans(st, PushOf(st, inherit), inner.st);
  }

  /** A scope pushed after progress from `st` is one scope deeper than `st`. */
  lemma PushedAfter(st: EnvState, at: EnvState, inherit: bool)
    requires Progress(st, at) && |at.scopes| == |st.scopes|
    ensures Progress(st, PushOf(at, inherit)) && |PushOf(at, inherit).scopes| == |st.scopes| + 1
  {
    PushProgress(at, inherit);
    ProgressTrans(st, at, PushOf(at, inherit));
  }

  lemma Popped<T>(st: EnvState, at: EnvState, r: Result<T, TranspileError>)
    requires Progress(st, at) && |at.scopes| == |st.scopes| + 1
    ensures Kept(st, Run(r, PopOf(at)))
  {
    PopProgress(st, at);
  }

  /** The symbol and property-access cases of `transpileExpressionWithNextCall`: the name
      is referred to (and logged); at the REPL's top level it reads the pseudo-global. */
  function SymbolSrc(c: Ctx, st: EnvState, f: Form): (out: Run<Emitted>)
    requires Wf(st) && (f.CuSymbol? || f.PropertyAccess?)
    ensures Kept(st, out)
  {
    var first := if f.CuSymbol? then f.v else f.segments[0];
    var res := if f.CuSymbol? then ReferResult(st, f.v) else ReferAccessResult(st, f.segments);
    var st1 := ReferState(st, first);
    ReferProgress(st, first);
    if res.Err? then Run(Err(res.error), st1)
    else
      var atTop := AtReplTopLevel(st1, c.replMode, res.value.scope);
      var body :=
        if f.CuSymbol? then (if atTop then c.host.pseudoTopLevelReference(f.v) else f.v)
        else if atTop then c.host.pseudoTopLevelReferenceToPropertyAccess(f.segments)
        else Join(f.segments, ".");
      Run(Ok(Emitted(OfBody(body), Some(NextCall(res.value.writer, ShowSymbolAccess(f))))), st1)
  }

  /** `transpileExpressionWithNextCall`. */
  function ExprWithNext(c: Ctx, st: EnvState, f: Form): (out: Run<Emitted>)
    requires Wf(st)
    ensures Kept(st, out)
    decreases Size(f), 2
  {
    match f
    case CuArray(items) => CallForm(c, st, items)
    case CuSymbol(_) => SymbolSrc(c, st, f)
    case PropertyAccess(_) => SymbolSrc(c, st, f)
    case LiteralArray(elements) => ArraySrc(c, st, elements)
    case KeyValues(entries) => ObjectSrc(c, st, entries)
    case _ => AtomEmitted(st, f)
  }

  /** An atom that is neither a name nor a literal collection: its JavaScript literal. */
  function AtomEmitted(st: EnvState, f: Form): (out: Run<Emitted>)
    requires Wf(st) && !f.CuArray? && !f.CuSymbol? && !f.PropertyAccess? && !f.LiteralArray? && !f.KeyValues?
    ensures Kept(st, out)
  {
    ProgressRefl(st);
    Run(Ok(Emitted(AtomSrc(f), None)), st)
  }

  /** A call form: the head is transpiled first, then the call is dispatched on what the
      head resolved to; an empty call is refused. */
  function CallForm(c: Ctx, st: EnvState, items: seq<Form>): (out: Run<Emitted>)
    requires Wf(st)
    ensures Kept(st, out)
    decreases SizeAll(items) + 1, 1
  {
    if items == [] then Refuse(st, EmptyCallMessage)
    else
      SizeAllElement(items, 0);
      var head := ExprWithNext(c, st, items[0]);
      if head.r.Err? then Abort(st, head)
      else
        var call := CallOf(c, head.st, head.r.value, items[1..]);
        Chain(st, head, call);
        if call.r.Err? then Abort(st, call)
        else Run(Ok(Emitted(call.r.value, None)), call.st)
  }

  /** A literal array: its elements joined with commas, in brackets. */
  function ArraySrc(c: Ctx, st: EnvState, elements: seq<Form>): (out: Run<Emitted>)
    requires Wf(st)
    ensures Kept(st, out)
    decreases SizeAll(elements) + 1, 1
  {
    var inner := JoinWithCommaFrom(c, st, elements, EmptyModule());
    if inner.r.Err? then Abort(st, inner)
    else Run(Ok(Emitted(Concat([OfBody("["), inner.r.value, OfBody("]")]), None)), inner.st)
  }

  /** A key-values form: its entries, each followed by a comma, in braces. */
  function ObjectSrc(c: Ctx, st: EnvState, entries: seq<KeyValue>): (out: Run<Emitted>)
    requires Wf(st)
    ensures Kept(st, out)
    decreases SizeEntries(entries) + 1, 1
  {
    var inner := KeyValuesFrom(c, st, entries, EmptyModule());
    if inner.r.Err? then Abort(st, inner)
    else Run(Ok(Emitted(ExtendBody(inner.r.value, "{", "}"), None)), inner.st)
  }

  /** `transpileExpression` (and `transpileStatement`, which is the same). */
  function Expr(c: Ctx, st: EnvState, f: Form): (out: Run<JsModule>)
    requires Wf(st)
    ensures Kept(st, out)
    decreases Size(f), 3
  {
    var e := ExprWithNext(c, st, f);
    if e.r.Err? then Abort(st, e) else Run(Ok(e.r.value.src), e.st)
  }

  /** `.call(<environment>,`: how a function that needs the environment is called. */
  function EnvCallOpen(cuEnv: JsSrc): JsSrc
  {
    ".call(" + cuEnv + ","
  }

  /** The call case of `transpileExpressionWithNextCall` once the head is transpiled:
      dispatch on what the head resolved to. */
  function CallOf(c: Ctx, st: EnvState, head: Emitted, args: seq<Form>): (out: Run<JsModule>)
    requires Wf(st)
    ensures Kept(st, out)
    decreases SizeAll(args) + 1, 9
  {
    if head.next.Some? && head.next.value.writer.ContextualKeyword? then
      Refuse(st, ContextualKeywordMessage(head.next.value.shown, head.next.value.writer.companion))
    else if head.next.Some? && head.next.value.writer.Namespace? then
      Refuse(st, NamespaceMessage(head.next.value.shown))
    else if head.next.Some? && head.next.value.writer.DirectWriter? then
      InvokeDirect(c, st, head.next.value.writer.kind, args)
    else
      ArgsCall(c, st, CallOpen(c, head), args)
  }

  /** What precedes the arguments of a call: the parenthesised head when it is not a name,
      `head.call(CU_ENV,` for a function that needs the environment, `head(` otherwise. */
  function CallOpen(c: Ctx, head: Emitted): JsModule
  {
    if head.next.None? then Concat([OfBody("("), head.src, OfBody(")(")])
    else if head.next.value.writer.FunctionWithEnv? then Concat([head.src, OfBody(EnvCallOpen(c.host.cuEnv))])
    else Concat([head.src, OfBody("(")])
  }

  /** The arguments of a call transpiled by `transpileJoinWithComma`, between `open` and
      `)`. */
  function ArgsCall(c: Ctx, st: EnvState, open: JsModule, args: seq<Form>): (out: Run<JsModule>)
    requires Wf(st)
    ensures Kept(st, out)
    decreases SizeAll(args), 5
  {
    var a := JoinWithCommaFrom(c, st, args, EmptyModule());
    if a.r.Err? then Abort(st, a)
    else Run(Ok(Concat([open, a.r.value, OfBody(")")])), a.st)
  }

  /** The loop of `transpileJoinWithComma` from the element `xs[0]` on, with `acc` built
      so far: a comma after every element but the last. */
  function JoinWithCommaFrom(c: Ctx, st: EnvState, xs: seq<Form>, acc: JsModule): (out: Run<JsModule>)
    requires Wf(st)
    ensures Kept(st, out)
    decreases SizeAll(xs), 4
  {
    if xs == [] then
      ProgressRefl(st);
      Run(Ok(acc), st)
    else
      var e := Expr(c, st, xs[0]);
      if e.r.Err? then Abort(st, e)
      else
        var next := if |xs| == 1 then Concat([acc, e.r.value]) else Concat([acc, e.r.value, OfBody(",")]);
        var rest := JoinWithCommaFrom(c, e.st, xs[1..], next);
        Chain(st, e, rest);
        rest
  }

  /** The loop of `transpileKeyValues`: every entry followed by a comma. */
  function KeyValuesFrom(c: Ctx, st: EnvState, entries: seq<KeyValue>, acc: JsModule): (out: Run<JsModule>)
    requires Wf(st)
    ensures Kept(st, out)
    decreases SizeEntries(entries), 4
  {
    if entries == [] then
      ProgressRefl(st);
      Run(Ok(acc), st)
    else
      var e := EntrySrc(c, st, entries[0]);
      if e.r.Err? then Abort(st, e)
      else
        var rest := KeyValuesFrom(c, e.st, entries[1..], Concat([acc, e.r.value, OfBody(",")]));
        Chain(st, e, rest);
        rest
  }

  /** One entry of a key-values form: a shorthand is referred to (reading the
      pseudo-global at the REPL's top level); a pair's key is a bare name when it is a
      symbol and a transpiled expression otherwise. */
  function EntrySrc(c: Ctx, st: EnvState, kv: KeyValue): (out: Run<JsModule>)
    requires Wf(st)
    ensures Kept(st, out)
    decreases SizeEntry(kv), 3
  {
    match kv
    case Shorthand(s) =>
      var res := ReferResult(st, s);
      var st1 := ReferState(st, s);
      ReferProgress(st, s);
      if res.Err? then Run(Err(res.error), st1)
      else if AtReplTopLevel(st1, c.replMode, res.value.scope) then
        Run(Ok(OfBody(s + ": " + c.host.pseudoTopLevelReference(s))), st1)
      else Run(Ok(OfBody(s)), st1)
    case Pair(k, v) =>
      var key := if k.CuSymbol? then (ProgressRefl(st); Run(Ok(OfBody(k.v)), st)) else Expr(c, st, k);
      if key.r.Err? then Abort(st, key)
      else
        var value := Expr(c, key.st, v);
        Chain(st, key, value);
        if value.r.Err? then Abort(st, value)
        else Run(Ok(Concat([key.r.value, OfBody(": "), value.r.value])), value.st)
  }

  /** The loop of `transpileBlock`: every statement followed by `;\n`. */
  function BlockFrom(c: Ctx, st: EnvState, forms: seq<Form>, acc: JsModule): (out: Run<JsModule>)
    requires Wf(st)
    ensures Kept(st, out)
    decreases SizeAll(forms), 4
  {
    if forms == [] then
      ProgressRefl(st);
      Run(Ok(acc), st)
    else
      var s := Expr(c, st, forms[0]);
      if s.r.Err? then Abort(st, s)
      else
        var rest := BlockFrom(c, s.st, forms[1..], AppendStatement(acc, s.r.value));
        Chain(st, s, rest);
        rest
  }

  /** `mapAE(forms, transpileExpression)`: the forms transpiled in order, appended to
      `done`; the first error aborts. */
  function MapFrom(c: Ctx, st: EnvState, xs: seq<Form>, done: seq<JsModule>): (out: Run<seq<JsModule>>)
    requires Wf(st)
    ensures Kept(st, out)
    ensures out.r.Ok? ==> |out.r.value| == |done| + |xs|
    decreases SizeAll(xs), 4
  {
    if xs == [] then
      ProgressRefl(st);
      Run(Ok(done), st)
    else
      var e := Expr(c, st, xs[0]);
      if e.r.Err? then Abort(st, e)
      else
        var rest := MapFrom(c, e.st, xs[1..], done + [e.r.value]);
        Chain(st, e, rest);
        rest
  }

  /** The statement loops of `buildFn` and `buildProcedure`: each statement indented by
      two spaces and followed by `;\n`. */
  function IndentedFrom(c: Ctx, st: EnvState, forms: seq<Form>, acc: JsModule): (out: Run<JsModule>)
    requires Wf(st)
    ensures Kept(st, out)
    decreases SizeAll(forms), 4
  {
    if forms == [] then
      ProgressRefl(st);
      Run(Ok(acc), st)
    else
      var s := Expr(c, st, forms[0]);
      if s.r.Err? then Abort(st, s)
      else
        var rest := IndentedFrom(c, s.st, forms[1..], Concat([acc, OfBody("  "), s.r.value, OfBody(";\n")]));
        Chain(st, s, rest);
        rest
  }

  /** The destructuring loop of a declaration at the REPL's top level: every name is
      declared and assigned its member of the temporary `tmpVar` through the
      pseudo-global. */
  function ReplDestructureFrom(c: Ctx, st: EnvState, formId: Id, w: Writer, tmpVar: Id,
                               entries: seq<KeyValue>, i: nat, src: JsModule): (out: Run<JsModule>)
    requires Wf(st) && i <= |entries|
    ensures Kept(st, out)
    decreases SizeEntries(entries), 4, |entries| - i
  {
    if i == |entries| then
      ProgressRefl(st);
      Run(Ok(src), st)
    else
      SizeEntryBound(entries, i);
      var e := ReplDestructureEntry(c, st, formId, w, tmpVar, entries[i], src);
      if e.r.Err? then Abort(st, e)
      else
        var rest := ReplDestructureFrom(c, e.st, formId, w, tmpVar, entries, i + 1, e.r.value);
        Chain(st, e, rest);
        rest
  }


  /** One entry of that loop, appended to `src`: a shorthand reads the member of its own
      name; a pair's key is a member name when it is a symbol and a transpiled expression
      put after `tmpVar` otherwise, and its value must be a symbol. */
  function ReplDestructureEntry(c: Ctx, st: EnvState, formId: Id, w: Writer, tmpVar: Id,
                                kv: KeyValue, src: JsModule): (out: Run<JsModule>)
    requires Wf(st)
    ensures Kept(st, out)
    decreases SizeEntry(kv), 3
  {
    match kv
    case Shorthand(s) =>
      var t := TryToSet(st, s, w);
      if t.r.Err? then Abort(st, t)
      else
        Run(Ok(Concat([src, OfBody("\n"), c.host.pseudoTopLevelAssignment(s, OfBody(tmpVar + "." + s)), OfBody(";")])), t.st)
    case Pair(k, v) =>
      var key := ReplMember(c, st, tmpVar, k);
      if key.r.Err? then Abort(st, key)
      else if !v.CuSymbol? then FailAfter(st, key.st, AssigneeMessage(formId, v))
      else
        var t := TryToSet(key.st, v.v, w);
        Chain(st, key, t);
        if t.r.Err? then Abort(st, t)
        else Run(Ok(Concat([src, OfBody("\n"), c.host.pseudoTopLevelAssignment(v.v, key.r.value)])), t.st)
  }

  /** The member of the temporary `tmpVar` a pair's key `k` selects: `tmpVar.k` for a
      symbol, otherwise the transpiled key after `tmpVar`. */
  function ReplMember(c: Ctx, st: EnvState, tmpVar: Id, k: Form): (out: Run<JsModule>)
    requires Wf(st)
    ensures Kept(st, out)
    decreases Size(k), 4
  {
    if k.CuSymbol? then
      ProgressRefl(st);
      Run(Ok(OfBody(tmpVar + "." + k.v)), st)
    else
      var e := Expr(c, st, k);
      if e.r.Err? then e else Run(Ok(ExtendBody(e.r.value, tmpVar, "")), e.st)
  }

  /** The destructuring loop of a declaration elsewhere: shorthands are declared and
      listed, pairs become `key:name,`. Both entry kinds follow the evident intent of the
      source rather than its text (see `AssigneeEntry`). */
  function AssigneeFrom(c: Ctx, st: EnvState, formId: Id, w: Writer, all: seq<KeyValue>,
                        i: nat, acc: JsModule): (out: Run<JsModule>)
    requires Wf(st) && i <= |all|
    ensures Kept(st, out)
    decreases SizeEntries(all), 4, |all| - i
  {
    if i == |all| then
      ProgressRefl(st);
      Run(Ok(acc), st)
    else
      SizeEntryBound(all, i);
      var e := AssigneeEntry(c, st, formId, w, all[i], acc);
      if e.r.Err? then Abort(st, e)
      else
        var rest := AssigneeFrom(c, e.st, formId, w, all, i + 1, e.r.value);
        Chain(st, e, rest);
        rest
  }

  /** One entry of that loop, appended to the pattern `acc`: a shorthand adds `name,`
      after the pattern so far, a pair adds its transpiled key and `:name,`. The source
      instead passes the shorthand as the prefix of `extendBody` and reads the pair from
      the first two entries of the whole form (`const [k, v] = id.v`); both are logged as
      findings, with `Common.AddShorthandAsWritten` and `PairEntryAsWritten` modelling the
      text as written. */
  function AssigneeEntry(c: Ctx, st: EnvState, formId: Id, w: Writer,
                         kv: KeyValue, acc: JsModule): (out: Run<JsModule>)
    requires Wf(st)
    ensures Kept(st, out)
    decreases SizeEntry(kv), 3
  {
    match kv
    case Shorthand(s) =>
      var t := TryToSet(st, s, w);
      if t.r.Err? then Abort(st, t) else Run(Ok(AddShorthand(acc, s)), t.st)
    case Pair(k, v) =>
      var key := Expr(c, st, k);
      if key.r.Err? then Abort(st, key)
      else if !v.CuSymbol? then FailAfter(st, key.st, AssigneeMessage(formId, v))
      else
        var t := TryToSet(key.st, v.v, w);
        Chain(st, key, t);
        if t.r.Err? then Abort(st, t)
        else Run(Ok(Concat([acc, key.r.value, OfBody(":" + v.v + ",")])), t.st)
  }

  /** The pair step of that loop as written: `const [k, v] = id.v` takes the key and the
      value from the first two entries of the whole key-values form (each as its run-time
      value: a shorthand is its symbol, a pair the array `[key, value]`), whatever pair
      is being visited. */
  function PairEntryAsWritten(c: Ctx, st: EnvState, formId: Id, w: Writer,
                              all: seq<KeyValue>, acc: JsModule): (out: Run<JsModule>)
    requires Wf(st) && |all| >= 1
    ensures Kept(st, out)
  {
    var k := EntryForm(all[0]);
    var v := if |all| >= 2 then EntryForm(all[1]) else Undefined;
    var key := Expr(c, st, k);
    if key.r.Err? then Abort(st, key)
    else if !v.CuSymbol? then FailAfter(st, key.st, AssigneeMessage(formId, v))
    else
      var t := TryToSet(key.st, v.v, w);
      Chain(st, key, t);
      if t.r.Err? then Abort(st, t)
      else Run(Ok(Concat([acc, key.r.value, OfBody(":" + v.v + ",")])), t.st)
  }

  /** The destructuring pattern `{...}` of a key-values assignee. */
  function DestructuringPattern(c: Ctx, st: EnvState, formId: Id, w: Writer, entries: seq<KeyValue>): (out: Run<JsModule>)
    requires Wf(st)
    ensures Kept(st, out)
    decreases SizeEntries(entries), 4, |entries| + 2
  {
    var a := AssigneeFrom(c, st, formId, w, entries, 0, OfBody("{"));
    if a.r.Err? then Abort(st, a) else Run(Ok(ExtendBody(a.r.value, "", "}")), a.st)
  }

  /** A symbol assignee: the name is declared in the innermost scope with `w`
      and written as it is. */
  function NamedAssignee(st: EnvState, name: Id, w: Writer): (out: Run<JsModule>)
    requires Wf(st)
    ensures Kept(st, out)
    ensures out.r.Ok? <==> !DefinedHere(st, name) && SetOutcome(st, name, w).Pass?
    ensures DefinedHere(st, name) ==> out == Run(Err(TranspileError(AlreadyDefinedMessage(name))), st)
    ensures out.r.Ok? ==> out.r.value == OfBody(name) && out.st.scopes[0] == st.scopes[0][name := w]
    ensures out.r.Err? ==> out.st == st
  {
    var t := TryToSet(st, name, w);
    if t.r.Err? then Abort(st, t) else Run(Ok(OfBody(name)), t.st)
  }

  /** The assignee of a declaration outside the REPL's top level (also `forEach`'s loop
      variable): a symbol is declared and named; a key-values form becomes a
      destructuring pattern. */
  function Assignee(c: Ctx, st: EnvState, formId: Id, w: Writer, id: Form): (out: Run<JsModule>)
    requires Wf(st)
    ensures Kept(st, out)
    decreases Size(id), 5
  {
    if id.CuSymbol? then NamedAssignee(st, id.v, w)
    else if id.KeyValues? then DestructuringPattern(c, st, formId, w, id.entries)
    else Refuse(st, NotAssignableMessage(id))
  }

  /** The declaration of `transpilingForVariableDeclaration` once the value `exp` is
      transpiled. */
  function Declare(c: Ctx, st: EnvState, keyword: Id, w: Writer, id: Form, exp: JsModule): (out: Run<JsModule>)
    requires Wf(st) && (id.CuSymbol? || id.KeyValues?)
    ensures Kept(st, out)
    decreases Size(id), 7
  {
    if AtReplTopLevel(st, c.replMode, 0) then ReplDeclare(c, st, keyword, w, id, exp)
    else LocalDeclare(c, st, keyword, w, id, exp)
  }

  /** A declaration anywhere else: `keyword assignee = exp`. */
  function LocalDeclare(c: Ctx, st: EnvState, keyword: Id, w: Writer, id: Form, exp: JsModule): (out: Run<JsModule>)
    requires Wf(st)
    ensures Kept(st, out)
    decreases Size(id), 6
  {
    var a := Assignee(c, st, keyword, w, id);
    if a.r.Err? then Abort(st, a)
    else Run(Ok(Concat([OfBody(keyword + " "), a.r.value, OfBody(" = "), exp])), a.st)
  }

  /** A declaration at the REPL's top level: a symbol is declared and assigned through the
      pseudo-global; a key-values form is destructured from a temporary holding `exp`. */
  function ReplDeclare(c: Ctx, st: EnvState, keyword: Id, w: Writer, id: Form, exp: JsModule): (out: Run<JsModule>)
    requires Wf(st) && (id.CuSymbol? || id.KeyValues?)
    ensures Kept(st, out)
    decreases Size(id), 5
  {
    if id.CuSymbol? then
      var t := TryToSet(st, id.v, w);
      if t.r.Err? then Abort(st, t) else Run(Ok(c.host.pseudoTopLevelAssignment(id.v, exp)), t.st)
    else
      var tmp := c.host.tmpVarOf(exp);
      ReplDestructureFrom(c, st, keyword, w, tmp.0, id.entries, 0, tmp.1)
  }

  /** The `const` and `let` writers: `transpilingForAssignment`'s checks, the value, then
      the declaration binding the name to `w`. */
  function Declaration(c: Ctx, st: EnvState, keyword: Id, w: Writer, args: seq<Form>): (out: Run<JsModule>)
    requires Wf(st)
    ensures Kept(st, out)
    decreases SizeAll(args) + 1, 7
  {
    if |args| >= 3 && args[2] != Undefined then Refuse(st, ArgumentCountMessage(keyword))
    else
      var id := Arg(args, 0);
      if !id.CuSymbol? && !id.KeyValues? then Refuse(st, NotAssignableMessage(id))
      else
        ArgSize(args, 0);
        ArgSize(args, 1);
        var e := Expr(c, st, Arg(args, 1));
        if e.r.Err? then Abort(st, e)
        else
          var d := Declare(c, e.st, keyword, w, id, e.r.value);
          Chain(st, e, d);
          d
  }

  /** The `assign` writer: `transpilingForAssignment`'s checks and the value; a symbol
      bound as a `Const` is refused. A key-values target is interpolated as the
      JavaScript array it is. */
  function AssignOf(c: Ctx, st: EnvState, args: seq<Form>): (out: Run<JsModule>)
    requires Wf(st)
    ensures Kept(st, out)
    decreases SizeAll(args) + 1, 7
  {
    if |args| >= 3 && args[2] != Undefined then Refuse(st, ArgumentCountMessage("assign"))
    else
      var id := Arg(args, 0);
      if !id.CuSymbol? && !id.KeyValues? then Refuse(st, NotAssignableMessage(id))
      else
        ArgSize(args, 1);
        var e := Expr(c, st, Arg(args, 1));
        if e.r.Err? then Abort(st, e)
        else if id.CuSymbol? && FindOf(e.st, id.v) == Some(Const) then FailAfter(st, e.st, NotLetMessage(id.v))
        else
          var target := if id.CuSymbol? then id.v else EntriesText(id.entries);
          Run(Ok(Concat([OfBody(target + " = "), e.r.value])), e.st)
  }

  /** The `return` writer. */
  function ReturnOf(c: Ctx, st: EnvState, args: seq<Form>): (out: Run<JsModule>)
    requires Wf(st)
    ensures Kept(st, out)
    decreases SizeAll(args) + 1, 7
  {
    if |args| == 0 then
      ProgressRefl(st);
      Run(Ok(OfBody("return")), st)
    else if |args| == 1 then
      SizeAllElement(args, 0);
      var e := Expr(c, st, args[0]);
      if e.r.Err? then Abort(st, e) else Run(Ok(Concat([OfBody("return "), e.r.value])), e.st)
    else Refuse(st, ReturnArityMessage)
  }

  /** The `when` writer. */
  function WhenOf(c: Ctx, st: EnvState, args: seq<Form>): (out: Run<JsModule>)
    requires Wf(st)
    ensures Kept(st, out)
    decreases SizeAll(args) + 1, 7
  {
    if Arg(args, 0) == Undefined then Refuse(st, NoWhenConditionMessage)
    else if |args| < 2 then Refuse(st, NoWhenStatementsMessage)
    else
      SizeAllElement(args, 0);
      RestSize(args, 1);
      var b := Expr(c, st, args[0]);
      if b.r.Err? then Abort(st, b)
      else
        var block := BlockFrom(c, b.st, args[1..], EmptyModule());
        Chain(st, b, block);
        if block.r.Err? then Abort(st, block)
        else Run(Ok(Concat([OfBody("if("), b.r.value, OfBody("){\n"), block.r.value, OfBody("\n}")])), block.st)
  }

  /** `transpiling1(formId, template)`: one expression, wrapped; extra arguments are
      refused only after the first one transpiled. */
  function Transpiling1Of(c: Ctx, st: EnvState, formId: Id, template: Template, args: seq<Form>): (out: Run<JsModule>)
    requires Wf(st)
    ensures Kept(st, out)
    decreases SizeAll(args) + 1, 7
  {
    ArgSize(args, 0);
    var a := Expr(c, st, Arg(args, 0));
    if a.r.Err? then Abort(st, a)
    else if |args| > 1 then FailAfter(st, a.st, ExactlyOneMessage(formId))
    else Run(Ok(ExtendBody(a.r.value, template.before, template.after)), a.st)
  }

  /** `transpiling2` with the operator template `(a op b)`. */
  function Transpiling2Of(c: Ctx, st: EnvState, op: JsSrc, args: seq<Form>): (out: Run<JsModule>)
    requires Wf(st)
    ensures Kept(st, out)
    decreases SizeAll(args) + 1, 7
  {
    ArgSize(args, 0);
    ArgSize(args, 1);
    var a := Expr(c, st, Arg(args, 0));
    if a.r.Err? then Abort(st, a)
    else
      var b := Expr(c, a.st, Arg(args, 1));
      Chain(st, a, b);
      if b.r.Err? then Abort(st, b)
      else Run(Ok(Concat([OfBody("("), a.r.value, OfBody(" " + op + " "), b.r.value, OfBody(")")])), b.st)
  }

  /** How the `if` writer refuses empty branches, after the partition succeeded. */
  function BranchesMessage(br: Branches): string
  {
    if |br.trues| < 1 then (if br.elseFound then NothingBeforeElseMessage else NoIfExpressionsMessage)
    else if br.elseFound then NothingAfterElseMessage
    else ElseMissingMessage
  }

  /** The `if` writer: the condition, then the partition at `else`; both branches must
      hold an expression. */
  function IfOf(c: Ctx, st: EnvState, args: seq<Form>): (out: Run<JsModule>)
    requires Wf(st)
    ensures Kept(st, out)
    decreases SizeAll(args) + 1, 7
  {
    ArgSize(args, 0);
    var b := Expr(c, st, Arg(args, 0));
    if b.r.Err? then Abort(st, b)
    else
      match PartitionElse(b.st, Rest(args, 1))
      case Err(e) => Run(Err(e), b.st)
      case Ok(br) =>
        if |br.trues| < 1 || |br.falses| < 1 then FailAfter(st, b.st, BranchesMessage(br))
        else IfBranches(c, st, b.st, b.r.value, args, br)
  }

  /** The two branches of an `if` whose condition is `cond`: a true branch of several
      expressions becomes a parenthesised comma expression. */
  function IfBranches(c: Ctx, st: EnvState, at: EnvState, cond: JsModule, args: seq<Form>, br: Branches): (out: Run<JsModule>)
    requires Wf(st) && Progress(st, at) && |at.scopes| == |st.scopes|
    requires PartitionElse(at, Rest(args, 1)) == Ok(br) && |br.trues| >= 1 && |br.falses| >= 1
    ensures Kept(st, out)
    decreases SizeAll(args) + 1, 6
  {
    RestSize(args, 1);
    var t := MapFrom(c, at, br.trues, []);
    ProgressTrans(st, at, t.st);
    if t.r.Err? then Abort(st, t)
    else
      var f := MapFrom(c, t.st, br.falses, []);
      ProgressTrans(st, t.st, f.st);
      if f.r.Err? then Abort(st, f)
      else
        var ifTrue := if |t.r.value| > 1 then ExtendBody(Joined(t.r.value, ", "), "(", ")") else t.r.value[0];
        Run(Ok(Concat([OfBody("("), cond, OfBody(" ? "), ifTrue, OfBody(" : "),
                       Joined(f.r.value, ", "), OfBody(")")])), f.st)
  }

  /** The safe library's `scope` writer: a scope of its own around a parameterless arrow
      function that is called at once. */
  function ScopeOf(c: Ctx, st: EnvState, args: seq<Form>): (out: Run<JsModule>)
    requires Wf(st)
    ensures Kept(st, out)
    decreases SizeAll(args) + 1, 7
  {
    var pushed := PushOf(st, false);
    var f := FnOf(c, pushed, ",", "scope", CuArray([]), args, false);
    Bracket(st, false, f);
    if f.r.Err? then Abort(st, f)
    else
      Popped(st, f.st, Ok(ExtendBody(f.r.value, "(\n", ")()")));
      Run(Ok(ExtendBody(f.r.value, "(\n", ")()")), PopOf(f.st))
  }

  /** `buildScope(prefix, id, isAsync)`: a parameterless arrow function called at once;
      `isAsync` is handed to `buildFn`. */
  function BuiltScopeOf(c: Ctx, st: EnvState, prefix: JsSrc, scopeId: Id, isAsync: bool, args: seq<Form>): (out: Run<JsModule>)
    requires Wf(st)
    ensures Kept(st, out)
    decreases SizeAll(args) + 1, 7
  {
    var f := FnOf(c, st, ".", scopeId, CuArray([]), args, isAsync);
    if f.r.Err? then Abort(st, f)
    else Run(Ok(ExtendBody(f.r.value, "(" + prefix, ")()")), f.st)
  }

  /** `buildFn`: the prelude, every statement but the last, and the last one returned; it
      must be an expression. `sep` is how the message prints a property-access head. */
  function FnOf(c: Ctx, st: EnvState, sep: string, formId: Id, params: Form, block: seq<Form>, isAsync: bool): (out: Run<JsModule>)
    requires Wf(st)
    ensures Kept(st, out)
    decreases SizeAll(block), 6
  {
    var p := Prelude(st, formId, params, block, isAsync);
    if p.r.Err? then Abort(st, p)
    else FnBody(c, st, p.st, sep, formId, p.r.value, block)
  }

  /** The part of `buildFn` after its prelude: every statement but the last after `head`,
      then the last one returned. */
  function FnBody(c: Ctx, st: EnvState, at: EnvState, sep: string, formId: Id, head: JsModule, block: seq<Form>): (out: Run<JsModule>)
    requires Wf(st) && Progress(st, at) && |at.scopes| == |st.scopes| + 1 && |block| >= 1
    ensures Kept(st, out)
    decreases SizeAll(block), 5
  {
    var n := |block|;
    SizeAllDropLast(block);
    var body := IndentedFrom(c, at, block[..n - 1], head);
    ProgressTrans(st, at, body.st);
    if body.r.Err? then Abort(st, body)
    else FnReturn(c, st, body.st, sep, formId, body.r.value, block[n - 1])
  }

  /** The last statement of a function body, returned, and the function's scope popped. */
  function FnReturn(c: Ctx, st: EnvState, at: EnvState, sep: string, formId: Id, body: JsModule, last: Form): (out: Run<JsModule>)
    requires Wf(st) && Progress(st, at) && |at.scopes| == |st.scopes| + 1
    ensures Kept(st, out)
    decreases Size(last), 4, 1
  {
    if IsNonExpressionCall(at, last) then
      NonExpressionCallHead(at, last);
      FailAfter(st, at, LastStatementMessage(formId, ShowHead(last.items[0], sep)))
    else LastReturn(c, st, at, body, last)
  }

  /** The `return` of a function whose last statement is an expression: the function's
      scope is popped once it is transpiled. */
  function LastReturn(c: Ctx, st: EnvState, at: EnvState, body: JsModule, last: Form): (out: Run<JsModule>)
    requires Wf(st) && Progress(st, at) && |at.scopes| == |st.scopes| + 1
    ensures Kept(st, out)
    decreases Size(last), 4, 0
  {
    var e := Expr(c, at, last);
    ProgressTrans(st, at, e.st);
    if e.r.Err? then Abort(st, e)
    else
      var result := Concat([body, OfBody("  return "), e.r.value, OfBody(";\n")]);
      Popped(st, e.st, Ok(ExtendBody(result, "", "}")));
      Run(Ok(ExtendBody(result, "", "}")), PopOf(e.st))
  }

  /** `buildProcedure`: the prelude and every statement, without a `return`. */
  function ProcedureOf(c: Ctx, st: EnvState, formId: Id, params: Form, block: seq<Form>, isAsync: bool): (out: Run<JsModule>)
    requires Wf(st)
    ensures Kept(st, out)
    decreases SizeAll(block), 6
  {
    var p := Prelude(st, formId, params, block, isAsync);
    if p.r.Err? then Abort(st, p)
    else ProcedureBody(c, st, p.st, p.r.value, block)
  }

  /** The part of `buildProcedure` after its prelude: every statement after `head`, the
      body closed and the procedure's scope popped. */
  function ProcedureBody(c: Ctx, st: EnvState, at: EnvState, head: JsModule, block: seq<Form>): (out: Run<JsModule>)
    requires Wf(st) && Progress(st, at) && |at.scopes| == |st.scopes| + 1
    ensures Kept(st, out)
    decreases SizeAll(block), 5
  {
    var body := IndentedFrom(c, at, block, head);
    ProgressTrans(st, at, body.st);
    if body.r.Err? then Abort(st, body)
    else
      Popped(st, body.st, Ok(ExtendBody(body.r.value, "", "}")));
      Run(Ok(ExtendBody(body.r.value, "", "}")), PopOf(body.st))
  }

  /** The `array` writer. */
  function ArrayOf(c: Ctx, st: EnvState, args: seq<Form>): (out: Run<JsModule>)
    requires Wf(st)
    ensures Kept(st, out)
    decreases SizeAll(args) + 1, 7
  {
    var m := MapFrom(c, st, args, []);
    if m.r.Err? then Abort(st, m) else Run(Ok(ExtendBody(Joined(m.r.value, ","), "[", "]")), m.st)
  }

  /** The body of a loop: the statements transpiled in the inherited scope the writer
      pushed, the header put before them in braces, and that scope popped. */
  function LoopBody(c: Ctx, st: EnvState, at: EnvState, header: JsModule, forms: seq<Form>): (out: Run<JsModule>)
    requires Wf(st) && Progress(st, at) && |at.scopes| == |st.scopes| + 1
    ensures Kept(st, out)
    decreases SizeAll(forms), 5
  {
    var block := BlockFrom(c, at, forms, EmptyModule());
    ProgressTrans(st, at, block.st);
    if block.r.Err? then Abort(st, block)
    else
      var src := Concat([header, OfBody("{"), block.r.value, OfBody("}")]);
      Popped(st, block.st, Ok(src));
      Run(Ok(src), PopOf(block.st))
  }

  /** The `while` writer: the condition is checked and transpiled before the body's
      inherited scope is pushed. */
  function WhileOf(c: Ctx, st: EnvState, args: seq<Form>): (out: Run<JsModule>)
    requires Wf(st)
    ensures Kept(st, out)
    decreases SizeAll(args) + 1, 7
  {
    if Arg(args, 0) == Undefined then Refuse(st, NoWhileConditionMessage)
    else if IsNonExpressionCall(st, args[0]) then
      NonExpressionCallHead(st, args[0]);
      Refuse(st, ConditionStatementMessage(ShowSymbolAccess(args[0].items[0])))
    else WhileLoop(c, st, args)
  }

  /** The condition of a `while`, then its body in an inherited scope. */
  function WhileLoop(c: Ctx, st: EnvState, args: seq<Form>): (out: Run<JsModule>)
    requires Wf(st) && |args| >= 1
    ensures Kept(st, out)
    decreases SizeAll(args) + 1, 6
  {
    SizeAllElement(args, 0);
    RestSize(args, 1);
    var b := Expr(c, st, args[0]);
    if b.r.Err? then Abort(st, b)
    else
      PushedAfter(st, b.st, true);
      LoopBody(c, st, PushOf(b.st, true), Concat([OfBody("while("), b.r.value, OfBody(")")]), Rest(args, 1))
  }

  /** The `for` writer: the inherited scope is pushed first, then the three header forms
      are checked and transpiled, then the body. */
  function ForOf(c: Ctx, st: EnvState, args: seq<Form>): (out: Run<JsModule>)
    requires Wf(st)
    ensures Kept(st, out)
    decreases SizeAll(args) + 1, 7
  {
    var pushed := PushOf(st, true);
    PushProgress(st, true);
    if Arg(args, 0) == Undefined then FailAfter(st, pushed, NoForInitMessage)
    else if Arg(args, 1) == Undefined then FailAfter(st, pushed, NoForConditionMessage)
    else if Arg(args, 2) == Undefined then FailAfter(st, pushed, NoForFinalMessage)
    else if IsNonExpressionCall(pushed, args[1]) then
      NonExpressionCallHead(pushed, args[1]);
      FailAfter(st, pushed, ConditionStatementMessage(ShowSymbolAccess(args[1].items[0])))
    else ForHeader(c, st, pushed, args)
  }

  /** The initialisation of a `for`, transpiled in the scope it pushed. */
  function ForHeader(c: Ctx, st: EnvState, pushed: EnvState, args: seq<Form>): (out: Run<JsModule>)
    requires Wf(st) && Progress(st, pushed) && |pushed.scopes| == |st.scopes| + 1 && |args| >= 3
    ensures Kept(st, out)
    decreases SizeAll(args) + 1, 6
  {
    SizeAllElement(args, 0);
    var i := Expr(c, pushed, args[0]);
    ProgressTrans(st, pushed, i.st);
    if i.r.Err? then Abort(st, i)
    else ForCondition(c, st, i.st, Concat([OfBody("for("), i.r.value, OfBody(";")]), args)
  }

  /** The condition of a `for` after its `header`. */
  function ForCondition(c: Ctx, st: EnvState, at: EnvState, header: JsModule, args: seq<Form>): (out: Run<JsModule>)
    requires Wf(st) && Progress(st, at) && |at.scopes| == |st.scopes| + 1 && |args| >= 3
    ensures Kept(st, out)
    decreases SizeAll(args) + 1, 5
  {
    SizeAllElement(args, 1);
    var b := Expr(c, at, args[1]);
    ProgressTrans(st, at, b.st);
    if b.r.Err? then Abort(st, b)
    else ForFinal(c, st, b.st, Concat([header, b.r.value, OfBody(";")]), args)
  }

  /** The final expression of a `for` after its `header`, then its body. */
  function ForFinal(c: Ctx, st: EnvState, at: EnvState, header: JsModule, args: seq<Form>): (out: Run<JsModule>)
    requires Wf(st) && Progress(st, at) && |at.scopes| == |st.scopes| + 1 && |args| >= 3
    ensures Kept(st, out)
    decreases SizeAll(args) + 1, 4
  {
    SizeAllElement(args, 2);
    RestSize(args, 3);
    var f := Expr(c, at, args[2]);
    ProgressTrans(st, at, f.st);
    if f.r.Err? then Abort(st, f)
    else LoopBody(c, st, f.st, Concat([header, f.r.value, OfBody(")")]), Rest(args, 3))
  }

  /** The `forEach` writer: the loop variable is declared as a `Const` in the body's
      inherited scope. */
  function ForEachOf(c: Ctx, st: EnvState, args: seq<Form>): (out: Run<JsModule>)
    requires Wf(st)
    ensures Kept(st, out)
    decreases SizeAll(args) + 1, 7
  {
    var pushed := PushOf(st, true);
    PushProgress(st, true);
    if Arg(args, 0) == Undefined then FailAfter(st, pushed, NoForEachVariableMessage)
    else ForEachVariable(c, st, pushed, args)
  }

  /** The loop variable of a `forEach`, declared in the scope it pushed, then the rest. */
  function ForEachVariable(c: Ctx, st: EnvState, pushed: EnvState, args: seq<Form>): (out: Run<JsModule>)
    requires Wf(st) && Progress(st, pushed) && |pushed.scopes| == |st.scopes| + 1 && Arg(args, 0) != Undefined
    ensures Kept(st, out)
    decreases SizeAll(args) + 1, 6
  {
    ArgSize(args, 0);
    var a := Assignee(c, pushed, "forEach", Const, args[0]);
    ProgressTrans(st, pushed, a.st);
    if a.r.Err? then Abort(st, a)
    else if Arg(args, 1) == Undefined then FailAfter(st, a.st, NoIterableMessage)
    else ForEachRest(c, st, a.st, a.r.value, args)
  }

  /** The iterable of a `forEach` whose variable `assignee` is declared, then its body. */
  function ForEachRest(c: Ctx, st: EnvState, at: EnvState, assignee: JsModule, args: seq<Form>): (out: Run<JsModule>)
    requires Wf(st) && Progress(st, at) && |at.scopes| == |st.scopes| + 1 && |args| >= 2
    ensures Kept(st, out)
    decreases SizeAll(args) + 1, 5
  {
    SizeAllElement(args, 1);
    RestSize(args, 2);
    var it := Expr(c, at, args[1]);
    ProgressTrans(st, at, it.st);
    if it.r.Err? then Abort(st, it)
    else
      LoopBody(c, st, it.st, Concat([OfBody("for(const "), assignee, OfBody(" of "), it.r.value, OfBody(")")]),
               Rest(args, 2))
  }

  /** The `recursive` writer: every name is registered before any member is transpiled. */
  function RecursiveOf(c: Ctx, st: EnvState, args: seq<Form>): (out: Run<JsModule>)
    requires Wf(st)
    ensures Kept(st, out)
    decreases SizeAll(args) + 1, 7
  {
    if |args| < 1 then Refuse(st, NoRecursiveMessage)
    else
      var reg := RegisterFrom(st, args);
      if reg.r.Err? then Abort(st, reg)
      else
        var block := BlockFrom(c, reg.st, args, EmptyModule());
        Chain(st, reg, block);
        block
  }

  /** A direct writer applied to the unevaluated argument forms. */
  function InvokeDirect(c: Ctx, st: EnvState, kind: DirectKind, args: seq<Form>): (out: Run<JsModule>)
    requires Wf(st)
    ensures Kept(st, out)
    decreases SizeAll(args) + 1, 8
  {
    match kind
    case ConstDecl => Declaration(c, st, "const", Const, args)
    case LetDecl => Declaration(c, st, "let", Var, args)
    case Assign => AssignOf(c, st, args)
    case Return => ReturnOf(c, st, args)
    case When => WhenOf(c, st, args)
    case Mutation(formId, whenTopRepl, otherwise) =>
      ProgressRefl(st);
      Run(MutationOf(c, st, formId, whenTopRepl, otherwise, args), st)
    case Unary(unaryId, template) => Transpiling1Of(c, st, unaryId, template, args)
    case Binary(op) => Transpiling2Of(c, st, op, args)
    case If => IfOf(c, st, args)
    case Scope => ScopeOf(c, st, args)
    case BuiltScope(prefix, scopeId, isAsync) => BuiltScopeOf(c, st, prefix, scopeId, isAsync, args)
    case Fn =>
      RestSize(args, 1);
      FnOf(c, st, ",", "fn", Arg(args, 0), Rest(args, 1), false)
    case Procedure =>
      RestSize(args, 1);
      ProcedureOf(c, st, "procedure", Arg(args, 0), Rest(args, 1), false)
    case ArrayLiteral => ArrayOf(c, st, args)
    case While => WhileOf(c, st, args)
    case For => ForOf(c, st, args)
    case ForEach => ForEachOf(c, st, args)
    case Recursive => RecursiveOf(c, st, args)
    case External(name) =>
      ProgressRefl(st);
      Run(c.host.external(name, args), st)
  }
}
