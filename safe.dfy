/** The safe library (`lib/base/safe.ts`): its scope of writers, the messages of its
    writers, the split of an `if` form's branches at `else`, and the text an `assign`
    target that is not a symbol turns into. The writers themselves are specified in
    `TranspileSpec`. */
module Safe {
  import opened Wrappers
  import opened Strings
  import opened Types
  import opened Environment
  import opened Common

  /** `Safe.__else`: the contextual keyword `else`, which only has a meaning inside `if`. */
  const ElseWriter: Writer := ContextualKeyword("if")

  /** `safe()`: the writers the safe library defines, by name. */
  function SafeScope(): (scope: map<Id, Writer>)
    ensures forall id | id in scope :: scope[id].DirectWriter? || (id == "else" && IsContextualKeyword(scope[id]))
    ensures "else" in scope && scope["else"] == AContextualKeyword("if")
    ensures "const" in scope && scope["const"] == DirectWriter(ConstDecl)
    ensures "let" in scope && scope["let"] == DirectWriter(LetDecl)
    ensures "if" in scope && scope["if"] == DirectWriter(If)
  {
    map[
      "plusF" := DirectWriter(Binary("+")),
      "minusF" := DirectWriter(Binary("-")),
      "timesF" := DirectWriter(Binary("*")),
      "dividedByF" := DirectWriter(Binary("/")),
      "equals" := DirectWriter(Binary("===")),
      "notEquals" := DirectWriter(Binary("!==")),
      "isLessThan" := DirectWriter(Binary("<")),
      "isLessThanOrEquals" := DirectWriter(Binary("<=")),
      "isGreaterThan" := DirectWriter(Binary(">")),
      "isGreaterThanOrEquals" := DirectWriter(Binary(">=")),
      "and" := DirectWriter(Binary("&&")),
      "or" := DirectWriter(Binary("||")),
      "not" := DirectWriter(Unary("not", Template("!(", ")"))),
      "const" := DirectWriter(ConstDecl),
      "let" := DirectWriter(LetDecl),
      "assign" := DirectWriter(Assign),
      "scope" := DirectWriter(Scope),
      "if" := DirectWriter(If),
      "else" := ElseWriter,
      "fn" := DirectWriter(Fn),
      "procedure" := DirectWriter(Procedure),
      "return" := DirectWriter(Return),
      "when" := DirectWriter(When),
      "incrementF" := IncrementF,
      "decrementF" := DecrementF,
      "array" := DirectWriter(ArrayLiteral)
    ]
  }

  const ReturnArityMessage: string := "`return` must receive at most one expression!"
  const NoWhenConditionMessage: string := "No expressions given to a `when` statement!"
  const NoWhenStatementsMessage: string := "No statements given to a `when` statement!"
  const ElseTwiceMessage: string := "`else` is specified more than once in an `if` expression!"
  const NothingBeforeElseMessage: string := "No expressions specified before `else`!"
  const NoIfExpressionsMessage: string := "No expressions given to an `if` expression!"
  const NothingAfterElseMessage: string := "No expressions specified after `else`!"
  const ElseMissingMessage: string := "`else` not specified for an `if` expression!"

  function NotLetMessage(id: Id): string
  {
    "Variable \"" + id + "\" is NOT declared by `let`!"
  }

  /** A branch form of an `if` that is the `else` keyword: a symbol that finds the `else`
      writer. */
  function IsElse(st: EnvState, f: Form): (b: bool)
    ensures b ==> (f.CuSymbol? && FindOf(st, f.v).Some? && IsContextualKeyword(FindOf(st, f.v).value)
                   && FindOf(st, f.v).value.companion == "if")
    ensures !f.CuSymbol? ==> !b
  {
    f.CuSymbol? && FindOf(st, f.v) == Some(ElseWriter)
  }

  /** The position of the first `else` among `forms`. */
  function ElseIndex(st: EnvState, forms: seq<Form>): (r: Option<nat>)
    ensures r.Some? ==> r.value < |forms| && IsElse(st, forms[r.value])
    ensures r.Some? ==> forall j :: 0 <= j < r.value ==> !IsElse(st, forms[j])
    ensures r.None? ==> forall j :: 0 <= j < |forms| ==> !IsElse(st, forms[j])
    decreases |forms|
  {
    if forms == [] then None
    else if IsElse(st, forms[0]) then Some(0)
    else
      match ElseIndex(st, forms[1..])
      case Some(k) => Some(k + 1)
      case None => None
  }

  /** The forms of an `if` after its condition, split at `else`. */
  datatype Branches = Branches(trues: seq<Form>, falses: seq<Form>, elseFound: bool)

  /** The partition loop of the `if` writer: forms before the `else` go to the true
      branch, forms after it to the false branch, and a second `else` is an error. */
  function PartitionElse(st: EnvState, forms: seq<Form>): (r: Result<Branches, TranspileError>)
    ensures r.Ok? ==> SizeAll(r.value.trues) <= SizeAll(forms) && SizeAll(r.value.falses) <= SizeAll(forms)
  {
    match ElseIndex(st, forms)
    case None => Ok(Branches(forms, [], false))
    case Some(k) =>
      match ElseIndex(st, forms[k + 1..])
      case Some(_) => Err(TranspileError(ElseTwiceMessage))
      case None =>
        SizeAllSlice(forms, 0, k);
        SizeAllSlice(forms, k, |forms|);
        assert forms[0..k] == forms[..k] && forms[k + 1..|forms|] == forms[k + 1..];
        Ok(Branches(forms[..k], forms[k + 1..], true))
  }

  /** The partition fails exactly when two forms are `else`; otherwise neither branch
      holds an `else`, and the branches with the `else` between them are the forms. */
  lemma PartitionElseSplits(st: EnvState, forms: seq<Form>)
    ensures PartitionElse(st, forms).Err? <==>
      exists i, j :: 0 <= i < j < |forms| && IsElse(st, forms[i]) && IsElse(st, forms[j])
    ensures PartitionElse(st, forms).Err? ==> PartitionElse(st, forms).error == TranspileError(ElseTwiceMessage)
    ensures var r := PartitionElse(st, forms);
      r.Ok? ==>
        && (forall k :: 0 <= k < |r.value.trues| ==> !IsElse(st, r.value.trues[k]))
        && (forall k :: 0 <= k < |r.value.falses| ==> !IsElse(st, r.value.falses[k]))
        && (r.value.elseFound <==> exists k :: 0 <= k < |forms| && IsElse(st, forms[k]))
        && (!r.value.elseFound ==> r.value.trues == forms && r.value.falses == [])
        && (r.value.elseFound ==>
              |r.value.trues| < |forms| && IsElse(st, forms[|r.value.trues|])
              && forms == r.value.trues + [forms[|r.value.trues|]] + r.value.falses)
  {
    var r := PartitionElse(st, forms);
    match ElseIndex(st, forms)
    case None =>
    case Some(k) =>
      var tail := forms[k + 1..];
      match ElseIndex(st, tail)
      case Some(m) =>
        assert IsElse(st, forms[k + 1 + m]);
      case None =>
        assert forms == forms[..k] + [forms[k]] + tail;
        forall m | 0 <= m < |r.value.falses|
          ensures !IsElse(st, r.value.falses[m])
        {
          assert r.value.falses[m] == tail[m];
        }
  }

  /** The text of a form's JavaScript value where an array prints its elements: arrays
      join their elements with `,`, `undefined` prints nothing, strings, booleans and
      numbers print their text, every other value is an object. */
  function ElementText(f: Form): string
    decreases Size(f), 0
  {
    match f
    case CuArray(items) => ElementsText(items)
    case Undefined => ""
    case CuString(s) => s
    case Bool(b) => if b then "true" else "false"
    case Float64(text) => text
    case _ => "[object Object]"
  }

  function ElementsText(items: seq<Form>): string
    decreases SizeAll(items), 1
  {
    if items == [] then ""
    else if |items| == 1 then ElementText(items[0])
    else ElementText(items[0]) + "," + ElementsText(items[1..])
  }

  /** `${id.v}` for a key-values form: the entry array printed by `Array.prototype.toString`,
      where a shorthand is an object and a pair a two-element array. */
  function EntriesText(entries: seq<KeyValue>): string
  {
    if entries == [] then ""
    else
      var head := match entries[0]
        case Shorthand(_) => "[object Object]"
        case Pair(k, v) => ElementText(k) + "," + ElementText(v);
      if |entries| == 1 then head else head + "," + EntriesText(entries[1..])
  }
}
