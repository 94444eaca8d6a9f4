/** The data model of the compiler: forms (the reader's output and the transpiler's
    input), writers (what an identifier resolves to) and the error kinds. */
module Types {
  import opened Wrappers
  import opened Strings
  import Json

  type Id = string
  type JsSrc = string

  const MinInt32: int := -0x8000_0000
  const MaxInt32: int := 0x7FFF_FFFF

  type Int32 = v: int | MinInt32 <= v <= MaxInt32

  /** A `PropertyAccess` always has at least two segments (`a.b`). */
  type Segments = s: seq<Id> | |s| >= 2 witness ["", ""]

  /** One parsed syntactic unit. `CuArray` is a call form or nested list; `Float64` keeps
      the numeral's decimal text; `KeyValues` is the object literal (the printer's
      `LiteralObject`). */
  datatype Form =
    | CuArray(items: seq<Form>)
    | Integer32(i: Int32)
    | Float64(text: string)
    | CuString(s: string)
    | Bool(b: bool)
    | Undefined
    | CuSymbol(v: Id)
    | PropertyAccess(segments: Segments)
    | LiteralArray(elements: seq<Form>)
    | KeyValues(entries: seq<KeyValue>)

  /** An entry of a key-values form: the shorthand `{ k }` or a `[key, value]` pair. */
  datatype KeyValue = Shorthand(sym: Id) | Pair(key: Form, value: Form)

  /** Every variant except `CuArray` is an atom (`Atom` in the source). */
  predicate IsAtom(f: Form)
  {
    !f.CuArray?
  }

  /** `isCuSymbol`: true exactly on symbols. The source also guards against `undefined`,
      which is the `Undefined` atom here. */
  function IsCuSymbol(f: Form): (b: bool)
    ensures b <==> f.CuSymbol?
    ensures f == Undefined ==> !b
  {
    match f
    case CuSymbol(_) => true
    case _ => false
  }

  /** `showSymbolAccess`: the source text of a symbol or a property access. */
  function ShowSymbolAccess(f: Form): Id
    requires f.CuSymbol? || f.PropertyAccess?
  {
    if f.CuSymbol? then f.v else Join(f.segments, ".")
  }

  /** A JavaScript template that wraps one piece of source: `before + x + after`. */
  datatype Template = Template(before: JsSrc, after: JsSrc)

  /** The direct writers of the core, one per writer object of the source. Writers that
      are identical objects in the source are equal values here. `External` stands for a
      direct writer whose source is not part of this model (`break`, `continue`, `import`
      and the library writers); the environment's host gives its behaviour. */
  datatype DirectKind =
    | ConstDecl
    | LetDecl
    | Assign
    | Return
    | When
    | Mutation(formId: Id, whenTopRepl: Template, otherwise: Template)
    | Unary(unaryId: Id, template: Template)
    | Binary(op: JsSrc)
    | If
    | Scope
    | BuiltScope(prefix: JsSrc, scopeId: Id, isAsync: bool)
    | Fn
    | Procedure
    | ArrayLiteral
    | While
    | For
    | ForEach
    | Recursive
    | External(name: Id)

  /** What an identifier resolves to. The first four carry the source's numeric tags
      0..3; `Namespace` groups other writers; `FunctionWithEnv` is a function that takes
      the compile-time environment as its receiver. */
  datatype Writer =
    | ContextualKeyword(companion: Id)
    | Var
    | Const
    | RecursiveConst
    | Namespace(members: map<Id, Writer>)
    | FunctionWithEnv(fnName: Id)
    | DirectWriter(kind: DirectKind)

  /** The `t` field of a writer object; functions have none. */
  function Tag(w: Writer): Option<nat>
  {
    match w
    case ContextualKeyword(_) => Some(0)
    case Var => Some(1)
    case Const => Some(2)
    case RecursiveConst => Some(3)
    case _ => None
  }

  function AContextualKeyword(companion: Id): (w: Writer)
    ensures Tag(w) == Some(0) && w.companion == companion
  {
    ContextualKeyword(companion)
  }

  function AVar(): (w: Writer)
    ensures Tag(w) == Some(1)
  {
    Var
  }

  function AConst(): (w: Writer)
    ensures Tag(w) == Some(2)
  {
    Const
  }

  function ARecursiveConst(): (w: Writer)
    ensures Tag(w) == Some(3)
  {
    RecursiveConst
  }

  /** `isContextualKeyword`: the tag is 0. */
  function IsContextualKeyword(w: Writer): (b: bool)
    ensures b <==> w.ContextualKeyword?
  {
    Tag(w) == Some(0)
  }

  /** `isVar`: the tag is 1. */
  function IsVar(w: Writer): (b: bool)
    ensures b <==> w == Var
  {
    Tag(w) == Some(1)
  }

  /** `isConst`: the tag is 2. */
  function IsConst(w: Writer): (b: bool)
    ensures b <==> w == Const
  {
    Tag(w) == Some(2)
  }

  /** `isRecursiveConst`: the tag is 3. */
  function IsRecursiveConst(w: Writer): (b: bool)
    ensures b <==> w == RecursiveConst
  {
    Tag(w) == Some(3)
  }

  /** Each tag predicate holds of its own constructor's output and of no other one's. */
  lemma TagPredicatesExclusive(companion: Id)
    ensures IsContextualKeyword(AContextualKeyword(companion))
    ensures !IsVar(AContextualKeyword(companion)) && !IsConst(AContextualKeyword(companion))
    ensures !IsRecursiveConst(AContextualKeyword(companion))
    ensures IsVar(AVar()) && !IsContextualKeyword(AVar()) && !IsConst(AVar()) && !IsRecursiveConst(AVar())
    ensures IsConst(AConst()) && !IsContextualKeyword(AConst()) && !IsVar(AConst()) && !IsRecursiveConst(AConst())
    ensures IsRecursiveConst(ARecursiveConst()) && !IsContextualKeyword(ARecursiveConst())
    ensures !IsVar(ARecursiveConst()) && !IsConst(ARecursiveConst())
  {
  }

  /** The error of the reader. */
  datatype ParseError = ParseError(message: string)

  /** The error of the transpiler. */
  datatype TranspileError = TranspileError(message: string)

  /** A measure that shrinks from a form to each of its parts. */
  function Size(f: Form): (n: nat)
    ensures n >= 1
  {
    match f
    case CuArray(items) => 1 + SizeAll(items)
    case LiteralArray(elements) => 1 + SizeAll(elements)
    case KeyValues(entries) => 1 + SizeEntries(entries)
    case _ => 1
  }

  function SizeAll(fs: seq<Form>): nat
  {
    if fs == [] then 0 else Size(fs[0]) + SizeAll(fs[1..])
  }

  function SizeEntries(kvs: seq<KeyValue>): nat
  {
    if kvs == [] then 0 else SizeEntry(kvs[0]) + SizeEntries(kvs[1..])
  }

  function SizeEntry(kv: KeyValue): nat
  {
    match kv
    case Shorthand(_) => 1
    case Pair(k, v) => 1 + Size(k) + Size(v)
  }

  lemma {:induction false} SizeAllElement(fs: seq<Form>, k: nat)
    requires k < |fs|
    ensures Size(fs[k]) <= SizeAll(fs)
  {
    if k > 0 {
      SizeAllElement(fs[1..], k - 1);
    }
  }

  lemma SizeAllSlice(fs: seq<Form>, lo: nat, hi: nat)
    requires lo <= hi <= |fs|
    ensures SizeAll(fs[lo..hi]) <= SizeAll(fs)
    ensures lo < hi ==> SizeAll(fs[lo + 1..hi]) < SizeAll(fs)
  {
    assert fs == fs[..lo] + fs[lo..hi] + fs[hi..];
    SizeAllAppend(fs[..lo] + fs[lo..hi], fs[hi..]);
    SizeAllAppend(fs[..lo], fs[lo..hi]);
    if lo < hi {
      assert fs[lo..hi] == [fs[lo]] + fs[lo + 1..hi];
      SizeAllAppend([fs[lo]], fs[lo + 1..hi]);
      assert SizeAll([fs[lo]]) == Size(fs[lo]) + SizeAll([]);
    }
  }

  /** The size of a concatenation is the sum of the sizes. */
  lemma {:induction false} SizeAllAppend(a: seq<Form>, b: seq<Form>)
    ensures SizeAll(a + b) == SizeAll(a) + SizeAll(b)
  {
    if a != [] {
      assert (a + b)[1..] == a[1..] + b;
      SizeAllAppend(a[1..], b);
    } else {
      assert a + b == b;
    }
  }

  lemma {:induction false} SizeAllDropLast(fs: seq<Form>)
    requires |fs| >= 1
    ensures SizeAll(fs[..|fs| - 1]) + Size(fs[|fs| - 1]) == SizeAll(fs)
  {
    if |fs| > 1 {
      SizeAllDropLast(fs[1..]);
      assert fs[1..][..|fs| - 2] == fs[..|fs| - 1][1..];
    }
  }

  lemma {:induction false} SizeEntryBound(kvs: seq<KeyValue>, k: nat)
    requires k < |kvs|
    ensures SizeEntry(kvs[k]) <= SizeEntries(kvs)
  {
    if k > 0 {
      SizeEntryBound(kvs[1..], k - 1);
    }
  }

  lemma {:induction false} SizeEntriesElement(kvs: seq<KeyValue>, k: nat)
    requires k < |kvs| && kvs[k].Pair?
    ensures Size(kvs[k].key) < SizeEntries(kvs) && Size(kvs[k].value) < SizeEntries(kvs)
  {
    if k > 0 {
      SizeEntriesElement(kvs[1..], k - 1);
    }
  }

  /** `JSON.stringify(form)` as it appears in error messages: atoms of kind
      Integer32/Symbol/PropertyAccess are records `{"t":…,"v":…}`, `undefined` prints as
      `undefined` at the top and as `null` inside an array. */
  function StringifyForm(f: Form): (r: string)
    ensures f == Undefined ==> r == "undefined"
    ensures f.CuString? ==> r == Json.Quote(f.s)
    ensures f.CuArray? ==> |r| >= 2 && r[0] == '[' && r[|r| - 1] == ']'
    ensures f.Integer32? || f.CuSymbol? || f.PropertyAccess? || f.LiteralArray? || f.KeyValues?
      ==> "{\"t\":\"" <= r && r[|r| - 1] == '}'
  {
    StringifyValueShape(f);
    if f == Undefined then "undefined" else StringifyValue(f)
  }

  /** The outer shape of a stringified value, by kind. */
  lemma StringifyValueShape(f: Form)
    ensures var r := StringifyValue(f);
      && (f.CuString? ==> r == Json.Quote(f.s))
      && (f.CuArray? ==> |r| >= 2 && r[0] == '[' && r[|r| - 1] == ']')
      && (f.Integer32? || f.CuSymbol? || f.PropertyAccess? || f.LiteralArray? || f.KeyValues?
          ==> "{\"t\":\"" <= r && r[|r| - 1] == '}')
  {
    var head := "{\"t\":\"";
    match f
    case CuArray(items) =>
      var inner := Join(seq(|items|, k requires 0 <= k < |items| => StringifyValue(items[k])), ",");
      assert StringifyValue(f) == "[" + inner + "]";
    case Integer32(i) =>
      RecordShape(head, "Integer32\",\"v\":" + ShowInt(i));
    case CuSymbol(v) =>
      RecordShape(head, "Symbol\",\"v\":" + Json.Quote(v));
    case PropertyAccess(segments) =>
      RecordShape(head, "PropertyAccess\",\"v\":[" + Join(seq(|segments|, k requires 0 <= k < |segments| => Json.Quote(segments[k])), ",") + "]");
    case LiteralArray(elements) =>
      RecordShape(head, "LiteralArray\",\"v\":[" + Join(seq(|elements|, k requires 0 <= k < |elements| => StringifyValue(elements[k])), ",") + "]");
    case KeyValues(entries) =>
      RecordShape(head, "KeyValues\",\"v\":[" + Join(seq(|entries|, k requires 0 <= k < |entries| => StringifyEntry(entries[k])), ",") + "]");
    case _ =>
  }

  /** A record `head + body + "}"` starts with `head` and ends with `}`. */
  lemma RecordShape(head: string, body: string)
    ensures head <= head + body + "}" && (head + body + "}")[|head + body + "}"| - 1] == '}'
  {
  }

  function StringifyValue(f: Form): string
  {
    match f
    case CuArray(items) => "[" + Join(seq(|items|, k requires 0 <= k < |items| => StringifyValue(items[k])), ",") + "]"
    case Integer32(i) => "{\"t\":\"Integer32\",\"v\":" + ShowInt(i) + "}"
    case Float64(text) => text
    case CuString(s) => Json.Quote(s)
    case Bool(b) => if b then "true" else "false"
    case Undefined => "null"
    case CuSymbol(v) => "{\"t\":\"Symbol\",\"v\":" + Json.Quote(v) + "}"
    case PropertyAccess(segments) =>
      "{\"t\":\"PropertyAccess\",\"v\":[" + Join(seq(|segments|, k requires 0 <= k < |segments| => Json.Quote(segments[k])), ",") + "]}"
    case LiteralArray(elements) =>
      "{\"t\":\"LiteralArray\",\"v\":[" + Join(seq(|elements|, k requires 0 <= k < |elements| => StringifyValue(elements[k])), ",") + "]}"
    case KeyValues(entries) =>
      "{\"t\":\"KeyValues\",\"v\":[" + Join(seq(|entries|, k requires 0 <= k < |entries| => StringifyEntry(entries[k])), ",") + "]}"
  }

  function StringifyEntry(kv: KeyValue): string
  {
    match kv
    case Shorthand(sym) => "{\"t\":\"Symbol\",\"v\":" + Json.Quote(sym) + "}"
    case Pair(k, v) => "[" + StringifyValue(k) + "," + StringifyValue(v) + "]"
  }

  /** The value an entry of a key-values form is at run time: a shorthand is its symbol,
      a pair the two-element array `[key, value]`. */
  function EntryForm(kv: KeyValue): (f: Form)
    ensures Size(f) == SizeEntry(kv)
  {
    match kv
    case Shorthand(s) => CuSymbol(s)
    case Pair(k, v) =>
      assert SizeAll([k, v]) == Size(k) + SizeAll([v]);
      assert SizeAll([v]) == Size(v) + SizeAll([]);
      CuArray([k, v])
  }
}
