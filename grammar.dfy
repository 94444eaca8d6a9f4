/** The reader: the token regular expression of `src/grammar.ts`, the classification of
    one token as an atom, and the recursive descent `form`/`list`/`atom` over a token
    cursor. The spec functions `FormAt`/`ListAt`/`ItemsAt` describe what reading from a
    position yields; the methods of the same names walk a `Scanner` and are proved to
    compute them. */
module Grammar {
  import opened Wrappers
  import opened Strings
  import opened Types
  import Json

  // ---------------------------------------------------------------------------------
  // The token regular expression `[\s,]*(special|"quoted"?|nonSpecial)`.
  // ---------------------------------------------------------------------------------

  /** JavaScript's `\s`: the white space and line terminator characters. */
  predicate IsJsSpace(c: char)
  {
    var n := c as int;
    n == 0x09 || n == 0x0A || n == 0x0B || n == 0x0C || n == 0x0D || n == 0x20 || n == 0xA0
    || n == 0x1680 || (0x2000 <= n <= 0x200A) || n == 0x2028 || n == 0x2029 || n == 0x202F
    || n == 0x205F || n == 0x3000 || n == 0xFEFF
  }

  /** The characters the pattern `[\s,]*` skips before a token. */
  predicate IsSeparator(c: char)
  {
    IsJsSpace(c) || c == ','
  }

  /** `[\[\]{}()'`~^@]`: a token of its own. */
  predicate IsSpecialSingle(c: char)
  {
    c == '[' || c == ']' || c == '{' || c == '}' || c == '(' || c == ')' || c == '\''
    || c == '`' || c == '~' || c == '^' || c == '@'
  }

  /** `[^\s\[\]{}('"`,;)]`: a character of a bare token. */
  predicate IsNonSpecial(c: char)
  {
    !IsJsSpace(c) && c != '[' && c != ']' && c != '{' && c != '}' && c != '(' && c != '\''
    && c != '"' && c != '`' && c != ',' && c != ';' && c != ')'
  }

  /** The characters the regular-expression `.` does not match. */
  predicate IsLineTerminator(c: char)
  {
    c == '\n' || c == '\r' || (c as int) == 0x2028 || (c as int) == 0x2029
  }

  function SkipIgnored(s: string, i: nat): (j: nat)
    requires i <= |s|
    ensures i <= j <= |s|
    ensures forall k :: i <= k < j ==> IsSeparator(s[k])
    ensures j < |s| ==> !IsSeparator(s[j])
    decreases |s| - i
  {
    if i < |s| && IsSeparator(s[i]) then SkipIgnored(s, i + 1) else i
  }

  /** The end of `(?:\\.|[^\\"])*` from `i`: escape pairs and characters other than `\`
      and `"`. */
  function QuotedBodyEnd(s: string, i: nat): (j: nat)
    requires i <= |s|
    ensures i <= j <= |s|
    ensures j < |s| ==> s[j] == '"' || s[j] == '\\'
    decreases |s| - i
  {
    if i + 1 < |s| && s[i] == '\\' && !IsLineTerminator(s[i + 1]) then QuotedBodyEnd(s, i + 2)
    else if i < |s| && s[i] != '\\' && s[i] != '"' then QuotedBodyEnd(s, i + 1)
    else i
  }

  /** The end of `[^\s\[\]{}('"`,;)]*` from `i`. */
  function NonSpecialEnd(s: string, i: nat): (j: nat)
    requires i <= |s|
    ensures i <= j <= |s|
    ensures forall k :: i <= k < j ==> IsNonSpecial(s[k])
    decreases |s| - i
  {
    if i < |s| && IsNonSpecial(s[i]) then NonSpecialEnd(s, i + 1) else i
  }

  /** The end of the token that starts at `i`: the alternatives are tried in the order
      special character, double-quoted text with an optional closing quote, bare text. */
  function TokenEnd(s: string, i: nat): (j: nat)
    requires i <= |s|
    ensures i <= j <= |s|
  {
    if i == |s| then i
    else if IsSpecialSingle(s[i]) then i + 1
    else if s[i] == '"' then
      var b := QuotedBodyEnd(s, i + 1);
      if b < |s| && s[b] == '"' then b + 1 else b
    else NonSpecialEnd(s, i)
  }

  /** The shape every token has: it is not empty, and a token that does not start with a
      double quote holds neither a separator nor a double quote. */
  predicate WellFormedToken(t: string)
  {
    |t| >= 1 && (t[0] != '"' ==> forall k :: 0 <= k < |t| ==> !IsSeparator(t[k]) && t[k] != '"')
  }

  /** The tokens of `s` from index `i`, as successive matches of the token pattern yield
      them. Matching stops at the end of the text or at an empty match. */
  function TokenizeFrom(s: string, i: nat): (ts: seq<string>)
    requires i <= |s|
    ensures |ts| <= |s| - i
    decreases |s| - i
  {
    var j := SkipIgnored(s, i);
    var e := TokenEnd(s, j);
    if e == j then [] else [s[j..e]] + TokenizeFrom(s, e)
  }

  /** The tokens of the whole text: no more tokens than characters, each of them well
      formed. */
  function Tokenize(s: string): (ts: seq<string>)
    ensures |ts| <= |s|
    ensures forall k :: 0 <= k < |ts| ==> WellFormedToken(ts[k])
  {
    TokensWellFormed(s, 0);
    TokenizeFrom(s, 0)
  }

  /** Every token is well formed: separators and double quotes occur only inside a
      quoted token. */
  lemma {:induction false} TokensWellFormed(s: string, i: nat)
    requires i <= |s|
    ensures forall k :: 0 <= k < |TokenizeFrom(s, i)| ==> WellFormedToken(TokenizeFrom(s, i)[k])
    decreases |s| - i
  {
    var j := SkipIgnored(s, i);
    var e := TokenEnd(s, j);
    if e > j {
      TokenShape(s, j);
      TokensWellFormed(s, e);
      var ts := TokenizeFrom(s, i);
      assert ts == [s[j..e]] + TokenizeFrom(s, e);
      forall k | 0 <= k < |ts|
        ensures WellFormedToken(ts[k])
      {
        if k > 0 {
          assert ts[k] == TokenizeFrom(s, e)[k - 1];
        }
      }
    }
  }

  /** One step of the tokenizer: skip the separators, take the token. */
  lemma TokenizeStep(s: string, i: nat, j: nat, e: nat)
    requires i <= |s| && SkipIgnored(s, i) == j && TokenEnd(s, j) == e && e > j
    ensures TokenizeFrom(s, i) == [s[j..e]] + TokenizeFrom(s, e)
  {
  }

  /** A non-empty match that follows the skipped separators is a well-formed token. */
  lemma TokenShape(s: string, j: nat)
    requires j <= |s| && (j < |s| ==> !IsSeparator(s[j]))
    requires TokenEnd(s, j) > j
    ensures WellFormedToken(s[j..TokenEnd(s, j)])
  {
    var e := TokenEnd(s, j);
    var t := s[j..e];
    if !IsSpecialSingle(s[j]) && s[j] != '"' {
      assert forall k :: 0 <= k < |t| ==> t[k] == s[j + k] && IsNonSpecial(s[j + k]);
    }
  }

  // ---------------------------------------------------------------------------------
  // Classification of one token (`atom` after `s.next()`).
  // ---------------------------------------------------------------------------------

  const EndOfInputMessage: string := "Unexpected end of input!"

  /** `token.slice(1, token.length - 1)`. */
  function QuotedBody(token: string): string
  {
    if |token| >= 2 then token[1..|token| - 1] else ""
  }

  /** The body is the token without its first and last characters: put back between
      them it gives the token again, and a token too short to have both has none. */
  lemma QuotedBodyStrips(token: string)
    ensures |token| >= 2 ==> token == [token[0]] + QuotedBody(token) + [token[|token| - 1]]
    ensures |token| < 2 ==> QuotedBody(token) == ""
  {
    if |token| >= 2 {
      assert token == [token[0]] + token[1..|token| - 1] + [token[|token| - 1]];
    }
  }

  /** A text put between double quotes is the body of the token that results. */
  lemma QuotedBodyOfQuoted(x: string)
    ensures QuotedBody("\"" + x + "\"") == x
  {
    var t := "\"" + x + "\"";
    assert t[1..|t| - 1] == x;
  }

  /** `.replace(/\\(.)/g, c => c == "n" ? "\n" : c)`: left to right, a backslash and
      the character after it (not a line terminator) become that character, with `n`
      standing for a newline. */
  function Unescape(s: string): (u: string)
    ensures |u| <= |s|
    ensures '\\' !in s ==> u == s
  {
    if |s| >= 2 && s[0] == '\\' && !IsLineTerminator(s[1]) then
      [if s[1] == 'n' then '\n' else s[1]] + Unescape(s[2..])
    else if s == [] then ""
    else [s[0]] + Unescape(s[1..])
  }

  /** The token without its optional leading minus sign. */
  function Unsigned(token: string): string
  {
    if |token| >= 1 && token[0] == '-' then token[1..] else token
  }

  /** `^-?[0-9]+$`: the numerals without a fractional part. */
  predicate IsIntegerNumeral(token: string)
  {
    IsDigits(Unsigned(token))
  }

  /** `^-?[0-9]+\.[0-9]+$`: the numerals with a fractional part. */
  predicate IsFractionNumeral(token: string)
  {
    var parts := Split(Unsigned(token), '.');
    |parts| == 2 && IsDigits(parts[0]) && IsDigits(parts[1])
  }

  /** The exact value of an integer numeral. */
  function IntegerNumeralValue(token: string): int
    requires IsIntegerNumeral(token)
  {
    if token[0] == '-' then 0 - DecimalValue(token[1..]) else DecimalValue(token)
  }

  /** `n | 0`: ECMAScript's ToInt32, the value modulo 2^32 read as a signed 32-bit
      integer. */
  function ToInt32(n: int): (r: Int32)
    ensures (r - n) % 0x1_0000_0000 == 0
    ensures MinInt32 <= n <= MaxInt32 ==> r == n
    ensures 0x8000_0000 <= n < 0x1_0000_0000 ==> r == n - 0x1_0000_0000
  {
    var m := n % 0x1_0000_0000;
    if m >= 0x8000_0000 then m - 0x1_0000_0000 else m
  }

  /** `atom` applied to the token it takes: end of input, string, number, reserved word,
      property access or symbol, checked in that order. */
  function AtomOf(token: string): (r: Result<Form, ParseError>)
    ensures r.Err? <==> token == ""
  {
    if token == "" then Err(ParseError(EndOfInputMessage))
    else if '"' in token then Ok(CuString(Unescape(QuotedBody(token))))
    else if IsIntegerNumeral(token) then Ok(Integer32(ToInt32(IntegerNumeralValue(token))))
    else if IsFractionNumeral(token) then Ok(Float64(token))
    else if token == "true" then Ok(Bool(true))
    else if token == "false" then Ok(Bool(false))
    else if token == "undefined" then Ok(Undefined)
    else if '.' in token then
      SplitAtLeastTwo(token, '.');
      Ok(PropertyAccess(Split(token, '.')))
    else Ok(CuSymbol(token))
  }

  /** Only the empty token is an error, and no token reads as a list or a literal of the
      newer reader. */
  lemma AtomOfErrors(token: string)
    ensures AtomOf(token).Err? ==> AtomOf(token).error == ParseError(EndOfInputMessage)
    ensures AtomOf(token).Ok? ==> IsAtom(AtomOf(token).value)
    ensures AtomOf(token).Ok? ==> !AtomOf(token).value.LiteralArray? && !AtomOf(token).value.KeyValues?
  {
  }

  /** A token holding a double quote is a string, the numerals are numbers, and exactly
      the three reserved words are the reserved atoms. */
  lemma AtomOfLiterals(token: string)
    ensures var r := AtomOf(token);
      && ((r.Ok? && r.value.CuString?) <==> '"' in token)
      && ((r.Ok? && r.value.Integer32?) <==> IsIntegerNumeral(token))
      && (r.Ok? && r.value.Integer32? ==> r.value.i == ToInt32(IntegerNumeralValue(token)))
      && ((r.Ok? && r.value.Float64?) <==> IsFractionNumeral(token))
      && (r.Ok? && r.value.Float64? ==> r.value.text == token)
      && (r == Ok(Bool(true)) <==> token == "true")
      && (r == Ok(Bool(false)) <==> token == "false")
      && (r == Ok(Undefined) <==> token == "undefined")
  {
    NumeralsAreBare(token);
  }

  /** A property access or a symbol spells the token: the segments joined by `.` or the
      name itself, which then has no `.`. */
  lemma AtomOfNames(token: string)
    ensures var r := AtomOf(token);
      && (r.Ok? && r.value.PropertyAccess? ==> Join(r.value.segments, ".") == token)
      && (r.Ok? && r.value.CuSymbol? ==> r.value.v == token && '.' !in token)
  {
    if token == "" || '"' in token || IsIntegerNumeral(token) || IsFractionNumeral(token) {
    } else if token == "true" || token == "false" || token == "undefined" {
    } else if '.' in token {
      assert AtomOf(token).value.segments == Split(token, '.');
      JoinSplit(token, '.');
    }
  }

  /** A numeral holds neither a double quote nor a letter, and an integer numeral no dot. */
  lemma NumeralsAreBare(token: string)
    ensures IsIntegerNumeral(token) || IsFractionNumeral(token) ==> '"' !in token
    ensures IsIntegerNumeral(token) ==> '.' !in token && !IsFractionNumeral(token)
    ensures IsIntegerNumeral(token) || IsFractionNumeral(token) ==> token !in {"true", "false", "undefined"}
  {
    var u := Unsigned(token);
    assert token == u || token == "-" + u;
    if IsIntegerNumeral(token) {
      assert '"' !in u && '.' !in u;
      SplitNoSeparator(u, '.');
    }
    if IsFractionNumeral(token) {
      var parts := Split(u, '.');
      JoinSplit(u, '.');
      assert u == parts[0] + "." + parts[1];
      assert '"' !in u;
    }
  }

  // ---------------------------------------------------------------------------------
  // Recursive descent over a token sequence.
  // ---------------------------------------------------------------------------------

  /** What reading from a position yields: the value and the position after it. */
  type Read<T> = Result<(T, nat), ParseError>

  /** The token at `pos`; past the end the cursor yields the empty token. */
  function Tok(tokens: seq<string>, pos: nat): string
  {
    if pos < |tokens| then tokens[pos] else ""
  }

  /** The cursor after taking one token: it stays put at the end. */
  function Advance(tokens: seq<string>, pos: nat): nat
  {
    if pos < |tokens| then pos + 1 else pos
  }

  function AtomAt(tokens: seq<string>, pos: nat): (r: Read<Form>)
    requires pos <= |tokens|
    ensures r.Ok? ==> pos < r.value.1 <= |tokens| && r.value.0 != CuArray([])
  {
    match AtomOf(Tok(tokens, pos))
    case Ok(f) => Ok((f, pos + 1))
    case Err(e) => Err(e)
  }

  /** `form`: a list when the next token is `(`, an atom otherwise. */
  function FormAt(tokens: seq<string>, pos: nat): (r: Read<Form>)
    requires pos <= |tokens|
    ensures r.Ok? ==> pos < r.value.1 <= |tokens|
    decreases |tokens| - pos, 1
  {
    if Tok(tokens, pos) == "(" then ListAt(tokens, pos) else AtomAt(tokens, pos)
  }

  /** `list`: an opening paren, then forms until the next token is `)`, which is taken. */
  function ListAt(tokens: seq<string>, pos: nat): (r: Read<Form>)
    requires pos <= |tokens|
    ensures r.Ok? ==> pos < r.value.1 <= |tokens| && r.value.0.CuArray?
    decreases |tokens| - pos, 0
  {
    var t := Tok(tokens, pos);
    if t != "(" then Err(ParseError("Expected an opening paren, but found " + Json.Quote(t)))
    else ItemsAt(tokens, pos + 1, [])
  }

  /** The rest of a list whose forms so far are `acc`. */
  function ItemsAt(tokens: seq<string>, pos: nat, acc: seq<Form>): (r: Read<Form>)
    requires pos <= |tokens|
    ensures r.Ok? ==> pos < r.value.1 <= |tokens| && r.value.0.CuArray?
    decreases |tokens| - pos, 2
  {
    if Tok(tokens, pos) == ")" then Ok((CuArray(acc), pos + 1))
    else
      match FormAt(tokens, pos)
      case Err(e) => Err(e)
      case Ok((f, next)) =>
        ItemsAt(tokens, next, acc + [f])
  }

  /** A token `form` reads as an atom: neither the end of the input nor a paren. */
  predicate IsAtomToken(t: string)
  {
    t != "" && t != "(" && t != ")"
  }

  /** The atoms a sequence of non-empty tokens classifies as. */
  function AtomsOf(atoms: seq<string>): (fs: seq<Form>)
    requires forall k :: 0 <= k < |atoms| ==> IsAtomToken(atoms[k])
    ensures |fs| == |atoms|
  {
    if atoms == [] then []
    else
      assert IsAtomToken(atoms[0]);
      [AtomOf(atoms[0]).value] + AtomsOf(atoms[1..])
  }

  /** The tokens of a list's atoms followed by `)` read as those atoms, in order, after
      the forms already read. */
  lemma {:induction false} FlatItems(atoms: seq<string>, rest: seq<string>, acc: seq<Form>)
    requires forall k :: 0 <= k < |atoms| ==> IsAtomToken(atoms[k])
    ensures ItemsAt(atoms + [")"] + rest, 0, acc) == Ok((CuArray(acc + AtomsOf(atoms)), |atoms| + 1))
  {
    var ts := atoms + [")"] + rest;
    if atoms == [] {
      assert ts == [")"] + rest;
      assert Tok(ts, 0) == ")";
      assert acc + [] == acc;
    } else {
      var tail := atoms[1..] + [")"] + rest;
      assert ts == [atoms[0]] + tail;
      assert ts[1..] == tail;
      var f := AtomOf(atoms[0]).value;
      AtomStep(ts, acc);
      FlatItems(atoms[1..], rest, acc + [f]);
      assert acc + [f] + AtomsOf(atoms[1..]) == acc + AtomsOf(atoms);
    }
  }

  /** An atom token inside a list is read and the rest of the list follows it. */
  lemma AtomStep(ts: seq<string>, acc: seq<Form>)
    requires |ts| >= 1 && IsAtomToken(ts[0])
    ensures ItemsAt(ts, 0, acc) == ShiftRead(ItemsAt(ts[1..], 0, acc + [AtomOf(ts[0]).value]), 1)
  {
    var f := AtomOf(ts[0]).value;
    assert Tok(ts, 0) == ts[0];
    assert FormAt(ts, 0) == Ok((f, 1));
    assert ItemsAt(ts, 0, acc) == ItemsAt(ts, 1, acc + [f]);
    ShiftItems(ts, 1, 1, acc + [f]);
  }

  /** `(a b c)` over atom tokens reads as the list of the atoms, in order. */
  lemma FlatList(atoms: seq<string>, rest: seq<string>)
    requires forall k :: 0 <= k < |atoms| ==> IsAtomToken(atoms[k])
    ensures FormAt(["("] + atoms + [")"] + rest, 0) == Ok((CuArray(AtomsOf(atoms)), |atoms| + 2))
  {
    var ts := ["("] + atoms + [")"] + rest;
    var inner := atoms + [")"] + rest;
    assert ts == ["("] + inner;
    assert ts[1..] == inner;
    assert Tok(ts, 0) == "(";
    FlatItems(atoms, rest, []);
    ShiftItems(ts, 1, 1, []);
    assert [] + AtomsOf(atoms) == AtomsOf(atoms);
  }

  /** A read result moved `offset` tokens to the right. */
  function ShiftRead(r: Read<Form>, offset: nat): Read<Form>
  {
    if r.Ok? then Ok((r.value.0, r.value.1 + offset)) else r
  }

  /** Reading a list from a position depends only on the tokens from there on: dropping
      `d` tokens before it shifts the result by `d`. */
  lemma {:induction false} ShiftList(tokens: seq<string>, d: nat, pos: nat)
    requires d <= pos <= |tokens|
    ensures ListAt(tokens, pos) == ShiftRead(ListAt(tokens[d..], pos - d), d)
    decreases |tokens| - pos, 0
  {
    var u := tokens[d..];
    assert Tok(u, pos - d) == Tok(tokens, pos);
    if Tok(tokens, pos) == "(" {
      assert ListAt(tokens, pos) == ItemsAt(tokens, pos + 1, []);
      assert ListAt(u, pos - d) == ItemsAt(u, pos + 1 - d, []);
      ShiftItems(tokens, d, pos + 1, []);
    } else {
      assert ListAt(tokens, pos) == ListAt(u, pos - d);
    }
  }

  /** Reading a form from a position depends only on the tokens from there on. */
  lemma {:induction false} ShiftForm(tokens: seq<string>, d: nat, pos: nat)
    requires d <= pos <= |tokens|
    ensures FormAt(tokens, pos) == ShiftRead(FormAt(tokens[d..], pos - d), d)
    decreases |tokens| - pos, 1
  {
    var u := tokens[d..];
    assert Tok(u, pos - d) == Tok(tokens, pos);
    if Tok(tokens, pos) == "(" {
      ShiftList(tokens, d, pos);
    }
  }

  /** Reading the items of a list from a position depends only on the tokens from there
      on. */
  lemma {:induction false} ShiftItems(tokens: seq<string>, d: nat, pos: nat, acc: seq<Form>)
    requires d <= pos <= |tokens|
    ensures ItemsAt(tokens, pos, acc) == ShiftRead(ItemsAt(tokens[d..], pos - d, acc), d)
    decreases |tokens| - pos, 2
  {
    var u := tokens[d..];
    assert Tok(u, pos - d) == Tok(tokens, pos);
    if Tok(tokens, pos) != ")" {
      ShiftForm(tokens, d, pos);
      var r := FormAt(tokens, pos);
      if r.Ok? {
        var f := r.value.0;
        var next := r.value.1;
        assert FormAt(u, pos - d) == Ok((f, next - d));
        ShiftItems(tokens, d, next, acc + [f]);
      }
    }
  }

  // ---------------------------------------------------------------------------------
  // The token cursor and the reader's methods.
  // ---------------------------------------------------------------------------------

  /** The token cursor (`Scanner`): the tokens of the input and the index of the next one. */
  class Scanner {
    var tokens: seq<string>
    var pos: nat

    predicate Valid()
      reads this
    {
      pos <= |tokens|
    }

    constructor (tokens: seq<string>)
      ensures Valid() && this.tokens == tokens && pos == 0
    {
      this.tokens := tokens;
      pos := 0;
    }

    /** `s.peek()`: the next token, without taking it. */
    method Peek() returns (t: string)
      requires Valid()
      ensures t == Tok(tokens, pos)
      ensures t == "" <==> pos == |tokens| || tokens[pos] == ""
    {
      t := if pos < |tokens| then tokens[pos] else "";
    }

    /** `s.next()`: the next token, taken. */
    method Next() returns (t: string)
      requires Valid()
      modifies this
      ensures Valid() && tokens == old(tokens)
      ensures t == Tok(tokens, old(pos)) && pos == Advance(tokens, old(pos))
    {
      if pos < |tokens| {
        t := tokens[pos];
        pos := pos + 1;
      } else {
        t := "";
      }
    }
  }

  /** `form`. */
  method ReadForm(s: Scanner) returns (r: Result<Form, ParseError>)
    requires s.Valid()
    modifies s
    ensures s.Valid() && s.tokens == old(s.tokens)
    ensures FormAt(s.tokens, old(s.pos)).Ok? ==> r == Ok(FormAt(s.tokens, old(s.pos)).value.0)
    ensures FormAt(s.tokens, old(s.pos)).Ok? ==> s.pos == FormAt(s.tokens, old(s.pos)).value.1
    ensures FormAt(s.tokens, old(s.pos)).Err? ==> r == Err(FormAt(s.tokens, old(s.pos)).error)
    decreases |s.tokens| - s.pos, 1
  {
    var token := s.Peek();
    if token == "(" {
      r := ReadList(s);
    } else {
      r := ReadAtom(s);
    }
  }

  /** `list`. */
  method ReadList(s: Scanner) returns (r: Result<Form, ParseError>)
    requires s.Valid()
    modifies s
    ensures s.Valid() && s.tokens == old(s.tokens)
    ensures ListAt(s.tokens, old(s.pos)).Ok? ==> r == Ok(ListAt(s.tokens, old(s.pos)).value.0)
    ensures ListAt(s.tokens, old(s.pos)).Ok? ==> s.pos == ListAt(s.tokens, old(s.pos)).value.1
    ensures ListAt(s.tokens, old(s.pos)).Err? ==> r == Err(ListAt(s.tokens, old(s.pos)).error)
    decreases |s.tokens| - s.pos, 0
  {
    var token := s.Next();
    if token != "(" {
      return Err(ParseError("Expected an opening paren, but found " + Json.Quote(token)));
    }
    var result: seq<Form> := [];
    while true
      invariant s.Valid() && s.tokens == old(s.tokens) && old(s.pos) < s.pos
      invariant ItemsAt(s.tokens, s.pos, result) == ListAt(s.tokens, old(s.pos))
      decreases |s.tokens| - s.pos
    {
      var next := s.Peek();
      if next == ")" {
        break;
      }
      var f := ReadForm(s);
      if f.Err? {
        return f;
      }
      result := result + [f.value];
    }
    var _ := s.Next();
    r := Ok(CuArray(result));
  }

  /** `atom`. */
  method ReadAtom(s: Scanner) returns (r: Result<Form, ParseError>)
    requires s.Valid()
    modifies s
    ensures s.Valid() && s.tokens == old(s.tokens)
    ensures AtomAt(s.tokens, old(s.pos)).Ok? ==> r == Ok(AtomAt(s.tokens, old(s.pos)).value.0)
    ensures AtomAt(s.tokens, old(s.pos)).Ok? ==> s.pos == AtomAt(s.tokens, old(s.pos)).value.1
    ensures AtomAt(s.tokens, old(s.pos)).Err? ==> r == Err(AtomAt(s.tokens, old(s.pos)).error)
  {
    var token := s.Next();
    r := AtomOf(token);
  }

  // ---------------------------------------------------------------------------------
  // The reader's test vectors.
  // ---------------------------------------------------------------------------------

  /** The end of the text ends the token sequence. */
  lemma TokenizeEnd(s: string, i: nat)
    requires i <= |s| && SkipIgnored(s, i) == |s|
    ensures TokenizeFrom(s, i) == []
  {
  }

  /** `123` and `123 ` are the one token `123`. */
  lemma TokenizesInteger()
    ensures Tokenize("123") == ["123"] && Tokenize("123 ") == ["123"]
  {
    var s := "123";
    assert NonSpecialEnd(s, 3) == 3;
    assert NonSpecialEnd(s, 0) == 3;
    TokenizeStep(s, 0, 0, 3);
    TokenizeEnd(s, 3);
    assert s[0..3] == "123";
    var t := "123 ";
    assert NonSpecialEnd(t, 3) == 3;
    assert NonSpecialEnd(t, 0) == 3;
    TokenizeStep(t, 0, 0, 3);
    assert SkipIgnored(t, 3) == 4;
    TokenizeEnd(t, 3);
    assert t[0..3] == "123";
  }

  /** `123` reads as the 32-bit integer 123. */
  lemma ReadsInteger()
    ensures FormAt(["123"], 0) == Ok((Integer32(123), 1))
  {
    assert DecimalValue("123") == 123 by {
      assert "123"[..2] == "12" && "12"[..1] == "1" && "1"[..0] == "";
    }
    assert IsIntegerNumeral("123");
    NumeralsAreBare("123");
    assert Tok(["123"], 0) == "123";
  }

  /** `-800.19` is a numeral with a fractional part. */
  lemma NegativeFractionNumeral()
    ensures IsFractionNumeral("-800.19") && !IsIntegerNumeral("-800.19")
  {
    assert Unsigned("-800.19") == "800.19";
    assert "800.19" == "800" + "." + "19";
    SplitPrefix("800", "19", '.');
    SplitNoSeparator("19", '.');
    assert !IsDigit("800.19"[3]);
  }

  /** `789.1` is a numeral with a fractional part. */
  lemma PositiveFractionNumeral()
    ensures IsFractionNumeral("789.1") && !IsIntegerNumeral("789.1")
  {
    assert Unsigned("789.1") == "789.1";
    assert "789.1" == "789" + "." + "1";
    SplitPrefix("789", "1", '.');
    SplitNoSeparator("1", '.');
    assert !IsDigit("789.1"[3]);
  }

  /** `-800.19` and ` 789.1  ` read as numbers with a fractional part. */
  lemma ReadsFractions()
    ensures FormAt(["-800.19"], 0) == Ok((Float64("-800.19"), 1))
    ensures FormAt(["789.1"], 0) == Ok((Float64("789.1"), 1))
  {
    NegativeFractionNumeral();
    PositiveFractionNumeral();
    NumeralsAreBare("-800.19");
    NumeralsAreBare("789.1");
    assert Tok(["-800.19"], 0) == "-800.19";
    assert Tok(["789.1"], 0) == "789.1";
  }

  lemma TokenizesNegativeFraction(s: string)
    requires s == "-800.19"
    ensures Tokenize(s) == [s]
  {
    assert NonSpecialEnd(s, 7) == 7;
    assert NonSpecialEnd(s, 6) == 7;
    assert NonSpecialEnd(s, 5) == 7;
    assert NonSpecialEnd(s, 4) == 7;
    assert NonSpecialEnd(s, 3) == 7;
    assert NonSpecialEnd(s, 2) == 7;
    assert NonSpecialEnd(s, 1) == 7;
    assert NonSpecialEnd(s, 0) == 7;
    TokenizeStep(s, 0, 0, 7);
    TokenizeEnd(s, 7);
    assert s[0..7] == s;
  }

  lemma TokenizesSpacedFraction(s: string, t: string)
    requires s == " 789.1  " && t == "789.1"
    ensures Tokenize(s) == [t]
  {
    assert SkipIgnored(s, 0) == 1;
    assert NonSpecialEnd(s, 6) == 6;
    assert NonSpecialEnd(s, 5) == 6;
    assert NonSpecialEnd(s, 4) == 6;
    assert NonSpecialEnd(s, 3) == 6;
    assert NonSpecialEnd(s, 2) == 6;
    assert NonSpecialEnd(s, 1) == 6;
    TokenizeStep(s, 0, 1, 6);
    assert SkipIgnored(s, 6) == 8;
    TokenizeEnd(s, 6);
    assert s[1..6] == t;
  }

  /** `   "\\aaa"` is one quoted token. */
  lemma TokenizesEscapedString()
    ensures Tokenize("   \"\\\\aaa\"") == ["\"\\\\aaa\""]
  {
    var s := "   \"\\\\aaa\"";
    assert SkipIgnored(s, 0) == 3;
    assert QuotedBodyEnd(s, 6) == 9;
    assert QuotedBodyEnd(s, 4) == 9;
    assert TokenEnd(s, 3) == 10;
    TokenizeStep(s, 0, 3, 10);
    TokenizeEnd(s, 10);
    assert s[3..10] == "\"\\\\aaa\"";
  }

  /** `   "\\aaa"` reads as the string `\aaa`. */
  lemma ReadsEscapedString()
    ensures FormAt(["\"\\\\aaa\""], 0) == Ok((CuString("\\aaa"), 1))
  {
    var t := "\"\\\\aaa\"";
    assert Tok([t], 0) == t;
    assert t[0] == '"';
    assert QuotedBody(t) == "\\\\aaa";
    assert Unescape("\\\\aaa") == "\\aaa" by {
      assert "\\\\aaa"[2..] == "aaa";
      assert Unescape("aaa") == "aaa" by {
        assert "aaa"[1..] == "aa" && "aa"[1..] == "a" && "a"[1..] == "";
      }
    }
  }

  /** `(p 45` is the three tokens `(`, `p`, `45`. */
  lemma TokenizesUnclosedList(s: string, p: string, n: string)
    requires s == "(p 45" && p == "p" && n == "45"
    ensures Tokenize(s) == ["(", p, n]
  {
    assert TokenizeFrom(s, 2) == [n] by {
      assert SkipIgnored(s, 2) == 3;
      assert NonSpecialEnd(s, 5) == 5;
      assert NonSpecialEnd(s, 4) == 5;
      assert NonSpecialEnd(s, 3) == 5;
      TokenizeStep(s, 2, 3, 5);
      TokenizeEnd(s, 5);
      assert s[3..5] == n;
    }
    assert TokenizeFrom(s, 1) == [p] + TokenizeFrom(s, 2) by {
      assert NonSpecialEnd(s, 2) == 2;
      assert NonSpecialEnd(s, 1) == 2;
      TokenizeStep(s, 1, 1, 2);
      assert s[1..2] == p;
    }
    assert TokenizeFrom(s, 0) == ["("] + TokenizeFrom(s, 1) by {
      TokenizeStep(s, 0, 0, 1);
      assert s[0..1] == "(";
    }
  }

  /** `(p "hello)` is the tokens `(`, `p` and the unterminated `"hello)`. */
  lemma TokenizesUnclosedString(q: string, p: string, h: string)
    requires q == "(p \"hello)" && p == "p" && h == "\"hello)"
    ensures Tokenize(q) == ["(", p, h]
  {
    assert TokenizeFrom(q, 2) == [h] by {
      assert q[2] == ' ' && q[3] == '"';
      assert SkipIgnored(q, 3) == 3;
      assert SkipIgnored(q, 2) == 3;
      UnterminatedQuoteRunsToTheEnd(q);
      TokenizeStep(q, 2, 3, 10);
      TokenizeEnd(q, 10);
      assert q[3..10] == h;
    }
    assert TokenizeFrom(q, 1) == [p] + TokenizeFrom(q, 2) by {
      assert NonSpecialEnd(q, 2) == 2;
      assert NonSpecialEnd(q, 1) == 2;
      TokenizeStep(q, 1, 1, 2);
      assert q[1..2] == p;
    }
    assert TokenizeFrom(q, 0) == ["("] + TokenizeFrom(q, 1) by {
      TokenizeStep(q, 0, 0, 1);
      assert q[0..1] == "(";
    }
  }

  /** A double quote without a closing one takes the rest of the text. */
  lemma UnterminatedQuoteRunsToTheEnd(q: string)
    requires q == "(p \"hello)"
    ensures TokenEnd(q, 3) == 10
  {
    assert QuotedBodyEnd(q, 10) == 10;
    assert QuotedBodyEnd(q, 9) == 10;
    assert QuotedBodyEnd(q, 8) == 10;
    assert QuotedBodyEnd(q, 7) == 10;
    assert QuotedBodyEnd(q, 6) == 10;
    assert QuotedBodyEnd(q, 5) == 10;
    assert QuotedBodyEnd(q, 4) == 10;
  }

  /** A list whose tokens run out before its `)` fails with the end-of-input error. */
  lemma UnclosedListFails(head: string, arg: string)
    requires IsAtomToken(head) && IsAtomToken(arg)
    ensures FormAt(["(", head, arg], 0) == Err(ParseError(EndOfInputMessage))
  {
    var ts := ["(", head, arg];
    var f := AtomOf(head).value;
    var g := AtomOf(arg).value;
    assert Tok(ts, 0) == "(" && Tok(ts, 1) == head && Tok(ts, 2) == arg && Tok(ts, 3) == "";
    assert FormAt(ts, 1) == Ok((f, 2));
    assert FormAt(ts, 2) == Ok((g, 3));
    assert ItemsAt(ts, 3, [f, g]) == Err(ParseError(EndOfInputMessage));
    assert [] + [f] == [f] && [f] + [g] == [f, g];
    assert ItemsAt(ts, 2, [f]) == ItemsAt(ts, 3, [f, g]);
    assert ItemsAt(ts, 1, []) == ItemsAt(ts, 2, [f]);
  }

  /** The test vectors `(p 45` and `(p "hello)` fail with the end-of-input error. */
  lemma UnclosedInputsFail(p: string, n: string, h: string)
    requires p == "p" && n == "45" && h == "\"hello)"
    ensures FormAt(Tokenize("(p 45"), 0) == Err(ParseError(EndOfInputMessage))
    ensures FormAt(Tokenize("(p \"hello)"), 0) == Err(ParseError(EndOfInputMessage))
  {
    TokenizesUnclosedList("(p 45", p, n);
    TokenizesUnclosedString("(p \"hello)", p, h);
    UnclosedListFails(p, n);
    UnclosedListFails(p, h);
  }
}
