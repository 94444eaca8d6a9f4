/** `JSON.stringify` applied to a string: a JSON string literal as section 7 of RFC 8259
    describes it, with the short escapes JavaScript chooses. Used by the printer, by the
    transpiler's rendering of string atoms and by error messages. */
module Json {

  predicate IsControl(c: char)
  {
    (c as int) < 0x20
  }

  function HexDigit(d: nat): char
    requires d < 16
  {
    if d < 10 then (('0' as int) + d) as char else (('a' as int) + d - 10) as char
  }

  /** The escape of one character inside a JSON string literal. */
  function EscapeChar(c: char): (e: string)
    ensures |e| >= 1
    ensures (c != '"' && c != '\\' && !IsControl(c)) <==> e == [c]
  {
    if c == '"' then "\\\""
    else if c == '\\' then "\\\\"
    else if c == '\n' then "\\n"
    else if c == '\r' then "\\r"
    else if c == '\t' then "\\t"
    else if (c as int) == 0x08 then "\\b"
    else if (c as int) == 0x0C then "\\f"
    else if IsControl(c) then "\\u00" + [HexDigit((c as int) / 16), HexDigit((c as int) % 16)]
    else [c]
  }

  /** The escaped text of a string: never shorter, and the string itself when it holds
      no character that needs an escape. */
  function Escape(s: string): (e: string)
    ensures |e| >= |s|
    ensures (forall k :: 0 <= k < |s| ==> s[k] != '"' && s[k] != '\\' && !IsControl(s[k])) ==> e == s
  {
    if s == [] then "" else EscapeChar(s[0]) + Escape(s[1..])
  }

  /** `JSON.stringify(s)` for a string `s`. */
  function Quote(s: string): (q: string)
    ensures |q| >= 2 && q[0] == '"' && q[|q| - 1] == '"'
  {
    "\"" + Escape(s) + "\""
  }

  /** Inside the quotes, every `"` is preceded by a backslash: the literal has no bare
      quote that could end it early. */
  lemma {:induction false} EscapeHasNoBareQuote(s: string, k: nat)
    requires k < |Escape(s)| && Escape(s)[k] == '"'
    ensures k >= 1 && Escape(s)[k - 1] == '\\'
  {
    var e := EscapeChar(s[0]);
    assert Escape(s) == e + Escape(s[1..]);
    if k >= |e| {
      EscapeHasNoBareQuote(s[1..], k - |e|);
    }
  }
}
