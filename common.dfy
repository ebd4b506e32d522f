/** Shared vocabulary of the model: optional values, results, the JSON-like
    values that configuration files, RPC bodies and request payloads are made
    of, Python truthiness, and the few ASCII string operations the program
    uses (strip, lower, upper, startswith, endswith, `in`). */
module Common {

  datatype Option<+T> = None | Some(value: T)

  datatype Result<+T, +E> = Ok(value: T) | Err(error: E)

  /** A decoded JSON / YAML / Python value: what `dict`, `list`, `str`, `int`,
      `bool` and `None` are in the program. Floats are not modelled. */
  datatype Value =
    | Null
    | Bool(b: bool)
    | Int(i: int)
    | Str(s: string)
    | List(items: seq<Value>)
    | Obj(fields: map<string, Value>)

  /** Python's `bool(v)` for the values above. */
  predicate Truthy(v: Value)
  {
    match v
    case Null => false
    case Bool(b) => b
    case Int(i) => i != 0
    case Str(s) => s != ""
    case List(items) => items != []
    case Obj(fields) => fields != map[]
  }

  /** `str.isspace()` restricted to ASCII. */
  predicate IsSpace(c: char)
  {
    c == ' ' || (9 <= c as int <= 13) || (28 <= c as int <= 31)
  }

  function TrimLeft(s: string): (r: string)
    ensures EndsWith(s, r)
    ensures r != [] ==> !IsSpace(r[0])
    ensures forall i :: 0 <= i < |s| - |r| ==> IsSpace(s[i])
  {
    if s != [] && IsSpace(s[0]) then
      var r := TrimLeft(s[1..]);
      assert s[|s| - |r|..] == s[1..][|s| - 1 - |r|..];
      r
    else s
  }

  function TrimRight(s: string): (r: string)
    ensures StartsWith(s, r)
    ensures r != [] ==> !IsSpace(r[|r| - 1])
    ensures forall i :: |r| <= i < |s| ==> IsSpace(s[i])
  {
    if s != [] && IsSpace(s[|s| - 1]) then
      var r := TrimRight(s[..|s| - 1]);
      assert s[..|r|] == s[..|s| - 1][..|r|];
      r
    else s
  }

  /** `str.strip()` with no argument (ASCII whitespace only). */
  function Strip(s: string): string
  {
    TrimRight(TrimLeft(s))
  }

  /** A text that neither starts nor ends with white space is its own
      `strip()`. */
  lemma StripUnpadded(s: string)
    requires s != [] ==> !IsSpace(s[0]) && !IsSpace(s[|s| - 1])
    ensures Strip(s) == s
  {
    assert TrimLeft(s) == s;
  }

  /** Appending one character to `s` appends it to `TrimLeft(s)`, unless
      that is empty. */
  lemma {:induction false} TrimLeftAppend(s: string, c: char)
    ensures TrimLeft(s + [c]) == if TrimLeft(s) == [] then TrimLeft([c]) else TrimLeft(s) + [c]
  {
    if s == [] {
      assert s + [c] == [c];
    } else if IsSpace(s[0]) {
      assert (s + [c])[1..] == s[1..] + [c];
      TrimLeftAppend(s[1..], c);
    }
  }

  /** A blank before and a newline after do not change `strip()`. */
  lemma StripPadded(s: string)
    ensures Strip([' '] + s + ['\n']) == Strip(s)
  {
    var padded := [' '] + s + ['\n'];
    assert padded[1..] == s + ['\n'];
    assert TrimLeft(padded) == TrimLeft(s + ['\n']);
    TrimLeftAppend(s, '\n');
    var t := TrimLeft(s);
    if t != [] {
      assert (t + ['\n'])[..|t|] == t;
      assert TrimRight(t + ['\n']) == TrimRight(t);
    }
  }

  function LowerChar(c: char): char
  {
    if 'A' <= c <= 'Z' then (c as int + 32) as char else c
  }

  function UpperChar(c: char): char
  {
    if 'a' <= c <= 'z' then (c as int - 32) as char else c
  }

  /** `str.lower()` restricted to ASCII letters. */
  function Lower(s: string): (r: string)
    ensures |r| == |s|
    ensures forall i :: 0 <= i < |s| ==> r[i] == LowerChar(s[i])
  {
    if s == [] then [] else [LowerChar(s[0])] + Lower(s[1..])
  }

  /** `str.upper()` restricted to ASCII letters. */
  function Upper(s: string): (r: string)
    ensures |r| == |s|
    ensures forall i :: 0 <= i < |s| ==> r[i] == UpperChar(s[i])
  {
    if s == [] then [] else [UpperChar(s[0])] + Upper(s[1..])
  }

  predicate StartsWith(s: string, prefix: string)
  {
    |prefix| <= |s| && s[..|prefix|] == prefix
  }

  predicate EndsWith(s: string, suffix: string)
  {
    |suffix| <= |s| && s[|s| - |suffix|..] == suffix
  }

  /** Python's `sub in s` on strings: `sub` occurs somewhere in `s`. */
  predicate Contains(s: string, sub: string)
  {
    exists i :: 0 <= i <= |s| && StartsWith(s[i..], sub)
  }
}
