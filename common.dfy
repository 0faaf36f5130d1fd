/** Values and string helpers shared by the backend (Python) and the client (JavaScript) models. */
module Common {

  datatype Option<T> = None | Some(value: T) {
    function GetOr(default: T): T {
      match this
      case Some(v) => v
      case None => default
    }
  }

  /** A result that either carries a value or the message of the exception raised. */
  datatype Result<T> = Ok(value: T) | Err(message: string)

  type Byte = b: int | 0 <= b < 256

  /** A piece of recorded media as the browser's MediaRecorder delivers it; `serial` tells pieces apart. */
  datatype Chunk = Chunk(size: nat, serial: nat)

  /** A browser Blob: its parts, in order, and its MIME type. */
  datatype Blob = Blob(parts: seq<Chunk>, mimeType: string)

  /**
   * A JSON document as the backend (Python dicts/lists) and the client (JavaScript objects)
   * exchange it. `Undefined` is JavaScript's `undefined` (a missing property); `Null` is both
   * JavaScript's `null` and Python's `None`.
   */
  datatype Value =
    | Undefined
    | Null
    | Bool(b: bool)
    | Num(n: real)
    | Str(s: string)
    | Arr(items: seq<Value>)
    | Obj(fields: map<string, Value>)

  /** Property read `v[key]` that yields `undefined` for a missing property or a non-object. */
  function Get(v: Value, key: string): (r: Value)
    ensures v.Obj? && key in v.fields ==> r == v.fields[key]
    ensures !(v.Obj? && key in v.fields) ==> r == Undefined
  {
    if v.Obj? && key in v.fields then v.fields[key] else Undefined
  }

  /** JavaScript truthiness (NaN is not modelled). Arrays and objects are always truthy. */
  predicate JsTruthy(v: Value) {
    match v
    case Undefined => false
    case Null => false
    case Bool(b) => b
    case Num(n) => n != 0.0
    case Str(s) => s != ""
    case Arr(_) => true
    case Obj(_) => true
  }

  /** Python truthiness: empty lists and dicts are false, unlike JavaScript. */
  predicate PyTruthy(v: Value) {
    match v
    case Undefined => false
    case Null => false
    case Bool(b) => b
    case Num(n) => n != 0.0
    case Str(s) => s != ""
    case Arr(items) => items != []
    case Obj(fields) => fields != map[]
  }

  /** JavaScript `a || b`. */
  function JsOr(a: Value, b: Value): (r: Value)
    ensures JsTruthy(a) ==> r == a
    ensures !JsTruthy(a) ==> r == b
  {
    if JsTruthy(a) then a else b
  }

  function MinInt(a: int, b: int): int { if a <= b then a else b }

  function MinReal(a: real, b: real): real { if a <= b then a else b }

  function AbsReal(x: real): real { if x < 0.0 then -x else x }

  /** `min(abs(score) * 2, 1.0)`: the confidence both sentiment services derive from a polarity score. */
  function ScoreConfidence(score: real): (c: real)
    ensures 0.0 <= c <= 1.0
    ensures c == 1.0 <==> score <= -0.5 || 0.5 <= score
    ensures c < 1.0 ==> c == 2.0 * AbsReal(score)
  {
    MinReal(AbsReal(score) * 2.0, 1.0)
  }

  /**
   * Python's `s[:n]` on a list: a negative bound counts from the end.
   * Also JavaScript's `s.slice(0, n)`, which behaves the same way.
   */
  function PyPrefix<T>(s: seq<T>, n: int): (r: seq<T>)
    ensures |r| <= |s| && r == s[..|r|]
    ensures 0 <= n ==> |r| == MinInt(n, |s|)
    ensures n < 0 ==> |r| == if |s| + n < 0 then 0 else |s| + n
  {
    if 0 <= n then s[..MinInt(n, |s|)]
    else if |s| + n < 0 then []
    else s[..|s| + n]
  }

  /** The two runtimes whose whitespace sets differ. */
  datatype Runtime = Python | JavaScript

  /**
   * Whitespace stripped by Python's `str.strip()` (the characters for which `str.isspace()`
   * holds) and by JavaScript's `String.prototype.trim()` (WhiteSpace and LineTerminator).
   * Python alone counts the separators U+001C..U+001F and U+0085; JavaScript alone U+FEFF.
   */
  predicate IsSpace(rt: Runtime, c: char) {
    || c == '\t' || c == '\n' || c == '\U{B}' || c == '\U{C}' || c == '\r' || c == ' '
    || c == '\U{A0}' || c == '\U{1680}' || '\U{2000}' <= c <= '\U{200A}'
    || c == '\U{2028}' || c == '\U{2029}' || c == '\U{202F}' || c == '\U{205F}' || c == '\U{3000}'
    || (rt == Python && ('\U{1C}' <= c <= '\U{1F}' || c == '\U{85}'))
    || (rt == JavaScript && c == '\U{FEFF}')
  }

  /** The whitespace test of a runtime, as the value the trimming functions take. */
  function SpaceOf(rt: Runtime): char -> bool {
    c => IsSpace(rt, c)
  }

  /** Every character passes the whitespace test. */
  predicate AllSpace(isSpace: char -> bool, s: string) {
    forall i | 0 <= i < |s| :: isSpace(s[i])
  }

  /** Blank text: whitespace only (the empty text included), as the runtime counts it. */
  predicate IsBlank(rt: Runtime, s: string) {
    AllSpace(SpaceOf(rt), s)
  }

  /*
   * Trimming is defined for any whitespace test; `SpaceOf(Python)` gives `str.strip()` and
   * `SpaceOf(JavaScript)` gives `String.prototype.trim()`.
   */

  function TrimStart(isSpace: char -> bool, s: string): (r: string)
    ensures |r| <= |s| && r == s[|s| - |r|..]
  {
    if s != [] && isSpace(s[0]) then
      var t := s[1..];
      var r := TrimStart(isSpace, t);
      assert s[|s| - |r|..] == t[|t| - |r|..];
      r
    else s
  }

  /** What `TrimStart` removes is whitespace. */
  lemma {:induction false} TrimStartBlank(isSpace: char -> bool, s: string)
    ensures AllSpace(isSpace, s[..|s| - |TrimStart(isSpace, s)|])
    decreases |s|
  {
    if s != [] && isSpace(s[0]) {
      var t := s[1..];
      TrimStartBlank(isSpace, t);
      var r := TrimStart(isSpace, t);
      assert s[..|s| - |r|] == [s[0]] + t[..|t| - |r|];
    }
  }

  /** What `TrimStart` keeps starts with a non-space. */
  lemma {:induction false} TrimStartHead(isSpace: char -> bool, s: string)
    ensures TrimStart(isSpace, s) != [] ==> !isSpace(TrimStart(isSpace, s)[0])
    decreases |s|
  {
    if s != [] && isSpace(s[0]) {
      TrimStartHead(isSpace, s[1..]);
    }
  }

  function TrimEnd(isSpace: char -> bool, s: string): (r: string)
    ensures |r| <= |s| && r == s[..|r|]
  {
    if s != [] && isSpace(s[|s| - 1]) then
      var t := s[..|s| - 1];
      var r := TrimEnd(isSpace, t);
      assert s[..|r|] == t[..|r|];
      r
    else s
  }

  /** What `TrimEnd` removes is whitespace. */
  lemma {:induction false} TrimEndBlank(isSpace: char -> bool, s: string)
    ensures AllSpace(isSpace, s[|TrimEnd(isSpace, s)|..])
    decreases |s|
  {
    if s != [] && isSpace(s[|s| - 1]) {
      var t := s[..|s| - 1];
      TrimEndBlank(isSpace, t);
      var r := TrimEnd(isSpace, t);
      assert s[|r|..] == t[|r|..] + [s[|s| - 1]];
    }
  }

  /** What `TrimEnd` keeps ends with a non-space. */
  lemma {:induction false} TrimEndLast(isSpace: char -> bool, s: string)
    ensures TrimEnd(isSpace, s) != [] ==> !isSpace(TrimEnd(isSpace, s)[|TrimEnd(isSpace, s)| - 1])
    decreases |s|
  {
    if s != [] && isSpace(s[|s| - 1]) {
      TrimEndLast(isSpace, s[..|s| - 1]);
    }
  }

  /**
   * `s.strip()` in Python, `s.trim()` in JavaScript: the contiguous piece of the input that
   * starts where the leading whitespace ends.
   */
  function Trim(isSpace: char -> bool, s: string): (r: string)
    ensures |s| - |TrimStart(isSpace, s)| + |r| <= |s|
    ensures r == s[|s| - |TrimStart(isSpace, s)|..|s| - |TrimStart(isSpace, s)| + |r|]
  {
    var a := TrimStart(isSpace, s);
    var r := TrimEnd(isSpace, a);
    PrefixOfSuffix(s, a, r);
    r
  }

  /** A prefix of a suffix of s is an inner slice of s. */
  lemma PrefixOfSuffix(s: string, a: string, r: string)
    requires |a| <= |s| && a == s[|s| - |a|..]
    requires |r| <= |a| && r == a[..|r|]
    ensures |s| - |a| + |r| <= |s|
    ensures r == s[|s| - |a|..|s| - |a| + |r|]
  {
  }

  /** Non-empty trimmed text begins and ends with a non-space. */
  lemma TrimEnds(isSpace: char -> bool, s: string)
    ensures Trim(isSpace, s) != [] ==> !isSpace(Trim(isSpace, s)[0]) && !isSpace(Trim(isSpace, s)[|Trim(isSpace, s)| - 1])
  {
    var a := TrimStart(isSpace, s);
    var r := TrimEnd(isSpace, a);
    TrimStartHead(isSpace, s);
    TrimEndLast(isSpace, a);
    if r != [] {
      assert r[0] == a[0];
    }
  }

  /** The trimmed text is empty exactly when the input is all whitespace. */
  lemma TrimEmptyIffBlank(isSpace: char -> bool, s: string)
    ensures Trim(isSpace, s) == [] <==> AllSpace(isSpace, s)
  {
    var a := TrimStart(isSpace, s);
    var k := |s| - |a|;
    var r := Trim(isSpace, s);
    if r == [] {
      TrimEndBlank(isSpace, a);
      TrimStartHead(isSpace, s);
      assert a == a[|TrimEnd(isSpace, a)|..];
      assert a == [];
      TrimStartBlank(isSpace, s);
      assert s[..k] == s;
    } else {
      TrimEnds(isSpace, s);
      assert r[0] == s[k];
    }
  }

  /** Trimming twice changes nothing more. */
  lemma TrimIdempotent(isSpace: char -> bool, s: string)
    ensures Trim(isSpace, Trim(isSpace, s)) == Trim(isSpace, s)
  {
    var r := Trim(isSpace, s);
    TrimEnds(isSpace, s);
    if r != [] {
      assert TrimStart(isSpace, r) == r;
      assert TrimEnd(isSpace, r) == r;
    }
  }

  /**
   * The two runtimes disagree on blank text: " \x1c" is blank to Python's `strip` and not to
   * JavaScript's `trim`, and U+FEFF the other way round.
   */
  lemma BlankDiffers()
    ensures IsBlank(Python, " \U{1C}") && !IsBlank(JavaScript, " \U{1C}")
    ensures IsBlank(JavaScript, "\U{FEFF}") && !IsBlank(Python, "\U{FEFF}")
  {
    assert !IsSpace(JavaScript, " \U{1C}"[1]);
    assert !IsSpace(Python, "\U{FEFF}"[0]);
  }

  /** `sub in s` (Python) / `s.includes(sub)` (JavaScript). */
  predicate Contains(s: string, sub: string) {
    exists i | 0 <= i <= |s| - |sub| :: OccursAt(s, sub, i)
  }

  predicate OccursAt(s: string, sub: string, i: int)
    requires 0 <= i <= |s| - |sub|
  {
    s[i..i + |sub|] == sub
  }

  predicate EndsWith(s: string, c: char) {
    s != [] && s[|s| - 1] == c
  }

  /**
   * A preview of `s`: its first `n` characters, followed by "..." exactly when something was cut.
   */
  function Preview(s: string, n: nat): string {
    if |s| > n then s[..n] + "..." else s
  }

  /** A preview never exceeds n + 3 characters; it keeps the text's start and is the text itself when short enough. */
  lemma PreviewShape(s: string, n: nat)
    ensures |Preview(s, n)| <= n + 3
    ensures |s| <= n ==> Preview(s, n) == s
    ensures |s| > n <==> (|Preview(s, n)| == n + 3 && Preview(s, n)[n..] == "...")
    ensures Preview(s, n)[..MinInt(n, |s|)] == s[..MinInt(n, |s|)]
  {
  }

  /** ASCII lower-casing (JavaScript's `toLowerCase` restricted to 'A'..'Z'). */
  function LowerChar(c: char): char {
    if 'A' <= c <= 'Z' then (c as int + 32) as char else c
  }

  function Lower(s: string): (r: string)
    ensures |r| == |s|
    ensures forall i | 0 <= i < |s| :: r[i] == LowerChar(s[i])
  {
    seq(|s|, i requires 0 <= i < |s| => LowerChar(s[i]))
  }

  /** Decimal representation of a natural number, as `Number.prototype.toString()` and Python's `str` give it. */
  function NatToString(n: nat): (r: string)
    ensures |r| >= 1
    ensures forall i | 0 <= i < |r| :: '0' <= r[i] <= '9'
    ensures n < 10 <==> |r| == 1
    decreases n
  {
    if n < 10 then [('0' as int + n) as char]
    else NatToString(n / 10) + [('0' as int + n % 10) as char]
  }

  /** The value of a string of decimal digits (the inverse of NatToString); other characters count by their code. */
  function DigitsValue(s: string): int {
    if s == [] then 0 else 10 * DigitsValue(s[..|s| - 1]) + (s[|s| - 1] as int - '0' as int)
  }

  lemma {:induction false} DigitsValueOfNatToString(n: nat)
    ensures DigitsValue(NatToString(n)) == n
    decreases n
  {
    if n >= 10 {
      DigitsValueOfNatToString(n / 10);
      var r := NatToString(n);
      assert r[..|r| - 1] == NatToString(n / 10);
    }
  }

  /** Leading zeros do not change the value of a digit string. */
  lemma {:induction false} DigitsValueLeadingZeros(z: string, s: string)
    requires forall i | 0 <= i < |z| :: z[i] == '0'
    ensures DigitsValue(z + s) == DigitsValue(s)
    decreases |s|
  {
    if s == [] {
      assert z + s == z;
      AllZeros(z);
    } else {
      assert (z + s)[..|z + s| - 1] == z + s[..|s| - 1];
      DigitsValueLeadingZeros(z, s[..|s| - 1]);
    }
  }

  lemma {:induction false} AllZeros(z: string)
    requires forall i | 0 <= i < |z| :: z[i] == '0'
    ensures DigitsValue(z) == 0
    decreases |z|
  {
    if z != [] { AllZeros(z[..|z| - 1]); }
  }

  /** JavaScript's `s.padStart(width, "0")`. */
  function PadStartZeros(s: string, width: nat): (r: string)
    ensures |r| == if |s| >= width then |s| else width
    ensures r[|r| - |s|..] == s
    ensures forall i | 0 <= i < |r| - |s| :: r[i] == '0'
  {
    if |s| >= width then s else seq(width - |s|, _ => '0') + s
  }

  /** Python's `s.split(sep)`: the pieces between separators, in order; always at least one piece. */
  function Split(s: string, sep: char): (r: seq<string>)
    ensures |r| >= 1
    ensures forall k | 0 <= k < |r| :: sep !in r[k]
    decreases |s|
  {
    if sep !in s then [s]
    else
      var i := IndexOf(s, sep);
      [s[..i]] + Split(s[i + 1..], sep)
  }

  /** Position of the first occurrence of `c` in `s`. */
  function IndexOf(s: string, c: char): (i: nat)
    requires c in s
    ensures i < |s| && s[i] == c && c !in s[..i]
  {
    if s[0] == c then 0 else
      assert c in s[1..];
      var j := IndexOf(s[1..], c);
      assert s[..j + 1] == [s[0]] + s[1..][..j];
      j + 1
  }

  /** `sep.join(parts)`. */
  function Join(parts: seq<string>, sep: string): string {
    if parts == [] then ""
    else if |parts| == 1 then parts[0]
    else parts[0] + sep + Join(parts[1..], sep)
  }

  /** Splitting and joining again with the same separator gives back the original string. */
  lemma {:induction false} JoinSplit(s: string, sep: char)
    ensures Join(Split(s, sep), [sep]) == s
    decreases |s|
  {
    if sep in s {
      var i := IndexOf(s, sep);
      var t := s[i + 1..];
      var rest := Split(t, sep);
      calc {
        Join(Split(s, sep), [sep]);
      ==
        Join([s[..i]] + rest, [sep]);
      == { JoinCons(s[..i], rest, [sep]); }
        s[..i] + [sep] + Join(rest, [sep]);
      == { JoinSplit(t, sep); }
        s[..i] + [sep] + t;
      == { assert s == s[..i] + [sep] + s[i + 1..]; }
        s;
      }
    }
  }

  /** Joining a first piece and at least one more puts the separator after the first piece. */
  lemma JoinCons(a: string, rest: seq<string>, sep: string)
    requires rest != []
    ensures Join([a] + rest, sep) == a + sep + Join(rest, sep)
  {
    assert ([a] + rest)[1..] == rest;
  }

  /** Splitting `a + sep + rest` where `a` has no separator yields `a` followed by the pieces of `rest`. */
  lemma SplitCons(a: string, sep: char, rest: string)
    requires sep !in a
    ensures Split(a + [sep] + rest, sep) == [a] + Split(rest, sep)
  {
    var s := a + [sep] + rest;
    assert s[|a|] == sep;
    var i := IndexOf(s, sep);
    assert s[..|a|] == a;
    assert forall k | 0 <= k < |a| :: s[k] == a[k] && s[k] != sep;
    assert i <= |a| by {
      assert s[i] == sep;
    }
    assert i == |a|;
    assert s[..i] == a;
    assert s[i + 1..] == rest;
  }

  /** The elements of `s` that satisfy `p`, in their original order (a list comprehension with a condition). */
  function Filter<T>(s: seq<T>, p: T -> bool): (r: seq<T>)
    ensures |r| <= |s|
    ensures forall i | 0 <= i < |r| :: p(r[i]) && r[i] in s
  {
    if s == [] then []
    else if p(s[0]) then [s[0]] + Filter(s[1..], p)
    else Filter(s[1..], p)
  }

  /** Filtering distributes over concatenation, so it keeps the relative order of what it keeps. */
  lemma {:induction false} FilterAppend<T>(a: seq<T>, b: seq<T>, p: T -> bool)
    ensures Filter(a + b, p) == Filter(a, p) + Filter(b, p)
    decreases |a|
  {
    if a == [] {
      assert a + b == b;
    } else {
      assert (a + b)[0] == a[0];
      assert (a + b)[1..] == a[1..] + b;
      FilterAppend(a[1..], b, p);
    }
  }

  /** Filtering drops something exactly when some element fails the condition. */
  lemma {:induction false} FilterShrinksIff<T>(s: seq<T>, p: T -> bool)
    ensures |Filter(s, p)| < |s| <==> exists i | 0 <= i < |s| :: !p(s[i])
    ensures |Filter(s, p)| == |s| <==> Filter(s, p) == s
    decreases |s|
  {
    if s != [] {
      FilterShrinksIff(s[1..], p);
      if !p(s[0]) {
        assert !p(s[0]);
      } else {
        assert forall i | 1 <= i < |s| :: s[i] == s[1..][i - 1];
        if exists i | 0 <= i < |s| :: !p(s[i]) {
          var i :| 0 <= i < |s| && !p(s[i]);
          assert !p(s[1..][i - 1]);
        }
      }
    }
  }

  /** Every element of `s` that satisfies `p` is kept. */
  lemma {:induction false} FilterKeeps<T>(s: seq<T>, p: T -> bool, i: int)
    requires 0 <= i < |s| && p(s[i])
    ensures s[i] in Filter(s, p)
    decreases |s|
  {
    if i > 0 {
      FilterKeeps(s[1..], p, i - 1);
    }
  }
}
