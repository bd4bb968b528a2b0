/** The part of JavaScript's value semantics that the two test scripts rely on:
    decoded JSON values, `undefined`, truthiness, property reads with and
    without optional chaining, `includes` on strings and arrays, and the
    string helpers `startsWith`, `split` and `trim`. */
module JsModel {

  datatype Option<+T> = None | Some(value: T)

  /** A value produced by `JSON.parse`. Numbers are kept as integers: the
      scripts only compare them with `===` or test their truthiness. */
  datatype Json =
    | JNull
    | JBool(b: bool)
    | JNum(n: int)
    | JStr(s: string)
    | JArr(items: seq<Json>)
    | JObj(fields: map<string, Json>)

  /** What a statement of the scripts can throw: an `Error` the script builds
      with a message, or a `TypeError` raised by the engine (a property read on
      `null` or `undefined`, a call of a method the value does not have). */
  datatype Thrown = Error(message: string) | TypeError

  /** An expression that either yields a value or throws. */
  datatype Eval<+T> = Value(v: T) | Throw(thrown: Thrown)

  /** What an awaited promise settles to: a value, or a rejection with an
      `Error` carrying `message`. */
  datatype Settled = Resolved(value: Json) | Rejected(message: string)

  /** `JSON.parse` as an abstract partial function: `None` when it throws. */
  type Parser = string -> Option<Json>

  /** `null` or `undefined` (a missing property is `None`). */
  predicate Nullish(v: Option<Json>)
  {
    v.None? || v.value.JNull?
  }

  /** JavaScript truthiness of a possibly undefined JSON value. */
  predicate Truthy(v: Option<Json>)
  {
    match v
    case None => false
    case Some(j) =>
      match j
      case JNull => false
      case JBool(b) => b
      case JNum(n) => n != 0
      case JStr(s) => s != ""
      case JArr(_) => true
      case JObj(_) => true
  }

  /** `v.key` on a value that is neither `null` nor `undefined`. Of the names
      the scripts read, arrays and strings have only `length`; numbers and
      booleans have none of them. */
  function Get(v: Json, key: string): Option<Json>
  {
    match v
    case JObj(m) => if key in m then Some(m[key]) else None
    case JArr(items) => if key == "length" then Some(JNum(|items|)) else None
    case JStr(s) => if key == "length" then Some(JNum(|s|)) else None
    case _ => None
  }

  /** `v?.key`: `undefined` when `v` is nullish. */
  function OptGet(v: Option<Json>, key: string): Option<Json>
  {
    if Nullish(v) then None else Get(v.value, key)
  }

  /** `v?.[0]`: the first element of an array, the first character of a
      string, the property `"0"` of an object. */
  function OptFirst(v: Option<Json>): Option<Json>
  {
    if Nullish(v) then None
    else
      match v.value
      case JArr(items) => if |items| > 0 then Some(items[0]) else None
      case JStr(s) => if |s| > 0 then Some(JStr([s[0]])) else None
      case JObj(m) => if "0" in m then Some(m["0"]) else None
      case _ => None
  }

  /** `s.startsWith(p)`. */
  predicate StartsWith(s: string, p: string)
  {
    |p| <= |s| && s[..|p|] == p
  }

  /** `sub` occurs in `s` starting at position `i`. */
  predicate OccursAt(s: string, sub: string, i: int)
  {
    0 <= i && i + |sub| <= |s| && s[i..i + |sub|] == sub
  }

  /** `s.includes(sub)` on strings: `sub` occurs at some position of `s`. */
  predicate Contains(s: string, sub: string)
  {
    exists i | 0 <= i <= |s| - |sub| :: OccursAt(s, sub, i)
  }

  /** `v.includes(sub)` on a value that is not nullish: strings search for a
      substring, arrays for an element equal to the string `sub`; every other
      value has no `includes` method and the call throws. */
  function Includes(v: Json, sub: string): Eval<bool>
  {
    match v
    case JStr(s) => Value(Contains(s, sub))
    case JArr(items) => Value(JStr(sub) in items)
    case _ => Throw(TypeError)
  }

  /** The truthiness of `v?.includes(sub)`, which is `undefined` (falsy) when
      `v` is nullish. */
  function OptIncludes(v: Option<Json>, sub: string): Eval<bool>
  {
    if Nullish(v) then Value(false) else Includes(v.value, sub)
  }

  /** The values `v?.includes(sub)` is truthy for, stated as occurrences. */
  ghost predicate Lists(v: Option<Json>, sub: string)
  {
    v.Some? &&
    ((v.value.JStr? && exists i :: OccursAt(v.value.s, sub, i)) ||
     (v.value.JArr? && JStr(sub) in v.value.items))
  }

  /** A string contains every character of every string it contains. */
  lemma ContainsChars(s: string, sub: string, c: char)
    requires Contains(s, sub) && c in sub
    ensures c in s
  {
    var i :| 0 <= i <= |s| - |sub| && OccursAt(s, sub, i);
    var k :| 0 <= k < |sub| && sub[k] == c;
    assert s[i..i + |sub|][k] == s[i + k];
  }

  /** `OptIncludes` is truthy exactly for the values `Lists` describes, and it
      throws only on values that are neither nullish, strings nor arrays. */
  lemma OptIncludesMeaning(v: Option<Json>, sub: string)
    ensures OptIncludes(v, sub) == Value(true) <==> Lists(v, sub)
    ensures OptIncludes(v, sub).Throw? <==>
              !Nullish(v) && !v.value.JStr? && !v.value.JArr?
  {
  }

  // ---- String.prototype.split with a one-character separator ----

  /** `s.split(sep)` for a one-character separator: the maximal pieces
      between separators, `[""]` for the empty string. */
  function Split(s: string, sep: char): (parts: seq<string>)
    ensures |parts| >= 1
    decreases |s|
  {
    if |s| == 0 then [""]
    else
      var rest := Split(s[1..], sep);
      if s[0] == sep then [""] + rest else [[s[0]] + rest[0]] + rest[1..]
  }

  /** `parts.join(sep)`, the inverse of `Split`. */
  function Join(parts: seq<string>, sep: char): string
    requires |parts| >= 1
    decreases |parts|
  {
    if |parts| == 1 then parts[0] else parts[0] + [sep] + Join(parts[1..], sep)
  }

  /** Joining the pieces of a split gives back the string. */
  lemma {:induction false} JoinSplit(s: string, sep: char)
    ensures Join(Split(s, sep), sep) == s
    decreases |s|
  {
    if |s| > 0 {
      JoinSplit(s[1..], sep);
      var rest := Split(s[1..], sep);
      if s[0] == sep {
        assert ([""] + rest)[1..] == rest;
        assert s == [s[0]] + s[1..];
      } else if |rest| == 1 {
        assert s == [s[0]] + s[1..];
      } else {
        var parts := [[s[0]] + rest[0]] + rest[1..];
        assert parts[1..] == rest[1..];
        assert Join(rest, sep) == rest[0] + [sep] + Join(rest[1..], sep);
        assert s == [s[0]] + s[1..];
      }
    }
  }

  /** No piece of a split contains the separator. */
  lemma {:induction false} SplitPiecesFree(s: string, sep: char)
    ensures forall k :: 0 <= k < |Split(s, sep)| ==> sep !in Split(s, sep)[k]
    decreases |s|
  {
    if |s| > 0 {
      SplitPiecesFree(s[1..], sep);
    }
  }

  /** A string without the separator splits into itself alone. */
  lemma {:induction false} SplitNoSep(p: string, sep: char)
    requires sep !in p
    ensures Split(p, sep) == [p]
    decreases |p|
  {
    if |p| > 0 {
      SplitNoSep(p[1..], sep);
      assert p == [p[0]] + p[1..];
    }
  }

  /** Splitting `p + sep + t`, where `p` has no separator, yields `p` and
      then the pieces of `t`. */
  lemma {:induction false} SplitAtFirst(p: string, t: string, sep: char)
    requires sep !in p
    ensures Split(p + [sep] + t, sep) == [p] + Split(t, sep)
    decreases |p|
  {
    if |p| == 0 {
      assert p + [sep] + t == [sep] + t;
      assert ([sep] + t)[1..] == t;
    } else {
      var s := p + [sep] + t;
      assert s[1..] == p[1..] + [sep] + t;
      SplitAtFirst(p[1..], t, sep);
      assert p == [p[0]] + p[1..];
    }
  }

  /** Splitting the join of separator-free pieces gives back the pieces. */
  lemma {:induction false} SplitJoin(parts: seq<string>, sep: char)
    requires |parts| >= 1
    requires forall k :: 0 <= k < |parts| ==> sep !in parts[k]
    ensures Split(Join(parts, sep), sep) == parts
    decreases |parts|
  {
    if |parts| == 1 {
      SplitNoSep(parts[0], sep);
    } else {
      SplitJoin(parts[1..], sep);
      SplitAtFirst(parts[0], Join(parts[1..], sep), sep);
    }
  }

  /** The first piece of a split is the text before the first separator. */
  lemma SplitHead(x: string, sep: char, n: nat)
    requires n <= |x| && sep !in x[..n] && (n == |x| || x[n] == sep)
    ensures Split(x, sep)[0] == x[..n]
  {
    if n == |x| {
      assert x[..n] == x;
      SplitNoSep(x, sep);
    } else {
      assert x == x[..n] + [sep] + x[n + 1..];
      SplitAtFirst(x[..n], x[n + 1..], sep);
    }
  }

  // ---- String.prototype.trim ----

  /** The white space and line terminators `trim` removes. */
  predicate IsSpace(c: char)
  {
    c == ' ' || c == '\t' || c == '\n' || c == '\r' || c == '\U{000B}' || c == '\U{000C}' ||
    c == '\U{00A0}' || c == '\U{1680}' || ('\U{2000}' <= c <= '\U{200A}') ||
    c == '\U{2028}' || c == '\U{2029}' || c == '\U{202F}' || c == '\U{205F}' ||
    c == '\U{3000}' || c == '\U{FEFF}'
  }

  /** `t` is what is left of `s` after dropping `i` leading and some trailing
      white-space characters. */
  ghost predicate TrimmedAt(s: string, t: string, i: int)
  {
    0 <= i && i + |t| <= |s| && t == s[i..i + |t|] &&
    (forall k :: 0 <= k < i ==> IsSpace(s[k])) &&
    (forall k :: i + |t| <= k < |s| ==> IsSpace(s[k]))
  }

  function TrimStart(s: string): (t: string)
    ensures TrimmedAt(s, t, |s| - |t|)
    ensures t == [] || !IsSpace(t[0])
    decreases |s|
  {
    if |s| > 0 && IsSpace(s[0]) then
      var t := TrimStart(s[1..]);
      assert forall k :: 1 <= k < |s| - |t| ==> s[k] == s[1..][k - 1];
      t
    else s
  }

  function TrimEnd(s: string): (t: string)
    ensures TrimmedAt(s, t, 0)
    ensures t == [] || !IsSpace(t[|t| - 1])
    decreases |s|
  {
    if |s| > 0 && IsSpace(s[|s| - 1]) then
      var t := TrimEnd(s[..|s| - 1]);
      assert forall k :: |t| <= k < |s| - 1 ==> s[k] == s[..|s| - 1][k];
      t
    else s
  }

  /** Trimming a trimmed middle again gives a middle of the original. */
  lemma TrimmedTwice(s: string, m: string, t: string, i: int)
    requires TrimmedAt(s, m, i) && TrimmedAt(m, t, 0)
    ensures TrimmedAt(s, t, i)
  {
    assert t == s[i..i + |t|];
    forall k | i + |t| <= k < |s| ensures IsSpace(s[k]) {
      if k < i + |m| {
        assert s[k] == m[k - i];
      }
    }
  }

  /** `s.trim()`: the middle of `s` left after removing white space from both
      ends. */
  function Trim(s: string): (t: string)
    ensures exists i :: TrimmedAt(s, t, i)
    ensures t == [] || (!IsSpace(t[0]) && !IsSpace(t[|t| - 1]))
  {
    var m := TrimStart(s);
    var t := TrimEnd(m);
    TrimmedTwice(s, m, t, |s| - |m|);
    assert t != [] ==> t[0] == m[0];
    t
  }
}
