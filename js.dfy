/** JavaScript values and the few String.prototype operations the service relies on. */
module Js {

  datatype Option<+T> = None | Some(value: T)

  /** A JavaScript value of the kind JSON.parse produces, plus `undefined`.
      Numbers are rationals: NaN and the infinities are not represented. */
  datatype JsValue =
    | Undefined
    | Null
    | Bool(b: bool)
    | Num(n: real)
    | Str(s: string)
    | Arr(items: seq<JsValue>)
    | Obj(props: map<string, JsValue>)

  /** JavaScript truthiness: what `if (v)` and `v && ...` test. */
  predicate Truthy(v: JsValue)
    ensures Truthy(v) <==> !(v == Undefined || v == Null || v == Bool(false) || v == Num(0.0) || v == Str(""))
  {
    match v
    case Undefined => false
    case Null => false
    case Bool(b) => b
    case Num(n) => n != 0.0
    case Str(s) => s != ""
    case Arr(_) => true
    case Obj(_) => true
  }

  /** The `typeof` operator (null, arrays and objects all answer "object"). */
  function TypeOf(v: JsValue): (t: string)
    ensures t == "object" <==> v.Null? || v.Arr? || v.Obj?
    ensures t == "number" <==> v.Num?
  {
    match v
    case Undefined => "undefined"
    case Null => "object"
    case Bool(_) => "boolean"
    case Num(_) => "number"
    case Str(_) => "string"
    case Arr(_) => "object"
    case Obj(_) => "object"
  }

  /** An own property of a parsed object, `undefined` when absent. */
  function Prop(props: map<string, JsValue>, key: string): JsValue {
    if key in props then props[key] else Undefined
  }

  /** `v[key]` (or destructuring `{key} = v`) for a value that is not null or undefined:
      strings, numbers, booleans and arrays have none of the named fields the service reads. */
  function Get(v: JsValue, key: string): JsValue {
    if v.Obj? then Prop(v.props, key) else Undefined
  }

  /** `v[key] = x` in sloppy mode: an object gains or overwrites the property; on a primitive
      the write is silently dropped (and a named property of an array is dropped by JSON.stringify). */
  function SetProp(v: JsValue, key: string, x: JsValue): (r: JsValue)
    ensures v.Obj? ==> r.Obj? && r.props == v.props[key := x]
    ensures !v.Obj? ==> r == v
  {
    if v.Obj? then Obj(v.props[key := x]) else v
  }

  // ---------------------------------------------------------------------------
  // Stripping a class of characters from both ends: String.prototype.trim, and the
  // `replace(/^\/+|\/+$/g, '')` the router applies to paths

  /** Leading characters of the class removed. */
  function DropLeading(s: string, strip: char -> bool): string {
    if |s| > 0 && strip(s[0]) then DropLeading(s[1..], strip) else s
  }

  /** Trailing characters of the class removed. */
  function DropTrailing(s: string, strip: char -> bool): string {
    if |s| > 0 && strip(s[|s| - 1]) then DropTrailing(s[..|s| - 1], strip) else s
  }

  function Strip(s: string, strip: char -> bool): string {
    DropTrailing(DropLeading(s, strip), strip)
  }

  /** DropLeading keeps a suffix, removes only characters of the class, and leaves none in front. */
  lemma {:induction false} DropLeadingShape(s: string, strip: char -> bool)
    ensures var r := DropLeading(s, strip);
            && |r| <= |s| && r == s[|s| - |r|..]
            && (forall k :: 0 <= k < |s| - |r| ==> strip(s[k]))
            && (r == [] || !strip(r[0]))
  {
    if |s| > 0 && strip(s[0]) {
      DropLeadingShape(s[1..], strip);
      var r := DropLeading(s, strip);
      forall k | 0 <= k < |s| - |r|
        ensures strip(s[k])
      {
        if k > 0 {
          assert s[k] == s[1..][k - 1];
        }
      }
    }
  }

  /** DropTrailing keeps a prefix, removes only characters of the class, and leaves none at the end. */
  lemma {:induction false} DropTrailingShape(s: string, strip: char -> bool)
    ensures var r := DropTrailing(s, strip);
            && |r| <= |s| && r == s[..|r|]
            && (forall k :: |r| <= k < |s| ==> strip(s[k]))
            && (r == [] || !strip(r[|r| - 1]))
  {
    if |s| > 0 && strip(s[|s| - 1]) {
      DropTrailingShape(s[..|s| - 1], strip);
      var r := DropTrailing(s, strip);
      forall k | |r| <= k < |s|
        ensures strip(s[k])
      {
        if k < |s| - 1 {
          assert s[k] == s[..|s| - 1][k];
        }
      }
    }
  }

  /** Stripping keeps a contiguous slice of `s` and removes only characters of the class on
      either side of it. */
  lemma StripShape(s: string, strip: char -> bool)
    ensures var r := Strip(s, strip); var i := |s| - |DropLeading(s, strip)|;
            && 0 <= i && i + |r| <= |s| && r == s[i..i + |r|]
            && (forall k :: 0 <= k < i ==> strip(s[k]))
            && (forall k :: i + |r| <= k < |s| ==> strip(s[k]))
  {
    var t := DropLeading(s, strip);
    var i := |s| - |t|;
    DropLeadingShape(s, strip);
    DropTrailingShape(t, strip);
    var r := Strip(s, strip);
    forall k | i + |r| <= k < |s|
      ensures strip(s[k])
    {
      assert s[k] == t[k - i];
    }
  }

  /** A string is its own strip exactly when neither end is in the class. */
  lemma StripFixpoint(s: string, strip: char -> bool)
    ensures Strip(s, strip) == s <==> (s == [] || (!strip(s[0]) && !strip(s[|s| - 1])))
  {
    if s == [] || (!strip(s[0]) && !strip(s[|s| - 1])) {
      StripOfUnpadded(s, strip);
    } else {
      StripEndsUnpadded(s, strip);
    }
  }

  lemma StripOfUnpadded(s: string, strip: char -> bool)
    requires s == [] || (!strip(s[0]) && !strip(s[|s| - 1]))
    ensures Strip(s, strip) == s
  {
    assert DropLeading(s, strip) == s;
  }

  /** The strip of any string has no character of the class at either end. */
  lemma StripEndsUnpadded(s: string, strip: char -> bool)
    ensures var r := Strip(s, strip); r == [] || (!strip(r[0]) && !strip(r[|r| - 1]))
  {
    var t := DropLeading(s, strip);
    var r := DropTrailing(t, strip);
    DropLeadingShape(s, strip);
    DropTrailingShape(t, strip);
    if r != [] {
      assert r[0] == t[0];
    }
  }

  lemma StripIdempotent(s: string, strip: char -> bool)
    ensures Strip(Strip(s, strip), strip) == Strip(s, strip)
  {
    StripEndsUnpadded(s, strip);
    StripOfUnpadded(Strip(s, strip), strip);
  }

  /** The characters String.prototype.trim removes: WhiteSpace and LineTerminator of ECMA-262. */
  predicate IsSpace(c: char) {
    || c == ' ' || c == '\t' || c == '\n' || c == '\r' || c == '\U{B}' || c == '\U{C}'
    || c == '\U{A0}' || c == '\U{1680}' || ('\U{2000}' <= c <= '\U{200A}')
    || c == '\U{2028}' || c == '\U{2029}' || c == '\U{202F}' || c == '\U{205F}'
    || c == '\U{3000}' || c == '\U{FEFF}'
  }

  /** String.prototype.trim. */
  function Trim(s: string): (r: string)
    ensures r == "" || (!IsSpace(r[0]) && !IsSpace(r[|r| - 1]))
    ensures r == s <==> (s == "" || (!IsSpace(s[0]) && !IsSpace(s[|s| - 1])))
  {
    StripEndsUnpadded(s, IsSpace);
    StripFixpoint(s, IsSpace);
    Strip(s, IsSpace)
  }

  // ---------------------------------------------------------------------------
  // String.prototype.indexOf and replace with a string pattern

  predicate OccursAt(s: string, pat: string, i: int) {
    0 <= i && i + |pat| <= |s| && s[i..i + |pat|] == pat
  }

  /** The first position at which `pat` occurs in `s`, or -1. */
  function IndexOf(s: string, pat: string): (r: int)
    ensures r == -1 || OccursAt(s, pat, r)
    ensures forall i :: 0 <= i && (r == -1 || i < r) ==> !OccursAt(s, pat, i)
    decreases |s|
  {
    if |s| < |pat| then -1
    else if s[..|pat|] == pat then 0
    else
      var k := IndexOf(s[1..], pat);
      assert forall i :: 1 <= i ==> (OccursAt(s, pat, i) <==> OccursAt(s[1..], pat, i - 1)) by {
        forall i | 1 <= i
          ensures OccursAt(s, pat, i) <==> OccursAt(s[1..], pat, i - 1)
        {
          if i + |pat| <= |s| {
            assert s[1..][i - 1..i - 1 + |pat|] == s[i..i + |pat|];
          }
        }
      }
      assert !OccursAt(s, pat, 0);
      if k == -1 then -1 else k + 1
  }

  predicate Contains(s: string, pat: string) {
    IndexOf(s, pat) >= 0
  }

  /** `s.replace(pat, rep)` with a string pattern: only the first occurrence is replaced. */
  function ReplaceFirst(s: string, pat: string, rep: string): (r: string)
    ensures !Contains(s, pat) ==> r == s
    ensures Contains(s, pat) ==> |r| == |s| - |pat| + |rep|
  {
    var i := IndexOf(s, pat);
    if i < 0 then s else s[..i] + rep + s[i + |pat|..]
  }

  /** Replacing with a string pattern touches only its first occurrence: without one the text is
      unchanged, otherwise the text before it is kept, `rep` stands in its place and the text
      after it is kept. */
  lemma ReplaceFirstReplacesFirst(s: string, pat: string, rep: string, i: int)
    requires OccursAt(s, pat, i)
    requires forall j :: 0 <= j < i ==> !OccursAt(s, pat, j)
    ensures ReplaceFirst(s, pat, rep) == s[..i] + rep + s[i + |pat|..]
  {
  }

  /** With no occurrence of the pattern, replacing changes nothing. */
  lemma ReplaceFirstWithoutOccurrence(s: string, pat: string, rep: string)
    requires forall i :: !OccursAt(s, pat, i)
    ensures ReplaceFirst(s, pat, rep) == s
  {
  }

  /** A name without a dot, followed by an extension that starts with a dot: the extension's
      own position is the first occurrence, so replacing it with "" gives the name back. */
  lemma StripExtension(name: string, ext: string)
    requires '.' !in name && |ext| > 0 && ext[0] == '.'
    ensures IndexOf(name + ext, ext) == |name|
    ensures ReplaceFirst(name + ext, ext, "") == name
  {
    var s := name + ext;
    assert OccursAt(s, ext, |name|) by { assert s[|name|..|name| + |ext|] == ext; }
    var i := IndexOf(s, ext);
    assert i != -1;
    if i < |name| {
      NoDotNoEarlyOccurrence(name, ext, ext, i);
    }
    assert s[..i] == name;
  }

  /** No occurrence of a dotted pattern can start inside a name without a dot. */
  lemma NoDotNoEarlyOccurrence(name: string, rest: string, pat: string, i: int)
    requires '.' !in name && |pat| > 0 && pat[0] == '.'
    requires 0 <= i < |name|
    ensures !OccursAt(name + rest, pat, i)
  {
    var s := name + rest;
    assert s[i] == name[i] && s[i] != '.';
    if i + |pat| <= |s| {
      assert s[i..i + |pat|][0] == s[i];
    }
  }

  // ---------------------------------------------------------------------------
  // Case mapping (ASCII letters) and number formatting

  function UpperChar(c: char): char {
    if 'a' <= c <= 'z' then (c as int - 32) as char else c
  }

  function LowerChar(c: char): char {
    if 'A' <= c <= 'Z' then (c as int + 32) as char else c
  }

  /** String.prototype.toUpperCase on ASCII letters. */
  function ToUpper(s: string): (r: string)
    ensures |r| == |s| && forall i :: 0 <= i < |s| ==> r[i] == UpperChar(s[i])
  {
    seq(|s|, i requires 0 <= i < |s| => UpperChar(s[i]))
  }

  /** String.prototype.toLowerCase on ASCII letters. */
  function ToLower(s: string): (r: string)
    ensures |r| == |s| && forall i :: 0 <= i < |s| ==> r[i] == LowerChar(s[i])
  {
    seq(|s|, i requires 0 <= i < |s| => LowerChar(s[i]))
  }

  /** Lower-casing leaves no upper-case ASCII letter and is idempotent. */
  lemma ToLowerIdempotent(s: string)
    ensures forall i :: 0 <= i < |ToLower(s)| ==> !('A' <= ToLower(s)[i] <= 'Z')
    ensures ToLower(ToLower(s)) == ToLower(s)
  {
  }

  function DigitChar(d: nat): char
    requires d < 10
  {
    "0123456789"[d]
  }

  /** The decimal text of a natural number, as a template literal renders it. */
  function NatToString(n: nat): (r: string)
    ensures |r| > 0
    ensures forall i :: 0 <= i < |r| ==> '0' <= r[i] <= '9'
  {
    if n < 10 then [DigitChar(n)] else NatToString(n / 10) + [DigitChar(n % 10)]
  }

  // ---------------------------------------------------------------------------
  // Directory reads

  /** What fs.readdir hands to its callback: an error, or the entry names in the
      order the file system returns them. */
  datatype DirRead = ReadDirFailed(err: string) | DirEntries(names: seq<string>)
}
