/** JavaScript values and the few coercions the dashboard and its AI layer rely on:
    truthiness, `String(v)`, property reads, `===`, `toLowerCase` and `trim`. */
module Js {

  datatype Option<+T> = None | Some(value: T)

  /** A value as it reaches the code: anything JSON can carry, plus `undefined`.
      Numbers are integers here. */
  datatype Json =
    | Undefined
    | Null
    | Bool(b: bool)
    | Num(n: int)
    | Str(s: string)
    | Array(items: seq<Json>)
    | Object(fields: map<string, Json>)

  /** How an expression ends: with a value, or by throwing. */
  datatype Completion<+T> = Normal(value: T) | Threw

  predicate Nullish(v: Json) {
    v.Undefined? || v.Null?
  }

  /** `!!v` */
  predicate Truthy(v: Json) {
    match v
    case Undefined => false
    case Null => false
    case Bool(b) => b
    case Num(n) => n != 0
    case Str(s) => s != ""
    case Array(_) => true
    case Object(_) => true
  }

  /** `v || d` */
  function Or(v: Json, d: Json): (r: Json)
    ensures Truthy(v) ==> r == v
    ensures !Truthy(v) ==> r == d
  {
    if Truthy(v) then v else d
  }

  /** `v.key` for a key that no built-in prototype defines: reading a property of
      `null` or `undefined` throws a TypeError; other primitives have no such property. */
  function GetProp(v: Json, key: string): (r: Completion<Json>)
    ensures r.Threw? <==> Nullish(v)
    ensures v.Object? && key in v.fields ==> r == Normal(v.fields[key])
    ensures r.Normal? && !(v.Object? && key in v.fields) ==> r.value == Undefined
  {
    match v
    case Undefined => Threw
    case Null => Threw
    case Object(m) => Normal(if key in m then m[key] else Undefined)
    case _ => Normal(Undefined)
  }

  /** `param = ''`: the default an argument takes when it is `undefined`. */
  function DefaultEmpty(v: Json): (r: Json)
    ensures Truthy(r) == Truthy(v) && (Truthy(v) ==> r == v)
  {
    if v.Undefined? then Str("") else v
  }

  /** The value `GetProp` yields when it does not throw, for reads on a value
      already known not to be `null` or `undefined`. */
  function Prop(v: Json, key: string): (r: Json)
    ensures !Nullish(v) ==> GetProp(v, key) == Normal(r)
  {
    match v
    case Object(m) => if key in m then m[key] else Undefined
    case _ => Undefined
  }

  /** `record.key` on a document that arrived as a JSON object. */
  function Field(record: map<string, Json>, key: string): (r: Json)
    ensures r == Prop(Object(record), key)
  {
    if key in record then record[key] else Undefined
  }

  /** `a === b`. Two arrays or objects are never the same reference here:
      every such value was built by a separate parse. */
  predicate StrictEq(a: Json, b: Json) {
    match (a, b)
    case (Undefined, Undefined) => true
    case (Null, Null) => true
    case (Bool(x), Bool(y)) => x == y
    case (Num(x), Num(y)) => x == y
    case (Str(x), Str(y)) => x == y
    case _ => false
  }

  // ---------------------------------------------------------------- numbers

  function DigitChar(d: nat): char
    requires d < 10
  {
    "0123456789"[d]
  }

  predicate IsDigit(c: char) {
    '0' <= c <= '9'
  }

  function DigitValue(c: char): nat
    requires IsDigit(c)
  {
    (c as int - '0' as int) as nat
  }

  /** The decimal numeral of `n`, without leading zeros. */
  function NatToString(n: nat): (s: string)
    ensures |s| > 0
    ensures forall i :: 0 <= i < |s| ==> IsDigit(s[i])
    ensures |s| > 1 ==> s[0] != '0'
  {
    if n < 10 then [DigitChar(n)] else NatToString(n / 10) + [DigitChar(n % 10)]
  }

  /** Reads a string of digits back as a number. */
  function ParseDigits(s: string): nat
    requires forall i :: 0 <= i < |s| ==> IsDigit(s[i])
  {
    if s == [] then 0 else 10 * ParseDigits(s[..|s| - 1]) + DigitValue(s[|s| - 1])
  }

  lemma {:induction false} NatToStringRoundTrip(n: nat)
    ensures ParseDigits(NatToString(n)) == n
  {
    var s := NatToString(n);
    if n >= 10 {
      NatToStringRoundTrip(n / 10);
      assert s[..|s| - 1] == NatToString(n / 10);
    }
  }

  /** Distinct counts print as distinct numerals. */
  lemma NatToStringInjective(m: nat, n: nat)
    requires NatToString(m) == NatToString(n)
    ensures m == n
  {
    NatToStringRoundTrip(m);
    NatToStringRoundTrip(n);
  }

  function IntToString(n: int): string {
    if n < 0 then "-" + NatToString(-n) else NatToString(n)
  }

  // ---------------------------------------------------------------- strings

  /** Whether `String(v)` returns at all. An object that arrived as JSON and has
      its own `toString` key holds no function there, and the `valueOf` it inherits
      returns the object itself, so the conversion throws a TypeError; an array
      throws when one of its elements does. Such a value is always truthy. */
  predicate Printable(v: Json) {
    match v
    case Object(m) => "toString" !in m
    case Array(items) => forall i :: 0 <= i < |items| ==> Printable(items[i])
    case _ => true
  }

  /** `String(v)`, which is also how a value becomes a property key and how
      `+` and template literals render it, for a `Printable` value. A string
      prints as itself and a non-negative number as a numeral that reads back. */
  function ToJsString(v: Json): (r: string)
    ensures v.Str? ==> r == v.s
    ensures v.Num? && v.n >= 0 ==>
      (forall i :: 0 <= i < |r| ==> IsDigit(r[i])) && ParseDigits(r) == v.n
  {
    match v
    case Undefined => "undefined"
    case Null => "null"
    case Bool(b) => if b then "true" else "false"
    case Num(n) =>
      if n < 0 then IntToString(n)
      else NatToStringRoundTrip(n); IntToString(n)
    case Str(s) => s
    case Array(items) =>
      // Array.prototype.join(","): null and undefined elements print as ""
      Join(seq(|items|, i requires 0 <= i < |items| =>
        if Nullish(items[i]) then "" else ToJsString(items[i])), ",")
    case Object(_) => "[object Object]"
  }

  function Join(parts: seq<string>, sep: string): string {
    if parts == [] then ""
    else if |parts| == 1 then parts[0]
    else parts[0] + sep + Join(parts[1..], sep)
  }

  function LowerChar(c: char): char {
    if 'A' <= c <= 'Z' then (c as int + 32) as char else c
  }

  /** `toLowerCase()`, for the ASCII letters. */
  function Lower(s: string): (r: string)
    ensures |r| == |s|
    ensures forall i :: 0 <= i < |s| ==> r[i] == LowerChar(s[i])
  {
    seq(|s|, i requires 0 <= i < |s| => LowerChar(s[i]))
  }

  lemma LowerConcat(s: string, t: string)
    ensures Lower(s + t) == Lower(s) + Lower(t)
  {
  }

  /** `text.includes(word)`, written as a scan over the start positions. */
  predicate Includes(text: string, word: string)
    ensures word == [] ==> Includes(text, word)
    ensures Includes(text, word) ==> |word| <= |text|
    decreases |text|
  {
    |word| <= |text| && (text[..|word|] == word || (text != [] && Includes(text[1..], word)))
  }

  /** `word` occurs in `text` starting at position `i`. */
  predicate OccursAt(text: string, word: string, i: int) {
    0 <= i && i + |word| <= |text| && text[i..i + |word|] == word
  }

  /** The scan finds exactly the positions where `word` occurs. */
  lemma {:induction false} IncludesIffOccurs(text: string, word: string)
    ensures Includes(text, word) <==> exists i :: OccursAt(text, word, i)
    decreases |text|
  {
    if |word| <= |text| {
      assert text[..|word|] == text[0..0 + |word|];
      if text[..|word|] == word {
        assert OccursAt(text, word, 0);
      }
      if text != [] {
        var rest := text[1..];
        IncludesIffOccurs(rest, word);
        if Includes(rest, word) {
          var i :| OccursAt(rest, word, i);
          DropFirstSlice(text, i, |word|);
          assert OccursAt(text, word, i + 1);
        }
        if exists i :: OccursAt(text, word, i) {
          var i :| OccursAt(text, word, i);
          if i > 0 {
            DropFirstSlice(text, i - 1, |word|);
            assert OccursAt(rest, word, i - 1);
            assert Includes(rest, word);
          } else {
            assert text[..|word|] == word;
          }
          assert Includes(text, word);
        }
      } else {
        assert OccursAt(text, word, 0);
      }
    }
  }

  /** A slice of `text[1..]` is the slice of `text` one position further on. */
  lemma DropFirstSlice(text: string, i: nat, n: nat)
    requires text != [] && i + n <= |text| - 1
    ensures text[1..][i..i + n] == text[i + 1..i + 1 + n]
  {
  }

  /** An occurrence stays an occurrence when text is added on either side. */
  lemma IncludesExtend(pre: string, text: string, post: string, word: string)
    requires Includes(text, word)
    ensures Includes(pre + text + post, word)
  {
    IncludesIffOccurs(text, word);
    var i :| OccursAt(text, word, i);
    var whole := pre + text + post;
    assert whole[|pre| + i..|pre| + i + |word|] == text[i..i + |word|];
    assert OccursAt(whole, word, |pre| + i);
    IncludesIffOccurs(whole, word);
  }

  /** The characters `trim()` removes: ECMAScript WhiteSpace and LineTerminator. */
  predicate IsJsSpace(c: char) {
    var u := c as int;
    (0x09 <= u <= 0x0D) || u == 0x20 || u == 0xA0 || u == 0x1680
    || (0x2000 <= u <= 0x200A) || u == 0x2028 || u == 0x2029 || u == 0x202F
    || u == 0x205F || u == 0x3000 || u == 0xFEFF
  }

  function TrimStart(s: string): string {
    if s != [] && IsJsSpace(s[0]) then TrimStart(s[1..]) else s
  }

  function TrimEnd(s: string): string {
    if s != [] && IsJsSpace(s[|s| - 1]) then TrimEnd(s[..|s| - 1]) else s
  }

  predicate AllSpace(s: string) {
    forall i :: 0 <= i < |s| ==> IsJsSpace(s[i])
  }

  /** `s.trim()`: never longer than `s`, and with no whitespace left at either end. */
  function Trim(s: string): (r: string)
    ensures |r| <= |s|
    ensures r != [] ==> !IsJsSpace(r[0]) && !IsJsSpace(r[|r| - 1])
  {
    TrimStartSplits(s);
    TrimEndSplits(TrimStart(s));
    TrimEnd(TrimStart(s))
  }

  lemma {:induction false} TrimStartSplits(s: string)
    ensures |TrimStart(s)| <= |s|
    ensures TrimStart(s) == s[|s| - |TrimStart(s)|..]
    ensures AllSpace(s[..|s| - |TrimStart(s)|])
    ensures TrimStart(s) != [] ==> !IsJsSpace(TrimStart(s)[0])
  {
    if s != [] && IsJsSpace(s[0]) {
      TrimStartSplits(s[1..]);
      var k := |s[1..]| - |TrimStart(s[1..])|;
      assert s[..k + 1] == [s[0]] + s[1..][..k];
    }
  }

  lemma {:induction false} TrimEndSplits(s: string)
    ensures |TrimEnd(s)| <= |s|
    ensures TrimEnd(s) == s[..|TrimEnd(s)|]
    ensures AllSpace(s[|TrimEnd(s)|..])
    ensures TrimEnd(s) != [] ==> !IsJsSpace(TrimEnd(s)[|TrimEnd(s)| - 1])
  {
    if s != [] && IsJsSpace(s[|s| - 1]) {
      var t := s[..|s| - 1];
      TrimEndSplits(t);
      var k := |TrimEnd(t)|;
      assert s[k..] == t[k..] + [s[|s| - 1]];
    }
  }

  /** `trim()` keeps a contiguous middle piece and drops only whitespace around it. */
  lemma TrimSpec(s: string)
    ensures exists i, j :: (0 <= i <= j <= |s| && Trim(s) == s[i..j]
      && AllSpace(s[..i]) && AllSpace(s[j..]))
  {
    TrimStartSplits(s);
    var t := TrimStart(s);
    var i := |s| - |t|;
    TrimEndSplits(t);
    var k := |TrimEnd(t)|;
    assert Trim(s) == s[i..i + k];
    assert s[i + k..] == t[k..];
  }
}
