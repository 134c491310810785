// Shared vocabulary: optional values, results with error kinds, the Python
// string operations the tool relies on, and JSON values for configuration.

module Common {

  datatype Option<T> = None | Some(value: T)

  /** The exception classes the tool raises or catches. */
  datatype ErrorKind =
    | ValueErr       // ValueError
    | Failure        // a plain Exception (vendor errors and their wrappers)
    | FileMissing    // FileNotFoundError
    | ConfigMissing  // ConfigNotFoundError (an abstract kind)

  datatype Error = Error(kind: ErrorKind, message: string)

  datatype Result<T> = Ok(value: T) | Err(error: Error)

  /** A vendor HTTP reply: a body, a rejected status with the response text,
      or a `requests.exceptions.RequestException` with its message. */
  datatype Reply<T> = Got(body: T) | BadStatus(text: string) | NetworkError(message: string)

  /** `raise Exception(f"{prefix}{str(e)}")` inside an `except Exception as e`. */
  function Wrap(prefix: string, e: Error): (w: Error)
    ensures w.kind == Failure && StartsWith(w.message, prefix)
  {
    Error(Failure, prefix + e.message)
  }

  // ---------------------------------------------------------------------
  // Strings

  predicate StartsWith(s: string, p: string) {
    |p| <= |s| && s[..|p|] == p
  }

  lemma StartsWithAppend(p: string, q: string)
    ensures StartsWith(p + q, p)
  {
    assert (p + q)[..|p|] == p;
  }

  predicate IsAsciiDigit(c: char) { '0' <= c <= '9' }

  /** `str.isdigit()` over ASCII digits: non-empty and every character a digit. */
  predicate IsDigits(s: string) {
    |s| > 0 && forall i :: 0 <= i < |s| ==> IsAsciiDigit(s[i])
  }

  function DigitChar(d: nat): (c: char)
    requires d < 10
    ensures IsAsciiDigit(c) && c as int - '0' as int == d
  {
    (d + '0' as int) as char
  }

  /** Python's `str(n)` for a non-negative integer. */
  function NatToString(n: nat): (s: string)
    ensures IsDigits(s)
    decreases n
  {
    if n < 10 then [DigitChar(n)] else NatToString(n / 10) + [DigitChar(n % 10)]
  }

  /** The value of a string of ASCII digits read in base ten. */
  function DigitsValue(s: string): nat
    requires forall i :: 0 <= i < |s| ==> IsAsciiDigit(s[i])
  {
    if s == [] then 0
    else
      assert IsAsciiDigit(s[|s| - 1]);
      DigitsValue(s[..|s| - 1]) * 10 + (s[|s| - 1] as int - '0' as int)
  }

  lemma {:induction false} DigitsValueOfNatToString(n: nat)
    ensures DigitsValue(NatToString(n)) == n
    decreases n
  {
    if n >= 10 {
      var s := NatToString(n);
      assert s[..|s| - 1] == NatToString(n / 10);
      DigitsValueOfNatToString(n / 10);
    }
  }

  /** Python's `str(i)` for any integer. */
  function IntToString(i: int): string {
    if i < 0 then "-" + NatToString(-i) else NatToString(i)
  }

  /** Digits with single underscores between them, the digit part `int()`
      accepts. */
  predicate IsGroupedDigits(s: string) {
    && |s| > 0 && IsAsciiDigit(s[0]) && IsAsciiDigit(s[|s| - 1])
    && (forall i :: 0 <= i < |s| ==> IsAsciiDigit(s[i]) || s[i] == '_')
    && (forall i :: 0 <= i < |s| - 1 ==> s[i] == '_' ==> s[i + 1] != '_')
  }

  /** The digits of a digit-and-underscore string, underscores removed. */
  function DropUnderscores(s: string): string
    decreases |s|
  {
    if s == [] then []
    else (if s[0] == '_' then [] else [s[0]]) + DropUnderscores(s[1..])
  }

  /** Dropping the underscores of a digit-and-underscore string leaves digits. */
  lemma {:induction false} DropUnderscoresGivesDigits(s: string)
    requires forall i :: 0 <= i < |s| ==> IsAsciiDigit(s[i]) || s[i] == '_'
    ensures forall i :: 0 <= i < |DropUnderscores(s)| ==> IsAsciiDigit(DropUnderscores(s)[i])
    decreases |s|
  {
    if s != [] {
      DropUnderscoresGivesDigits(s[1..]);
    }
  }

  lemma {:induction false} DropUnderscoresAppend(a: string, b: string)
    ensures DropUnderscores(a + b) == DropUnderscores(a) + DropUnderscores(b)
    decreases |a|
  {
    if a == [] {
      assert a + b == b;
    } else {
      assert (a + b)[1..] == a[1..] + b;
      DropUnderscoresAppend(a[1..], b);
    }
  }

  lemma {:induction false} DropUnderscoresOfDigits(s: string)
    requires forall i :: 0 <= i < |s| ==> IsAsciiDigit(s[i])
    ensures DropUnderscores(s) == s
    decreases |s|
  {
    if s != [] {
      DropUnderscoresOfDigits(s[1..]);
    }
  }

  /** The text `int()` reads once surrounding whitespace is stripped: an
      optional sign and the digit part. */
  function SignedBody(t: string): string {
    if |t| > 0 && (t[0] == '-' || t[0] == '+') then t[1..] else t
  }

  /** Python's `int(s)` in base ten: surrounding whitespace is ignored, an
      optional '+' or '-' comes first, and single underscores may separate
      digits; every other string is a parse failure (None). */
  function ParseInt(s: string): Option<int> {
    ParseSigned(Strip(s))
  }

  /** `int()` of a text without surrounding whitespace. */
  function ParseSigned(t: string): Option<int> {
    var body := SignedBody(t);
    if IsGroupedDigits(body) then
      DropUnderscoresGivesDigits(body);
      var magnitude: int := DigitsValue(DropUnderscores(body));
      Some(if t[0] == '-' then -magnitude else magnitude)
    else None
  }

  /** A string without surrounding whitespace is its own strip. */
  lemma StripOfUnpadded(s: string)
    requires s != [] && !IsSpace(s[0]) && !IsSpace(s[|s| - 1])
    ensures Strip(s) == s && ParseInt(s) == ParseSigned(s)
  {
  }

  /** A plain digit string is a digit group with nothing to drop. */
  lemma GroupedOfDigits(a: string)
    requires IsDigits(a)
    ensures IsGroupedDigits(a) && DropUnderscores(a) == a
  {
    DropUnderscoresOfDigits(a);
    assert forall i :: 0 <= i < |a| - 1 ==> a[i] != '_';
  }

  /** What `int()` reads from a text whose unsigned part is plain digits. */
  lemma ParseSignedOfDigits(t: string, body: string)
    requires SignedBody(t) == body && IsDigits(body) && IsGroupedDigits(body) && DropUnderscores(body) == body
    ensures ParseSigned(t) == Some(if t[0] == '-' then -(DigitsValue(body) as int) else DigitsValue(body) as int)
  {
  }

  /** A digit string, with or without a sign, read without stripping. */
  lemma ParseSignedDigits(a: string)
    requires IsDigits(a)
    ensures ParseSigned(a) == Some(DigitsValue(a) as int)
  {
    GroupedOfDigits(a);
    assert SignedBody(a) == a;
  }

  lemma ParseSignedPlus(a: string)
    requires IsDigits(a)
    ensures ParseSigned("+" + a) == Some(DigitsValue(a) as int)
  {
    GroupedOfDigits(a);
    var t := "+" + a;
    assert t[0] == '+' && t[1..] == a;
    ParseSignedOfDigits(t, a);
  }

  lemma ParseSignedMinus(a: string)
    requires IsDigits(a)
    ensures ParseSigned("-" + a) == Some(-(DigitsValue(a) as int))
  {
    GroupedOfDigits(a);
    var t := "-" + a;
    assert t[0] == '-' && t[1..] == a;
    ParseSignedOfDigits(t, a);
  }

  /** `int()` reads a plain digit string, and the same digits after a '+'
      or a '-' sign. */
  lemma ParseIntSigned(a: string)
    requires IsDigits(a)
    ensures ParseInt(a) == Some(DigitsValue(a) as int)
    ensures ParseInt("+" + a) == Some(DigitsValue(a) as int)
    ensures ParseInt("-" + a) == Some(-(DigitsValue(a) as int))
  {
    ParseSignedDigits(a);
    ParseSignedPlus(a);
    ParseSignedMinus(a);
    assert IsAsciiDigit(a[0]) && IsAsciiDigit(a[|a| - 1]);
    StripOfUnpadded(a);
    var p, m := "+" + a, "-" + a;
    assert p[|p| - 1] == a[|a| - 1] && m[|m| - 1] == a[|a| - 1];
    StripOfUnpadded(p);
    StripOfUnpadded(m);
  }

  lemma ParseIntOfIntToString(i: int)
    ensures ParseInt(IntToString(i)) == Some(i)
  {
    var n: nat := if i < 0 then -i else i;
    ParseIntSigned(NatToString(n));
    DigitsValueOfNatToString(n);
  }

  /** Surrounding whitespace does not change what `int()` reads. */
  lemma ParseIntPadded(w: string, a: string)
    requires a != [] && !IsSpace(a[0]) && !IsSpace(a[|a| - 1])
    requires forall i :: 0 <= i < |w| ==> IsSpace(w[i])
    ensures ParseInt(w + a + w) == ParseInt(a)
  {
    StripPadded(w, a);
    StripOfUnpadded(a);
  }

  lemma DigitsAppend(a: string, b: string)
    requires IsDigits(a) && IsDigits(b)
    ensures IsDigits(a + b)
  {
    assert forall i :: 0 <= i < |a + b| ==> (a + b)[i] == if i < |a| then a[i] else b[i - |a|];
  }

  /** Two digit groups joined by one underscore form a digit group. */
  lemma GroupedUnderscore(a: string, b: string)
    requires IsDigits(a) && IsDigits(b)
    ensures IsGroupedDigits(a + "_" + b)
  {
    var g := a + "_" + b;
    assert forall i :: 0 <= i < |a| ==> g[i] == a[i];
    assert forall i :: |a| < i < |g| ==> g[i] == b[i - |a| - 1];
  }

  /** Their digits are the two groups' digits. */
  lemma DropUnderscoreBetween(a: string, b: string)
    requires IsDigits(a) && IsDigits(b)
    ensures DropUnderscores(a + "_" + b) == a + b
  {
    var u := "_" + b;
    assert forall i :: 1 <= i < |u| ==> u[i] == b[i - 1];
    assert u[1..] == b;
    DropUnderscoresOfDigits(b);
    assert DropUnderscores(u) == b;
    assert a + "_" + b == a + u;
    DropUnderscoresAppend(a, u);
    DropUnderscoresOfDigits(a);
  }

  /** An underscore between two digit groups is skipped. */
  lemma ParseIntUnderscore(a: string, b: string)
    requires IsDigits(a) && IsDigits(b)
    ensures ParseInt(a + "_" + b) == ParseInt(a + b)
  {
    var g := a + "_" + b;
    assert IsAsciiDigit(a[0]) && IsAsciiDigit(b[|b| - 1]);
    assert g[0] == a[0] && g[|g| - 1] == b[|b| - 1];
    StripOfUnpadded(g);
    GroupedUnderscore(a, b);
    DropUnderscoreBetween(a, b);
    assert SignedBody(g) == g;
    DigitsAppend(a, b);
    ParseSignedDigits(a + b);
    assert (a + b)[0] == a[0] && (a + b)[|a + b| - 1] == b[|b| - 1];
    StripOfUnpadded(a + b);
  }

  /** A doubled, leading or trailing underscore makes `int()` fail. */
  lemma ParseIntRejectsUnderscores(a: string, b: string)
    requires IsDigits(a) && IsDigits(b)
    ensures ParseInt(a + "__" + b).None? && ParseInt("_" + a).None? && ParseInt(a + "_").None?
  {
    assert IsAsciiDigit(a[0]) && IsAsciiDigit(a[|a| - 1]) && IsAsciiDigit(b[|b| - 1]);
    var h := a + "__" + b;
    assert h[0] == a[0] && h[|h| - 1] == b[|b| - 1];
    StripOfUnpadded(h);
    assert SignedBody(h) == h && h[|a|] == '_' && h[|a| + 1] == '_';
    var l := "_" + a;
    assert l[|l| - 1] == a[|a| - 1];
    StripOfUnpadded(l);
    assert SignedBody(l) == l;
    var r := a + "_";
    StripOfUnpadded(r);
    assert SignedBody(r) == r;
  }

  /** Whitespace around an unpadded string is stripped away. */
  lemma StripPadded(w: string, a: string)
    requires a != [] && !IsSpace(a[0]) && !IsSpace(a[|a| - 1])
    requires forall i :: 0 <= i < |w| ==> IsSpace(w[i])
    ensures Strip(w + a + w) == a
  {
    TrimLeftOfSpaces(w, a + w);
    assert w + a + w == w + (a + w);
    TrimRightOfSpaces(a, w);
  }

  lemma {:induction false} TrimLeftOfSpaces(w: string, a: string)
    requires a != [] && !IsSpace(a[0])
    requires forall i :: 0 <= i < |w| ==> IsSpace(w[i])
    ensures TrimLeft(w + a) == a
    decreases |w|
  {
    if w == [] {
      assert w + a == a;
    } else {
      assert (w + a)[1..] == w[1..] + a;
      TrimLeftOfSpaces(w[1..], a);
    }
  }

  lemma {:induction false} TrimRightOfSpaces(a: string, w: string)
    requires a != [] && !IsSpace(a[|a| - 1])
    requires forall i :: 0 <= i < |w| ==> IsSpace(w[i])
    ensures TrimRight(a + w) == a
    decreases |w|
  {
    if w == [] {
      assert a + w == a;
    } else {
      assert (a + w)[..|a + w| - 1] == a + w[..|w| - 1];
      TrimRightOfSpaces(a, w[..|w| - 1]);
    }
  }

  /** The part of `s` after its last `sep`, i.e. `s.split(sep)[-1]`. */
  function LastSegment(s: string, sep: char): (r: string)
    ensures |r| <= |s| && sep !in r
  {
    if s == [] then []
    else if s[|s| - 1] == sep then []
    else LastSegment(s[..|s| - 1], sep) + [s[|s| - 1]]
  }

  lemma {:induction false} LastSegmentAfterSeparator(p: string, q: string, sep: char)
    requires |p| > 0 && p[|p| - 1] == sep && sep !in q
    ensures LastSegment(p + q, sep) == q
    decreases |q|
  {
    if q == [] {
      assert p + q == p;
    } else {
      var q' := q[..|q| - 1];
      assert (p + q)[..|p + q| - 1] == p + q';
      LastSegmentAfterSeparator(p, q', sep);
      assert q' + [q[|q| - 1]] == q;
    }
  }

  predicate IsSpace(c: char) {
    c == ' ' || c == '\t' || c == '\n' || c == '\r' || c == '\U{B}' || c == '\U{C}'
  }

  function TrimLeft(s: string): string {
    if s != [] && IsSpace(s[0]) then TrimLeft(s[1..]) else s
  }

  /** TrimLeft drops exactly the leading whitespace. */
  lemma {:induction false} TrimLeftSpec(s: string)
    ensures var r := TrimLeft(s);
      && |r| <= |s| && r == s[|s| - |r|..]
      && (forall k :: 0 <= k < |s| - |r| ==> IsSpace(s[k]))
      && (r != [] ==> !IsSpace(r[0]))
    decreases |s|
  {
    if s != [] && IsSpace(s[0]) {
      TrimLeftSpec(s[1..]);
      var r := TrimLeft(s[1..]);
      assert s[1..][|s[1..]| - |r|..] == s[|s| - |r|..];
      assert forall k :: 1 <= k < |s| - |r| ==> s[k] == s[1..][k - 1];
    }
  }

  function TrimRight(s: string): string {
    if s != [] && IsSpace(s[|s| - 1]) then TrimRight(s[..|s| - 1]) else s
  }

  /** TrimRight drops exactly the trailing whitespace. */
  lemma {:induction false} TrimRightSpec(s: string)
    ensures var r := TrimRight(s);
      && |r| <= |s| && r == s[..|r|]
      && (forall k :: |r| <= k < |s| ==> IsSpace(s[k]))
      && (r != [] ==> !IsSpace(r[|r| - 1]))
    decreases |s|
  {
    if s != [] && IsSpace(s[|s| - 1]) {
      var init := s[..|s| - 1];
      TrimRightSpec(init);
      var r := TrimRight(init);
      assert init[..|r|] == s[..|r|];
      assert forall k :: |r| <= k < |s| - 1 ==> s[k] == init[k];
    }
  }

  /** `str.strip()` over ASCII whitespace. */
  function Strip(s: string): string {
    TrimRight(TrimLeft(s))
  }

  /** r is s[i..j], with only whitespace before i and from j on. */
  predicate IsTrimmedSlice(s: string, r: string, i: nat, j: nat) {
    && i <= j <= |s| && r == s[i..j]
    && (forall k :: 0 <= k < i ==> IsSpace(s[k]))
    && (forall k :: j <= k < |s| ==> IsSpace(s[k]))
  }

  /** strip removes whitespace at both ends and nothing else: the result is
      a slice of s with whitespace only around it, and it neither begins nor
      ends with whitespace. */
  lemma StripSpec(s: string)
    ensures var r := Strip(s);
      && (r != [] ==> !IsSpace(r[0]) && !IsSpace(r[|r| - 1]))
      && exists i: nat, j: nat :: IsTrimmedSlice(s, r, i, j)
  {
    var l := TrimLeft(s);
    TrimLeftSpec(s);
    TrimRightSpec(l);
    var r := TrimRight(l);
    var i := |s| - |l|;
    var j := i + |r|;
    assert r == s[i..j];
    forall k | j <= k < |s| ensures IsSpace(s[k]) {
      assert s[k] == l[k - i];
    }
    assert IsTrimmedSlice(s, r, i, j);
  }

  lemma StripIdempotent(s: string)
    ensures Strip(Strip(s)) == Strip(s)
  {
    StripSpec(s);
    var r := Strip(s);
    assert TrimLeft(r) == r;
  }

  /** The value a string-to-string dict built from key/value pairs holds for
      `key` (a dict comprehension, or a JSON object read by `json.loads`):
      the last pair with that key wins. */
  function LastValue(pairs: seq<(string, string)>, key: string): Option<string> {
    if pairs == [] then None
    else if pairs[|pairs| - 1].0 == key then Some(pairs[|pairs| - 1].1)
    else LastValue(pairs[..|pairs| - 1], key)
  }

  /** The lookup finds nothing exactly when no pair has the key, and otherwise
      the value of the last pair with it. */
  lemma {:induction false} LastValueSpec(pairs: seq<(string, string)>, key: string)
    ensures var r := LastValue(pairs, key);
      && (r.None? <==> forall i :: 0 <= i < |pairs| ==> pairs[i].0 != key)
      && (r.Some? ==> exists i :: 0 <= i < |pairs| && pairs[i] == (key, r.value)
                                  && forall j :: i < j < |pairs| ==> pairs[j].0 != key)
    decreases |pairs|
  {
    if pairs != [] && pairs[|pairs| - 1].0 != key {
      var init := pairs[..|pairs| - 1];
      LastValueSpec(init, key);
      var r := LastValue(init, key);
      assert forall i :: 0 <= i < |init| ==> pairs[i] == init[i];
      if r.Some? {
        var i :| 0 <= i < |init| && init[i] == (key, r.value) && forall j :: i < j < |init| ==> init[j].0 != key;
        assert pairs[i] == (key, r.value);
      }
    }
  }

  // ---------------------------------------------------------------------
  // JSON values and Python dicts

  /** A loaded JSON document (floating-point numbers are not modelled). */
  datatype Json =
    | JNull
    | JBool(b: bool)
    | JInt(i: int)
    | JStr(s: string)
    | JList(items: seq<Json>)
    | JObj(fields: Dict)

  /** A Python dict: keys in insertion order, each key at most once. */
  type Dict = seq<(string, Json)>

  function Keys(d: Dict): (ks: seq<string>)
    ensures |ks| == |d| && forall i :: 0 <= i < |d| ==> ks[i] == d[i].0
  {
    if d == [] then [] else [d[0].0] + Keys(d[1..])
  }

  predicate UniqueKeys(d: Dict) {
    forall i, j :: 0 <= i < j < |d| ==> d[i].0 != d[j].0
  }

  predicate HasKey(d: Dict, k: string) {
    exists i :: 0 <= i < |d| && d[i].0 == k
  }

  /** `d.get(k)`: the value of the first entry with key k. */
  function Get(d: Dict, k: string): (r: Option<Json>)
    ensures r.None? <==> !HasKey(d, k)
    ensures r.Some? ==> exists i :: 0 <= i < |d| && d[i] == (k, r.value)
  {
    if d == [] then None
    else if d[0].0 == k then Some(d[0].1)
    else
      var r := Get(d[1..], k);
      assert r.Some? ==> exists i :: 1 <= i < |d| && d[i] == (k, r.value) by {
        if r.Some? {
          var i :| 0 <= i < |d[1..]| && d[1..][i] == (k, r.value);
          assert d[i + 1] == (k, r.value);
        }
      }
      assert HasKey(d, k) ==> HasKey(d[1..], k) by {
        if HasKey(d, k) {
          var i :| 0 <= i < |d| && d[i].0 == k;
          assert d[1..][i - 1].0 == k;
        }
      }
      r
  }

  /** `d.get(k, default)`. */
  function GetOr(d: Dict, k: string, default: Json): Json {
    match Get(d, k)
    case Some(v) => v
    case None => default
  }

  /** `d[k] = v`: overwrite in place when present, otherwise append. */
  function Assign(d: Dict, k: string, v: Json): (r: Dict)
    ensures Get(r, k) == Some(v)
    ensures forall k' :: k' != k ==> Get(r, k') == Get(d, k')
    ensures HasKey(d, k) ==> Keys(r) == Keys(d)
    ensures !HasKey(d, k) ==> Keys(r) == Keys(d) + [k]
  {
    if d == [] then [(k, v)]
    else
      var rest := d[1..];
      assert d == [d[0]] + rest;
      GetCons(d[0], rest);
      HasKeyCons(d[0], rest);
      KeysCons(d[0], rest);
      if d[0].0 == k then
        GetCons((k, v), rest);
        KeysCons((k, v), rest);
        [(k, v)] + rest
      else
        var tail := Assign(rest, k, v);
        GetCons(d[0], tail);
        KeysCons(d[0], tail);
        AppendAssoc([d[0].0], Keys(rest), [k]);
        [d[0]] + tail
  }

  lemma AppendAssoc<T>(a: seq<T>, b: seq<T>, c: seq<T>)
    ensures a + (b + c) == (a + b) + c
  {
  }

  /** The last element of a concatenation with a non-empty tail is the tail's. */
  lemma LastOfAppend<T>(a: seq<T>, b: seq<T>)
    requires |b| > 0
    ensures (a + b)[|a + b| - 1] == b[|b| - 1]
  {
  }

  /** A prefix reaching into the tail of a concatenation. */
  lemma PrefixOfAppend<T>(a: seq<T>, b: seq<T>, k: nat)
    requires k <= |b|
    ensures (a + b)[..|a| + k] == a + b[..k]
  {
  }

  /** Extending a prefix of `s` by one element of `s`, after a fixed front. */
  lemma TakeOneMore<T>(front: seq<T>, s: seq<T>, j: nat)
    requires j < |s|
    ensures front + s[..j + 1] == (front + s[..j]) + [s[j]]
  {
    assert s[..j + 1] == s[..j] + [s[j]];
    AppendAssoc(front, s[..j], [s[j]]);
  }

  /** Lookups, membership and keys of a dict with one entry in front. */
  lemma GetCons(x: (string, Json), d: Dict)
    ensures forall k :: Get([x] + d, k) == if x.0 == k then Some(x.1) else Get(d, k)
  {
    assert ([x] + d)[1..] == d;
  }

  lemma HasKeyCons(x: (string, Json), d: Dict)
    ensures forall k :: HasKey([x] + d, k) <==> x.0 == k || HasKey(d, k)
  {
    forall k | HasKey(d, k) ensures HasKey([x] + d, k) {
      var i :| 0 <= i < |d| && d[i].0 == k;
      assert ([x] + d)[i + 1] == d[i];
    }
    forall k | HasKey([x] + d, k) && x.0 != k ensures HasKey(d, k) {
      var i :| 0 <= i < |[x] + d| && ([x] + d)[i].0 == k;
      assert d[i - 1] == ([x] + d)[i];
    }
    assert ([x] + d)[0] == x;
  }

  lemma KeysCons(x: (string, Json), d: Dict)
    ensures Keys([x] + d) == [x.0] + Keys(d)
  {
    assert ([x] + d)[1..] == d;
  }

  /** Python truthiness of a JSON value. */
  predicate Truthy(j: Json) {
    match j
    case JNull => false
    case JBool(b) => b
    case JInt(i) => i != 0
    case JStr(s) => s != ""
    case JList(xs) => xs != []
    case JObj(fs) => fs != []
  }

  /** Truthiness of a lookup: an absent key reads as None. */
  predicate TruthyAt(d: Dict, k: string) {
    Get(d, k).Some? && Truthy(Get(d, k).value)
  }

  /** The text of a configured value; only strings are expected there. */
  function AsText(j: Json): string {
    match j
    case JStr(s) => s
    case JInt(i) => IntToString(i)
    case JBool(b) => if b then "True" else "False"
    case JNull => "None"
    case _ => ""
  }

  /** Python's `a or b` for an optional string argument and a fallback. */
  function OrText(a: Option<string>, b: string): (r: string)
    ensures a.Some? && a.value != "" ==> r == a.value
    ensures (a.None? || a.value == "") ==> r == b
  {
    if a.Some? && a.value != "" then a.value else b
  }
}
