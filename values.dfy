/** Dynamic values of the configuration tree (the YAML/JSON documents the
    extension reads), insertion-ordered dictionaries, the error kinds the
    code raises, and the text Python's str() gives a value when a template
    prints it. */
module Values {

  datatype Option<+T> = None | Some(value: T)

  /** The exceptions of the extension: knack's CLIError, the two Jinja2
      exceptions that the resolver catches and re-raises, and any other
      Python exception (TypeError, KeyError, ...), which no handler in the
      core catches. */
  datatype Error =
    | CliError(msg: string)
    | UndefinedError(msg: string)
    | TemplateSyntaxError(msg: string)
    | OtherError(msg: string)

  datatype Result<+T> = Ok(value: T) | Err(error: Error) {
    predicate IsFailure() { Err? }
    function PropagateFailure<U>(): Result<U> requires Err? { Err(error) }
    function Extract(): T requires Ok? { value }
  }

  datatype Outcome = Pass | Fail(error: Error) {
    predicate IsFailure() { Fail? }
    function PropagateFailure(): Outcome requires Fail? { this }
  }

  /** A decoded YAML/JSON value; a dictionary keeps insertion order, as
      Python's dict does. */
  datatype Value =
    | Null
    | Bool(b: bool)
    | Int(i: int)
    | Str(s: string)
    | List(items: seq<Value>)
    | Dict(entries: seq<(string, Value)>)

  type Entries = seq<(string, Value)>

  /** The keys of an ordered dictionary, in order. */
  function KeysOf(e: Entries): (ks: seq<string>)
    ensures |ks| == |e|
    ensures forall i :: 0 <= i < |e| ==> ks[i] == e[i].0
  {
    if e == [] then [] else [e[0].0] + KeysOf(e[1..])
  }

  /** No key occurs twice (what a Python dict guarantees). */
  predicate UniqueKeys(e: Entries) {
    forall i, j :: 0 <= i < j < |e| ==> e[i].0 != e[j].0
  }

  predicate HasKey(e: Entries, k: string) {
    exists i :: 0 <= i < |e| && e[i].0 == k
  }

  /** d.get(k): the value of the first entry with key k. */
  function Get(e: Entries, k: string): (r: Option<Value>)
    ensures r.Some? <==> HasKey(e, k)
    ensures r.Some? ==> exists i :: 0 <= i < |e| && e[i] == (k, r.value)
  {
    if e == [] then None
    else if e[0].0 == k then Some(e[0].1)
    else
      var r := Get(e[1..], k);
      assert forall i :: 0 < i < |e| ==> e[i] == e[1..][i - 1];
      assert HasKey(e[1..], k) ==> HasKey(e, k);
      r
  }

  /** d[k] = v: overwrite the entry in place, or append a new one. */
  function Put(e: Entries, k: string, v: Value): (r: Entries)
    ensures HasKey(e, k) ==> |r| == |e| && KeysOf(r) == KeysOf(e)
    ensures !HasKey(e, k) ==> r == e + [(k, v)]
    ensures Get(r, k) == Some(v)
    ensures forall k' :: k' != k ==> Get(r, k') == Get(e, k')
    ensures forall k' :: HasKey(r, k') <==> k' == k || HasKey(e, k')
  {
    if e == [] then [(k, v)]
    else if e[0].0 == k then [(k, v)] + e[1..]
    else
      var rest := Put(e[1..], k, v);
      PutStepShape(e, k, v, rest);
      PutStepGet(e, k, v, rest);
      PutStepKeys(e, k, rest);
      [e[0]] + rest
  }

  /** The recursive case of Put, in three parts: what holds of the tail's
      result holds of the whole once the first entry, with another key, is
      put back. */
  lemma PutStepShape(e: Entries, k: string, v: Value, rest: Entries)
    requires e != [] && e[0].0 != k
    requires HasKey(e[1..], k) ==> |rest| == |e[1..]| && KeysOf(rest) == KeysOf(e[1..])
    requires !HasKey(e[1..], k) ==> rest == e[1..] + [(k, v)]
    ensures HasKey(e, k) ==> |[e[0]] + rest| == |e| && KeysOf([e[0]] + rest) == KeysOf(e)
    ensures !HasKey(e, k) ==> [e[0]] + rest == e + [(k, v)]
  {
    var r := [e[0]] + rest;
    assert r[1..] == rest;
    HasKeyCons(e, k);
    if HasKey(e, k) {
      assert KeysOf(r) == [e[0].0] + KeysOf(rest);
    } else {
      assert e == [e[0]] + e[1..];
    }
  }

  lemma PutStepGet(e: Entries, k: string, v: Value, rest: Entries)
    requires e != [] && e[0].0 != k
    requires Get(rest, k) == Some(v)
    requires forall k' :: k' != k ==> Get(rest, k') == Get(e[1..], k')
    ensures Get([e[0]] + rest, k) == Some(v)
    ensures forall k' :: k' != k ==> Get([e[0]] + rest, k') == Get(e, k')
  {
    var r := [e[0]] + rest;
    assert r[0] == e[0] && r[1..] == rest;
  }

  lemma PutStepKeys(e: Entries, k: string, rest: Entries)
    requires e != [] && e[0].0 != k
    requires forall k' :: HasKey(rest, k') <==> k' == k || HasKey(e[1..], k')
    ensures forall k' :: HasKey([e[0]] + rest, k') <==> k' == k || HasKey(e, k')
  {
    var r := [e[0]] + rest;
    assert r[0] == e[0] && r[1..] == rest;
    forall k' ensures HasKey(r, k') <==> k' == k || HasKey(e, k') {
      HasKeyCons(r, k');
      HasKeyCons(e, k');
    }
  }

  /** In a dictionary without repeated keys, looking up the key of an
      entry finds that entry's value. */
  lemma GetAt(e: Entries, i: nat)
    requires UniqueKeys(e) && i < |e|
    ensures Get(e, e[i].0) == Some(e[i].1)
  {
    assert HasKey(e, e[i].0);
    var r := Get(e, e[i].0);
    var j :| 0 <= j < |e| && e[j] == (e[i].0, r.value);
    assert e[j].0 == e[i].0;
  }

  /** Dropping the first entry keeps the keys distinct. */
  lemma UniqueTail(e: Entries)
    requires UniqueKeys(e) && e != []
    ensures UniqueKeys(e[1..])
  {
    forall a, b | 0 <= a < b < |e[1..]| ensures e[1..][a].0 != e[1..][b].0 {
      assert e[1..][a] == e[a + 1] && e[1..][b] == e[b + 1];
    }
  }

  lemma HasKeyCons(e: Entries, k: string)
    requires e != []
    ensures HasKey(e, k) <==> (e[0].0 == k || HasKey(e[1..], k))
  {
    if HasKey(e, k) && e[0].0 != k {
      var i :| 0 <= i < |e| && e[i].0 == k;
      assert e[1..][i - 1].0 == k;
    }
    if HasKey(e[1..], k) {
      var i :| 0 <= i < |e[1..]| && e[1..][i].0 == k;
      assert e[i + 1].0 == k;
    }
  }

  /** {**a, **b}: the keys of a in order, then the new keys of b; b wins. */
  function Merge(a: Entries, b: Entries): (r: Entries)
    requires UniqueKeys(b)
    ensures forall k :: Get(r, k) == (if HasKey(b, k) then Get(b, k) else Get(a, k))
    decreases |b|
  {
    if b == [] then a
    else
      var r := Merge(Put(a, b[0].0, b[0].1), b[1..]);
      forall i | 0 <= i < |b[1..]| ensures b[1..][i].0 != b[0].0 {
        assert b[1..][i] == b[i + 1];
      }
      forall k ensures Get(r, k) == (if HasKey(b, k) then Get(b, k) else Get(a, k)) {
        HasKeyCons(b, k);
      }
      r
  }

  // ---- str() of a value, as a template prints it ----

  function DigitChar(d: nat): char
    requires d < 10
  {
    "0123456789"[d]
  }

  /** Decimal digits of a natural number, most significant first. */
  function NatToString(n: nat): (s: string)
    ensures |s| >= 1
    ensures forall c :: c in s ==> '0' <= c <= '9'
    decreases n
  {
    if n < 10 then [DigitChar(n)] else NatToString(n / 10) + [DigitChar(n % 10)]
  }

  function IntToString(i: int): (s: string)
    ensures |s| >= 1
  {
    if i < 0 then "-" + NatToString(-i) else NatToString(i)
  }

  /** repr(v): strings are quoted, containers show their members' repr. */
  function Repr(v: Value): string
    decreases v, 4
  {
    match v
    case Str(s) => "'" + s + "'"
    case _ => Show(v)
  }

  /** str(v): what `{{ v }}` prints. */
  function Show(v: Value): string
    decreases v, 3
  {
    match v
    case Null => "None"
    case Bool(b) => if b then "True" else "False"
    case Int(i) => IntToString(i)
    case Str(s) => s
    case List(items) => "[" + ShowItems(v, items) + "]"
    case Dict(entries) => "{" + ShowEntries(v, entries) + "}"
  }

  function ShowItems(parent: Value, items: seq<Value>): string
    requires forall x :: x in items ==> x < parent
    decreases parent, 2, |items|
  {
    if items == [] then ""
    else
      assert items[0] in items;
      assert forall x :: x in items[1..] ==> x in items;
      Repr(items[0]) + (if |items| == 1 then "" else ", " + ShowItems(parent, items[1..]))
  }

  function ShowEntries(parent: Value, entries: Entries): string
    requires forall k, x :: (k, x) in entries ==> x < parent
    decreases parent, 2, |entries|
  {
    if entries == [] then ""
    else
      assert (entries[0].0, entries[0].1) in entries;
      assert forall e :: e in entries[1..] ==> e in entries;
      "'" + entries[0].0 + "': " + Repr(entries[0].1)
        + (if |entries| == 1 then "" else ", " + ShowEntries(parent, entries[1..]))
  }

  /** Python truthiness of a value. */
  predicate Truthy(v: Value) {
    match v
    case Null => false
    case Bool(b) => b
    case Int(i) => i != 0
    case Str(s) => s != ""
    case List(items) => items != []
    case Dict(entries) => entries != []
  }

  // ---- string helpers ----

  predicate StartsWith(s: string, prefix: string) {
    |prefix| <= |s| && s[..|prefix|] == prefix
  }

  /** Python's `sub in s` on strings. */
  predicate Contains(s: string, sub: string)
    decreases |s|
  {
    StartsWith(s, sub) || (s != [] && Contains(s[1..], sub))
  }

  /** A string in which the first two characters of sub never occur
      side by side does not contain sub. */
  lemma {:induction false} NoPairNoContains(s: string, sub: string)
    requires |sub| >= 2
    requires forall i :: 0 <= i < |s| - 1 ==> !(s[i] == sub[0] && s[i + 1] == sub[1])
    ensures !Contains(s, sub)
    decreases |s|
  {
    if s != [] {
      assert forall i :: 0 <= i < |s[1..]| ==> s[1..][i] == s[i + 1];
      NoPairNoContains(s[1..], sub);
      if |sub| <= |s| {
        assert s[..|sub|][0] == sub[0] ==> s[..|sub|][1] != sub[1];
      }
    }
  }

  /** The characters Python's str.isspace() accepts, which are the ones
      str.strip() removes: the ASCII blanks and separators, NEL, NBSP and
      the Unicode space separators. */
  predicate IsSpace(c: char) {
    || c == ' ' || c == '\t' || c == '\n' || c == '\r' || c == '\U{000B}' || c == '\U{000C}'
    || ('\U{001C}' <= c <= '\U{001F}') || c == '\U{0085}' || c == '\U{00A0}' || c == '\U{1680}'
    || ('\U{2000}' <= c <= '\U{200A}') || c == '\U{2028}' || c == '\U{2029}' || c == '\U{202F}'
    || c == '\U{205F}' || c == '\U{3000}'
  }

  /** str.strip(): leading and trailing whitespace removed. */
  function Strip(s: string): (r: string)
    ensures |r| <= |s|
    ensures r != [] ==> !IsSpace(r[0]) && !IsSpace(r[|r| - 1])
    ensures r == [] ==> forall k :: 0 <= k < |s| ==> IsSpace(s[k])
    decreases |s|
  {
    if s == [] then s
    else if IsSpace(s[0]) then Strip(s[1..])
    else if IsSpace(s[|s| - 1]) then Strip(s[..|s| - 1])
    else s
  }

  /** What strip keeps is a slice of its input with only whitespace cut
      off on either side. */
  lemma {:induction false} StripIsTrim(s: string)
    ensures exists i, j :: TrimmedTo(s, i, j) && Strip(s) == s[i..j]
    decreases |s|
  {
    if s == [] {
      assert TrimmedTo(s, 0, 0) && Strip(s) == s[0..0];
    } else if IsSpace(s[0]) {
      StripIsTrim(s[1..]);
      var i, j :| TrimmedTo(s[1..], i, j) && Strip(s[1..]) == s[1..][i..j];
      TrimFront(s, i, j);
    } else if IsSpace(s[|s| - 1]) {
      StripIsTrim(s[..|s| - 1]);
      var i, j :| TrimmedTo(s[..|s| - 1], i, j) && Strip(s[..|s| - 1]) == s[..|s| - 1][i..j];
      TrimBack(s, i, j);
    } else {
      assert TrimmedTo(s, 0, |s|) && Strip(s) == s[0..|s|];
    }
  }

  lemma TrimFront(s: string, i: int, j: int)
    requires s != [] && IsSpace(s[0])
    requires TrimmedTo(s[1..], i, j) && Strip(s[1..]) == s[1..][i..j]
    ensures TrimmedTo(s, i + 1, j + 1) && Strip(s) == s[i + 1..j + 1]
  {
    assert s[1..][i..j] == s[i + 1..j + 1];
    assert forall k :: 1 <= k < |s| ==> s[k] == s[1..][k - 1];
  }

  lemma TrimBack(s: string, i: int, j: int)
    requires s != [] && !IsSpace(s[0]) && IsSpace(s[|s| - 1])
    requires TrimmedTo(s[..|s| - 1], i, j) && Strip(s[..|s| - 1]) == s[..|s| - 1][i..j]
    ensures TrimmedTo(s, i, j) && Strip(s) == s[i..j]
  {
    assert s[..|s| - 1][i..j] == s[i..j];
    assert forall k :: 0 <= k < |s| - 1 ==> s[k] == s[..|s| - 1][k];
  }

  /** s[i..j] is s with only whitespace cut off on either side. */
  predicate TrimmedTo(s: string, i: int, j: int) {
    && 0 <= i <= j <= |s|
    && (forall k :: 0 <= k < i ==> IsSpace(s[k]))
    && (forall k :: j <= k < |s| ==> IsSpace(s[k]))
  }

  function LowerChar(c: char): char {
    if 'A' <= c <= 'Z' then (c as int + 32) as char else c
  }

  /** str.lower() on ASCII letters; other characters are kept. */
  function Lower(s: string): (r: string)
    ensures |r| == |s|
    ensures forall i :: 0 <= i < |s| ==> r[i] == LowerChar(s[i])
  {
    if s == [] then [] else [LowerChar(s[0])] + Lower(s[1..])
  }
}
